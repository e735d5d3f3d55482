/** Runs of the kernel: a sequence of traps and ticks from a given state. */
module Runs {
  import opened KernelState
  import opened KernelSteps
  import opened ProcessInvariant

  function Exec(s: State, es: seq<Event>): State {
    if es == [] then s
    else Step(Exec(s, es[..|es| - 1]), es[|es| - 1])
  }

  /** The state before event `k` of the run. */
  function Before(s: State, es: seq<Event>, k: nat): State
    requires k <= |es|
  {
    Exec(s, es[..k])
  }

  ghost predicate Legal(s: State, es: seq<Event>) {
    forall k :: 0 <= k < |es| ==> Enabled(Before(s, es, k), es[k])
  }

  lemma BeforeStep(s: State, es: seq<Event>, k: nat)
    requires k < |es|
    ensures Before(s, es, k + 1) == Step(Before(s, es, k), es[k])
  {
    assert es[..k + 1][..k] == es[..k];
  }

  lemma SameBefore(s: State, front: seq<Event>, es: seq<Event>)
    requires front <= es
    ensures forall j :: 0 <= j <= |front| ==> Before(s, front, j) == Before(s, es, j)
  {
    forall j | 0 <= j <= |front| ensures Before(s, front, j) == Before(s, es, j) {
      assert front[..j] == es[..j];
    }
  }

  lemma LegalPrefix(s: State, es: seq<Event>, n: nat)
    requires Legal(s, es) && n <= |es|
    ensures Legal(s, es[..n])
  {
    forall k | 0 <= k < n ensures Enabled(Before(s, es[..n], k), es[..n][k]) {
      assert es[..n][..k] == es[..k];
      assert Enabled(Before(s, es, k), es[k]);
    }
  }

  /** Every state of a legal run is good. */
  lemma {:induction false} RunInv(s: State, es: seq<Event>, k: nat)
    requires Inv(s) && Legal(s, es) && k <= |es|
    ensures Inv(Before(s, es, k))
  {
    hide Inv, Enabled;
    if k > 0 {
      RunInv(s, es, k - 1);
      BeforeStep(s, es, k - 1);
      StepInv(Before(s, es, k - 1), es[k - 1]);
    }
  }

  /** From steps to runs: if a step leaves what is `good` exactly unless it is `bad`, then a legal run
      stays good at every point exactly if none of its events is bad. */
  lemma {:induction false} StaysExactly(s: State, es: seq<Event>, good: State -> bool, bad: (State, Event) -> bool)
    requires Inv(s) && Legal(s, es) && good(s)
    requires forall t, e :: Inv(t) && Enabled(t, e) && good(t) ==> (good(Step(t, e)) <==> !bad(t, e))
    ensures (forall k :: 0 <= k <= |es| ==> good(Before(s, es, k)))
            <==> (forall k :: 0 <= k < |es| ==> !bad(Before(s, es, k), es[k]))
  {
    hide Inv, Enabled, Step;
    if es == [] {
      assert Before(s, es, 0) == s;
    } else {
      var n := |es| - 1;
      var front := es[..n];
      LegalPrefix(s, es, n);
      StaysExactly(s, front, good, bad);
      SameBefore(s, front, es);
      RunInv(s, es, n);
      BeforeStep(s, es, n);
      assert Enabled(Before(s, es, n), es[n]);
      hide Before, Legal;
      assert forall k :: 0 <= k < n ==> front[k] == es[k];
    }
  }

  /** Every state the kernel reaches after booting is good. */
  lemma ReachableInv(es: seq<Event>, k: nat)
    requires Legal(BOOT, es) && k <= |es|
    ensures Inv(Before(BOOT, es, k))
  {
    BootInv();
    RunInv(BOOT, es, k);
  }

  /** A run that is legal up to step `n` and has led to `s` goes on with an enabled event. */
  lemma Advance(es: seq<Event>, n: nat, s: State, t: State)
    requires n < |es| && Legal(BOOT, es[..n]) && Exec(BOOT, es[..n]) == s
    requires Enabled(s, es[n]) && Step(s, es[n]) == t
    ensures Legal(BOOT, es[..n + 1]) && Exec(BOOT, es[..n + 1]) == t
  {
    hide Enabled, Step;
    var all := es[..n + 1];
    assert all[..n] == es[..n];
    forall k | 0 <= k < |all| ensures Enabled(Before(BOOT, all, k), all[k]) {
      assert k < n ==> all[..k] == es[..n][..k] && Enabled(Before(BOOT, es[..n], k), es[..n][k]);
    }
  }
}
