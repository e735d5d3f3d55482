/** The abstract values of the kernel's intrusive lists: sequences without repetitions.
    LinkedList.ListHead refines exactly these functions on the heap; the kernel model
    (KernelState, KernelSteps, KernelMachine) uses them as values. */
module Lists {

  datatype Option<+T> = None | Some(value: T)

  ghost predicate Distinct<T>(s: seq<T>) {
    forall i, j :: 0 <= i < j < |s| ==> s[i] != s[j]
  }

  /** Position of the first occurrence, or the length when there is none. */
  function IndexOf<T(==)>(s: seq<T>, x: T): (i: nat)
    ensures i <= |s|
    ensures i < |s| <==> x in s
    ensures i < |s| ==> s[i] == x
    ensures forall j :: 0 <= j < i ==> s[j] != x
  {
    if s == [] || s[0] == x then 0 else 1 + IndexOf(s[1..], x)
  }

  /** The list after inserting `x` behind `prev`, or in front when there is no `prev`. */
  function InsertAfter<T(==)>(s: seq<T>, prev: Option<T>, x: T): (r: seq<T>) {
    match prev
    case None => [x] + s
    case Some(p) =>
      var i := IndexOf(s, p);
      if i < |s| then s[..i + 1] + [x] + s[i + 1..] else s
  }

  /** The list after detaching the first occurrence of `x`. */
  function Remove<T(==)>(s: seq<T>, x: T): (r: seq<T>) {
    var i := IndexOf(s, x);
    if i < |s| then s[..i] + s[i + 1..] else s
  }

  /** The elements of `s` that are not in `ws`, in order. */
  function Without<T(==, !new)>(s: seq<T>, ws: seq<T>): (r: seq<T>)
    ensures forall x :: x in r <==> x in s && x !in ws
  {
    if s == [] then []
    else if s[0] in ws then Without(s[1..], ws)
    else [s[0]] + Without(s[1..], ws)
  }

  lemma IndexOfDistinct<T>(s: seq<T>, i: nat)
    requires Distinct(s) && i < |s|
    ensures IndexOf(s, s[i]) == i
  {
  }

  /** Inserting puts the element right behind the given one, and nothing else moves. */
  lemma InsertedBehind<T>(s: seq<T>, k: nat, x: T)
    requires Distinct(s) && k < |s|
    ensures InsertAfter(s, Some(s[k]), x) == s[..k + 1] + [x] + s[k + 1..]
  {
    IndexOfDistinct(s, k);
  }

  /** Detaching takes out the given element, and nothing else moves. */
  lemma RemovedAt<T>(s: seq<T>, k: nat)
    requires Distinct(s) && k < |s|
    ensures Remove(s, s[k]) == s[..k] + s[k + 1..]
  {
    IndexOfDistinct(s, k);
  }

  lemma InsertAtBack<T>(s: seq<T>, x: T)
    requires Distinct(s) && s != []
    ensures InsertAfter(s, Some(s[|s| - 1]), x) == s + [x]
  {
    IndexOfDistinct(s, |s| - 1);
    assert s[..|s|] == s;
  }

  /** Detaching undoes inserting, wherever the element went in. */
  lemma RemoveUndoesInsert<T>(s: seq<T>, prev: Option<T>, x: T)
    requires x !in s
    requires prev.Some? ==> prev.value in s
    ensures Remove(InsertAfter(s, prev, x), x) == s
  {
    var r := InsertAfter(s, prev, x);
    var k := if prev.None? then 0 else IndexOf(s, prev.value) + 1;
    assert r == s[..k] + [x] + s[k..];
    assert r[k] == x && forall j :: 0 <= j < k ==> r[j] == s[j] != x;
    assert IndexOf(r, x) == k;
    assert r[..k] + r[k + 1..] == s;
  }

  lemma DistinctSplit<T>(s: seq<T>, k: nat)
    requires k <= |s| && Distinct(s)
    ensures Distinct(s[k..])
    ensures forall x :: x in s <==> x in s[..k] || x in s[k..]
    ensures forall x :: x in s[k..] ==> x !in s[..k]
  {
    assert s == s[..k] + s[k..];
  }

  lemma DistinctInsert<T>(s: seq<T>, k: nat, x: T)
    requires k <= |s| && Distinct(s) && x !in s
    ensures var r := s[..k] + [x] + s[k..]; Distinct(r) && forall y :: y in r <==> y in s || y == x
  {
    assert s == s[..k] + s[k..];
    var r := s[..k] + [x] + s[k..];
    forall i, j | 0 <= i < j < |r| ensures r[i] != r[j] {
      assert r[i] == if i < k then s[i] else if i == k then x else s[i - 1];
      assert r[j] == if j < k then s[j] else if j == k then x else s[j - 1];
    }
  }

  lemma RemoveFirst<T>(s: seq<T>)
    ensures s != [] ==> Remove(s, s[0]) == s[1..]
  {
  }

  lemma RemoveLast<T>(s: seq<T>, x: T)
    requires x !in s
    ensures Remove(s + [x], x) == s
  {
    var r := s + [x];
    assert r[|s|] == x && forall j :: 0 <= j < |s| ==> r[j] == s[j] != x;
    assert IndexOf(r, x) == |s|;
  }

  lemma RemoveOthers<T>(s: seq<T>, x: T)
    ensures forall y :: y != x ==> (y in Remove(s, x) <==> y in s)
  {
    var i := IndexOf(s, x);
    if i < |s| {
      assert s == s[..i] + [x] + s[i + 1..];
    }
  }

  /** Detaching from a list without repetitions leaves exactly the other members. */
  lemma RemoveMember<T>(s: seq<T>, x: T)
    requires Distinct(s) && x in s
    ensures |Remove(s, x)| == |s| - 1 && Distinct(Remove(s, x))
    ensures forall y :: y in Remove(s, x) <==> y in s && y != x
  {
    RemoveOthers(s, x);
  }

  lemma RemoveCounts<T>(s: seq<T>, x: T)
    requires x in s
    ensures multiset(s) == multiset(Remove(s, x)) + multiset{x}
  {
    var i := IndexOf(s, x);
    assert s == s[..i] + [x] + s[i + 1..];
  }

  lemma HeadTail<T>(s: seq<T>)
    requires s != []
    ensures s == [s[0]] + s[1..]
    ensures multiset(s) == multiset{s[0]} + multiset(s[1..])
  {
    assert s == [s[0]] + s[1..];
  }

  /** A sequence is distinct exactly when its multiset has no repetition. */
  lemma {:induction false} DistinctCounts<T(!new)>(s: seq<T>)
    ensures Distinct(s) <==> forall x :: multiset(s)[x] <= 1
  {
    if s != [] {
      HeadTail(s);
      DistinctCounts(s[1..]);
      if Distinct(s) {
        assert s[0] !in s[1..];
        assert multiset(s[1..])[s[0]] == 0;
        forall x ensures multiset(s)[x] <= 1 {
          assert multiset(s[1..])[x] <= 1;
        }
      }
      if forall x :: multiset(s)[x] <= 1 {
        assert multiset(s)[s[0]] <= 1;
        assert s[0] !in multiset(s[1..]);
        forall x ensures multiset(s[1..])[x] <= 1 {
          assert multiset(s)[x] <= 1;
        }
        forall i, j | 0 <= i < j < |s| ensures s[i] != s[j] {
          if i == 0 {
            assert s[j] in s[1..];
          } else {
            assert s[i] == s[1..][i - 1] && s[j] == s[1..][j - 1];
          }
        }
      }
    }
  }

  lemma {:induction false} WithoutNothing<T(!new)>(s: seq<T>)
    ensures Without(s, []) == s
  {
    if s != [] {
      WithoutNothing(s[1..]);
    }
  }

  lemma {:induction false} WithoutConcat<T(!new)>(a: seq<T>, b: seq<T>, ws: seq<T>)
    ensures Without(a + b, ws) == Without(a, ws) + Without(b, ws)
  {
    if a == [] {
      assert a + b == b;
    } else {
      assert (a + b)[0] == a[0] && (a + b)[1..] == a[1..] + b;
      WithoutConcat(a[1..], b, ws);
    }
  }

  lemma {:induction false} WithoutAbsent<T(!new)>(s: seq<T>, ws: seq<T>, x: T)
    requires x !in s
    ensures Without(s, ws + [x]) == Without(s, ws)
  {
    if s != [] {
      assert s[0] in ws + [x] <==> s[0] in ws;
      WithoutAbsent(s[1..], ws, x);
    }
  }

  lemma RemoveBehindHead<T>(h: T, s: seq<T>, x: T)
    requires h != x
    ensures Remove([h] + s, x) == [h] + Remove(s, x)
  {
    var i := IndexOf(s, x);
    assert ([h] + s)[1..] == s;
    assert IndexOf([h] + s, x) == 1 + i;
    if i < |s| {
      assert ([h] + s)[..i + 1] == [h] + s[..i];
      assert ([h] + s)[i + 2..] == s[i + 1..];
    }
  }

  /** Detaching one more element is one more element left out. */
  lemma {:induction false} WithoutOneMore<T(!new)>(s: seq<T>, ws: seq<T>, x: T)
    requires Distinct(s) && x !in ws
    ensures Without(s, ws + [x]) == Remove(Without(s, ws), x)
  {
    if s == [] {
    } else if s[0] == x {
      assert x !in s[1..];
      WithoutAbsent(s[1..], ws, x);
    } else {
      WithoutOneMore(s[1..], ws, x);
      if s[0] !in ws {
        RemoveBehindHead(s[0], Without(s[1..], ws), x);
      }
    }
  }

  /** Leaving out distinct members takes exactly those members away. */
  lemma {:induction false} WithoutCounts<T(!new)>(s: seq<T>, ws: seq<T>)
    requires Distinct(s) && Distinct(ws)
    requires forall x :: x in ws ==> x in s
    ensures multiset(s) == multiset(Without(s, ws)) + multiset(ws)
  {
    if ws == [] {
      WithoutNothing(s);
    } else {
      var n := |ws| - 1;
      var front := ws[..n];
      assert ws == front + [ws[n]];
      assert forall x :: x in front ==> x in ws;
      WithoutCounts(s, front);
      WithoutOneMore(s, front, ws[n]);
      assert ws[n] in Without(s, front);
      RemoveCounts(Without(s, front), ws[n]);
    }
  }
}
