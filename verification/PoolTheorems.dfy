/** What the pool promises its users, over single calls, over any interleaving of calls, and
    about the bytes of its blocks. */
module PoolTheorems {
  import opened Lists
  import opened PoolAllocator

  // ----- addresses and blocks

  /** Distinct blocks have distinct addresses, and release finds the index of an address. */
  lemma IndexOfAddress(p: Pool, i: nat)
    requires p.itemSize > 0
    ensures TruncMod(Address(p, i) - p.buffer, p.itemSize) == 0
    ensures TruncDiv(Address(p, i) - p.buffer, p.itemSize) == i
  {
    ExactQuotient(i, p.itemSize);
  }

  /** The other way round: an aligned address is the address of the index it divides to. */
  lemma AlignedAddress(p: Pool, block: int)
    requires p.itemSize > 0 && TruncMod(block - p.buffer, p.itemSize) == 0
    ensures block == p.buffer + Times(TruncDiv(block - p.buffer, p.itemSize), p.itemSize)
  {
  }

  /** A release succeeds exactly on the blocks in use; every other release changes nothing. */
  lemma ReleaseOutcome(p: Pool, block: int)
    requires PoolOk(p)
    ensures var (p', r) := Released(p, block);
            && PoolOk(p')
            && (r == Success <==> InUse(p, block))
            && (r != Success ==> p' == p)
            && (r == DoubleFree <==> exists i :: i in p.free && block == Address(p, i))
  {
    hide TruncDiv, TruncMod, Times;
    var i := TruncDiv(block - p.buffer, p.itemSize);
    if TruncMod(block - p.buffer, p.itemSize) == 0 {
      AlignedAddress(p, block);
    }
    forall j: nat | block == Address(p, j) ensures TruncMod(block - p.buffer, p.itemSize) == 0 && i == j {
      IndexOfAddress(p, j);
    }
    var (p', r) := Released(p, block);
    if r == Success {
      assert block == Address(p, i as nat);
    }
    if r == DoubleFree {
      assert i in p.free && block == Address(p, i);
    }
  }

  /** A get fails exactly when no block is free; otherwise it takes a block that was not in use. */
  lemma GetOutcome(p: Pool)
    requires PoolOk(p)
    ensures var (p', b) := Got(p);
            && PoolOk(p')
            && (b == None <==> p.free == [])
            && (b.Some? ==> !InUse(p, b.value) && InUse(p', b.value))
  {
    hide Times;
    var (p', b) := Got(p);
    if b.Some? {
      assert forall i :: i in p'.free ==> i in p.free;
      assert p.free[0] in p.free && p.free[0] !in p'.free;
      assert b.value == Address(p', p.free[0]);
      forall i: nat | b.value == Address(p, i) ensures i == p.free[0] {
        IndexOfAddress(p, i);
        IndexOfAddress(p, p.free[0]);
      }
    }
  }

  /** Giving a block back and asking for one again returns the same block and pool. */
  lemma ReleaseThenGet(p: Pool, block: int)
    requires PoolOk(p) && InUse(p, block)
    ensures Got(Released(p, block).0) == (p, Some(block))
  {
    ReleaseOutcome(p, block);
    hide TruncDiv, TruncMod, Times;
    var i := TruncDiv(block - p.buffer, p.itemSize);
    AlignedAddress(p, block);
    assert ([i] + p.free)[1..] == p.free;
  }

  /** Asking for a block and giving it back restores the pool; a second time is refused. */
  lemma GetThenRelease(p: Pool)
    requires PoolOk(p) && p.free != []
    ensures var (p', b) := Got(p);
            && Released(p', b.value) == (p, Success)
            && Released(p, b.value) == (p, DoubleFree)
  {
    hide TruncDiv, TruncMod, Times;
    IndexOfAddress(p, p.free[0]);
    var (p', b) := Got(p);
    assert p.free[0] in p.free && p.free[0] !in p.free[1..];
    assert [p.free[0]] + p.free[1..] == p.free;
  }

  // ----- any interleaving

  datatype Op = Get | Release(block: int)

  function Apply(p: Pool, op: Op): Pool
    requires p.itemSize > 0
    ensures Apply(p, op).itemSize == p.itemSize
  {
    match op
    case Get => Got(p).0
    case Release(block) => Released(p, block).0
  }

  function After(p: Pool, ops: seq<Op>): (r: Pool)
    requires p.itemSize > 0
    ensures r.itemSize == p.itemSize
    decreases |ops|
  {
    if ops == [] then p else After(Apply(p, ops[0]), ops[1..])
  }

  /** Some call of `ops` gives `block` back. */
  ghost predicate GivesBack(p: Pool, ops: seq<Op>, block: int)
    requires p.itemSize > 0
  {
    exists k :: 0 <= k < |ops| && ops[k] == Release(block) && Released(After(p, ops[..k]), block).1 == Success
  }

  lemma ApplyKeeps(p: Pool, op: Op, block: int)
    requires PoolOk(p)
    ensures PoolOk(Apply(p, op)) && Apply(p, op).max == p.max
    ensures InUse(p, block) && op != Release(block) ==> InUse(Apply(p, op), block)
    ensures |Apply(p, op).free| <= p.max
  {
    hide TruncDiv, TruncMod, Times;
    match op {
    case Get =>
      GetOutcome(p);
      assert forall i :: i in Got(p).0.free ==> i in p.free;
    case Release(b) =>
      ReleaseOutcome(p, b);
      if InUse(p, block) && b != block {
        var i: nat :| i < p.max && i !in p.free && block == Address(p, i);
        var j := TruncDiv(b - p.buffer, p.itemSize);
        if Released(p, b).1 == Success {
          AlignedAddress(p, b);
          assert i != j;
          assert i !in [j] + p.free;
        }
        assert block == Address(Released(p, b).0, i);
      }
    }
    FreeBound(Apply(p, op));
  }

  /** At most `max` indices are free. */
  lemma FreeBound(p: Pool)
    requires PoolOk(p)
    ensures |p.free| <= p.max
  {
    DistinctBound(p.free, p.max);
  }

  lemma {:induction false} DistinctBound(s: seq<nat>, n: nat)
    requires Distinct(s) && forall i :: i in s ==> i < n
    ensures |s| <= n
    decreases n
  {
    assert s != [] ==> s[0] in s;
    if n > 0 && s != [] {
      if n - 1 in s {
        var k := IndexOf(s, n - 1);
        var r := s[..k] + s[k + 1..];
        forall i | i in r ensures i < n - 1 { assert i in s && i != n - 1; }
        DistinctBound(r, n - 1);
      } else {
        DistinctBound(s, n - 1);
      }
    }
  }

  /** A block in use stays in use until it is given back. */
  lemma {:induction false} StaysInUse(p: Pool, ops: seq<Op>, block: int)
    requires PoolOk(p) && InUse(p, block) && !GivesBack(p, ops, block)
    ensures PoolOk(After(p, ops)) && InUse(After(p, ops), block)
    decreases |ops|
  {
    if ops != [] {
      var q, rest := Apply(p, ops[0]), ops[1..];
      ReleaseOutcome(p, block);
      assert ops[..0] == [] && After(p, ops[..0]) == p;
      assert ops[0] != Release(block);
      ApplyKeeps(p, ops[0], block);
      forall k | 0 <= k < |rest| && rest[k] == Release(block)
        ensures Released(After(q, rest[..k]), block).1 != Success
      {
        assert ops[..k + 1][0] == ops[0] && ops[..k + 1][1..] == rest[..k];
        assert ops[k + 1] == Release(block);
      }
      StaysInUse(q, rest, block);
    }
  }

  /** No block is handed out twice: whatever calls come between two gets that return the same
      block, one of them has given that block back. */
  lemma NeverTwice(p: Pool, ops: seq<Op>, block: int)
    requires PoolOk(p) && Got(p).1 == Some(block)
    requires Got(After(Got(p).0, ops)).1 == Some(block)
    ensures GivesBack(Got(p).0, ops, block)
  {
    GetOutcome(p);
    var p' := Got(p).0;
    if !GivesBack(p', ops, block) {
      StaysInUse(p', ops, block);
      GetOutcome(After(p', ops));
    }
  }

  // ----- bytes

  /** Distinct blocks occupy disjoint byte ranges. */
  lemma {:induction false} BlocksDisjoint(p: Pool, i: nat, j: nat)
    requires p.itemSize > 0 && i < j
    ensures Address(p, i) + p.itemSize <= Address(p, j)
    decreases j - i
  {
    TimesStep(j - 1, p.itemSize);
    if i < j - 1 {
      BlocksDisjoint(p, i, j - 1);
    }
  }

  /** Blocks lie between the start of the memory and the index array behind them, and that
      array ends inside the memory that initialisation has checked. */
  lemma LayoutFits(p: Pool, i: nat, memorySize: int)
    requires p.itemSize > 0 && i < p.max
    requires memorySize >= Times(p.max, p.itemSize + INT_SIZE)
    ensures p.buffer <= Address(p, i)
    ensures Address(p, i) + p.itemSize <= p.buffer + Times(p.max, p.itemSize)
    ensures p.buffer + Times(p.max, p.itemSize) + Times(p.max, INT_SIZE) <= p.buffer + memorySize
  {
    TimesNonNeg(i, p.itemSize);
    BlocksDisjoint(p, i, p.max);
    assert Times(p.max, p.itemSize + INT_SIZE) == Times(p.max, p.itemSize) + Times(p.max, INT_SIZE);
  }

  /** The bytes of a message follow its header inside its block; with at most 256 of them they
      reach neither the next block nor any other message. */
  lemma PayloadsApart(p: Pool, header: nat, i: nat, j: nat, size: int)
    requires p.itemSize == header + 256 && 0 < size <= 256 && i != j
    ensures var start := Address(p, i) + header;
            start + size <= Address(p, i) + p.itemSize
            && (start + size <= Address(p, j) || Address(p, j) + p.itemSize <= start)
  {
    if i < j {
      BlocksDisjoint(p, i, j);
    } else {
      BlocksDisjoint(p, j, i);
    }
  }
}
