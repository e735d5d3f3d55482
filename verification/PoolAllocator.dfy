/** The pool allocator: fixed-size blocks whose free list is threaded through an array of
    indices. Memory is the integers; a block is known by its address. */
module PoolAllocator {
  import opened Lists

  const NULL_IDX := -1
  const DETACHED_IDX := -2
  const INT_SIZE := 4

  datatype PoolResult = Success | NotEnoughMemory | UnalignedFree | OutOfRange | DoubleFree

  // ----- C integer division: the quotient is cut off towards zero

  function TruncDiv(a: int, b: int): int
    requires b > 0
  {
    if a >= 0 then a / b else -((-a) / b)
  }

  function TruncMod(a: int, b: int): int
    requires b > 0
  {
    a - Times(TruncDiv(a, b), b)
  }

  function Times(a: int, b: int): int {
    a * b
  }

  lemma TimesNonNeg(a: int, b: int)
    requires a >= 0 && b >= 0
    ensures Times(a, b) >= 0
  {
  }

  lemma TimesStep(a: int, b: int)
    ensures Times(a + 1, b) == Times(a, b) + b
  {
  }

  lemma {:induction false} MulDiv(q: nat, b: int)
    requires b > 0
    ensures Times(q, b) >= 0 && Times(q, b) / b == q
    decreases q
  {
    if q > 0 {
      MulDiv(q - 1, b);
      TimesStep(q - 1, b);
      DivStep(Times(q - 1, b), b);
    }
  }

  lemma DivStep(x: nat, b: int)
    requires b > 0
    ensures (x + b) / b == x / b + 1
  {
    var q, r := x / b, x % b;
    assert x + b == (q + 1) * b + r;
    DivUnique(x + b, b, q + 1, r);
  }

  lemma DivUnique(a: nat, b: int, q: int, r: int)
    requires b > 0 && a == q * b + r && 0 <= r < b
    ensures a / b == q
  {
    var d, e := a / b, a % b;
    assert a == d * b + e;
    assert (d - q) * b == r - e && (q - d) * b == e - r;
    if d > q { AtLeast(d - q, b); }
    if d < q { AtLeast(q - d, b); }
  }

  lemma AtLeast(k: int, b: int)
    requires k >= 1 && b > 0
    ensures k * b >= b
  {
    TimesNonNeg(k - 1, b);
    assert k * b == (k - 1) * b + b;
  }

  /** Dividing a whole number of blocks gives their number back, also below the buffer. */
  lemma ExactQuotient(q: int, b: int)
    requires b > 0
    ensures TruncMod(Times(q, b), b) == 0 && TruncDiv(Times(q, b), b) == q
  {
    if q >= 0 {
      MulDiv(q, b);
    } else {
      MulDiv(-q, b);
      assert Times(-q, b) == -Times(q, b);
    }
  }

  // ----- the abstract pool

  /** Block addresses and the free indices, the next one to be handed out first. */
  datatype Pool = Pool(buffer: int, itemSize: int, max: nat, free: seq<nat>)

  ghost predicate PoolOk(p: Pool) {
    && p.itemSize > 0
    && Distinct(p.free)
    && forall i :: i in p.free ==> i < p.max
  }

  function Address(p: Pool, i: nat): int {
    p.buffer + Times(i, p.itemSize)
  }

  /** `block` is the address of a block of the pool that is in use. */
  ghost predicate InUse(p: Pool, block: int) {
    exists i: nat :: i < p.max && i !in p.free && block == Address(p, i)
  }

  function Got(p: Pool): (r: (Pool, Option<int>)) {
    if p.free == [] then (p, None)
    else (p.(free := p.free[1..]), Some(Address(p, p.free[0])))
  }

  function Released(p: Pool, block: int): (r: (Pool, PoolResult))
    requires p.itemSize > 0
  {
    var offset := block - p.buffer;
    var i := TruncDiv(offset, p.itemSize);
    if TruncMod(offset, p.itemSize) != 0 then (p, UnalignedFree)
    else if i < 0 || i >= p.max then (p, OutOfRange)
    else if i in p.free then (p, DoubleFree)
    else (p.(free := [i] + p.free), Success)
  }

  // ----- the allocator

  class Allocator {
    var buffer: int
    var freeList: array<int>
    var bufferSize: int
    var size: int
    var sizeMax: int
    var itemSize: int
    var firstIdx: int
    ghost var free: seq<nat>

    /** The chain from `firstIdx` visits the free indices in order and ends; exactly the other
        indices are marked as detached. */
    ghost predicate Valid()
      reads this, freeList
    {
      && PoolOk(Abs())
      && freeList.Length == sizeMax
      && bufferSize == Times(sizeMax, itemSize)
      && size == |free|
      && firstIdx == IdxAt(free, 0)
      && Threaded(free, freeList[..])
    }

    ghost function Abs(): Pool
      reads this
    {
      Pool(buffer, itemSize, if sizeMax >= 0 then sizeMax else 0, free)
    }

    constructor ()
    {
      freeList := new int[0];
    }

    /** Initialisation over `memorySize` bytes from `memoryBlock` on. */
    method Init(itemSize: int, numItems: int, memoryBlock: int, memorySize: int) returns (r: PoolResult)
      requires itemSize > 0 && numItems > 0
      modifies this
      ensures r == (if memorySize < Times(numItems, itemSize + INT_SIZE) then NotEnoughMemory else Success)
      ensures r == NotEnoughMemory ==> unchanged(this)
      ensures r == Success ==> Valid() && Abs() == Pool(memoryBlock, itemSize, numItems, Identity(numItems))
    {
      hide Times, Distinct, Threaded, Identity;
      var requested := Times(numItems, itemSize + INT_SIZE);
      if memorySize < requested { return NotEnoughMemory; }
      this.itemSize := itemSize;
      size, sizeMax := numItems, numItems;
      bufferSize := Times(numItems, itemSize);
      buffer := memoryBlock;
      var marks := new int[numItems];
      freeList := marks;
      for i := 0 to size - 1
        modifies marks
        invariant forall j :: 0 <= j < i ==> marks[j] == j + 1
      {
        marks[i] := i + 1;
      }
      freeList[size - 1] := NULL_IDX;
      firstIdx := 0;
      free := Identity(numItems);
      IdentityThreaded(freeList[..]);
      r := Success;
    }

    /** A free block, or none. */
    method GetBlock() returns (block: Option<int>)
      requires Valid()
      modifies this`firstIdx, this`size, this`free, freeList
      ensures Valid() && freeList == old(freeList)
      ensures (Abs(), block) == Got(old(Abs()))
    {
      hide Times, Distinct, Threaded;
      if firstIdx == NULL_IDX { return None; }
      var detached := firstIdx;
      ghost var marks := freeList[..];
      PopFree(free, marks);
      firstIdx := freeList[firstIdx];
      size := size - 1;
      freeList[detached] := DETACHED_IDX;
      assert freeList[..] == marks[detached := DETACHED_IDX];
      free := free[1..];
      block := Some(buffer + Times(detached, itemSize));
    }

    /** Gives a block back; anything else is refused. */
    method ReleaseBlock(block: int) returns (r: PoolResult)
      requires Valid()
      modifies this`firstIdx, this`size, this`free, freeList
      ensures Valid() && freeList == old(freeList)
      ensures (Abs(), r) == Released(old(Abs()), block)
    {
      hide Times, Distinct, TruncDiv, TruncMod, Threaded;
      var offset := block - buffer;
      if TruncMod(offset, itemSize) != 0 { return UnalignedFree; }
      var idx := TruncDiv(offset, itemSize);
      if idx < 0 || idx >= sizeMax { return OutOfRange; }
      ghost var marks := freeList[..];
      PushFree(free, marks, idx);
      if freeList[idx] != DETACHED_IDX { return DoubleFree; }
      freeList[idx] := firstIdx;
      assert freeList[..] == marks[idx := firstIdx];
      firstIdx := idx;
      size := size + 1;
      free := [idx] + free;
      r := Success;
    }
  }

  /** The index at place `k` of the chain, or the end mark. */
  function IdxAt(free: seq<nat>, k: int): int {
    if 0 <= k < |free| then free[k] else NULL_IDX
  }

  function Identity(n: nat): (r: seq<nat>)
    ensures |r| == n && forall i :: 0 <= i < n ==> r[i] == i
  {
    seq(n, i => i)
  }

  /** The chain runs through the marks, and exactly the indices off the chain are detached. */
  ghost predicate Threaded(free: seq<nat>, marks: seq<int>) {
    && (forall k :: 0 <= k < |free| ==> free[k] < |marks| && marks[free[k]] == IdxAt(free, k + 1))
    && (forall i :: 0 <= i < |marks| && i !in free ==> marks[i] == DETACHED_IDX)
  }

  lemma IdentityThreaded(marks: seq<int>)
    requires forall j :: 0 <= j < |marks| ==> marks[j] == if j == |marks| - 1 then NULL_IDX else j + 1
    ensures var r := Identity(|marks|);
            Distinct(r) && Threaded(r, marks) && forall i :: i in r ==> i < |marks|
  {
    forall i | 0 <= i < |marks| ensures i in Identity(|marks|) {
      assert Identity(|marks|)[i] == i;
    }
  }

  lemma PopFree(free: seq<nat>, marks: seq<int>)
    requires free != [] && Distinct(free) && Threaded(free, marks)
    ensures free[0] < |marks| && marks[free[0]] == IdxAt(free[1..], 0)
    ensures Distinct(free[1..]) && Threaded(free[1..], marks[free[0] := DETACHED_IDX])
    ensures forall i :: i in free[1..] ==> i in free
  {
    assert free == [free[0]] + free[1..];
    assert free[0] !in free[1..];
  }

  /** An index on the chain carries no detached mark; one off the chain can be put in front. */
  lemma PushFree(free: seq<nat>, marks: seq<int>, i: nat)
    requires Distinct(free) && Threaded(free, marks) && i < |marks|
    ensures i in free <==> marks[i] != DETACHED_IDX
    ensures i !in free ==> Distinct([i] + free) && Threaded([i] + free, marks[i := IdxAt(free, 0)])
  {
    if i !in free {
      var r := [i] + free;
      assert forall j :: j in r <==> j == i || j in free;
      assert forall k :: 0 <= k < |r| ==> IdxAt(r, k + 1) == IdxAt(free, k);
    }
  }
}
