/** The intrusive doubly linked list on the heap. A list is its sequence of items; insertion
    and detaching are the functions InsertAfter and Remove of module Lists on it, which is how
    the kernel model uses them. */
module LinkedList {
  import opened Lists

  class ListItem {
    var next: ListItem?
    var prev: ListItem?

    constructor ()
      ensures next == null && prev == null
    {
      next, prev := null, null;
    }
  }

  /** The item at place `i`, if there is one. */
  ghost function ItemAt(s: seq<ListItem>, i: int): ListItem? {
    if 0 <= i < |s| then s[i] else null
  }

  function Behind(prev: ListItem?): Option<ListItem> {
    if prev == null then None else Some(prev)
  }

  /** Every item is linked to its neighbours in the sequence. */
  ghost predicate Chained(s: seq<ListItem>)
    reads s
  {
    && (forall i {:trigger s[i].prev} :: 0 <= i < |s| ==> s[i].prev == ItemAt(s, i - 1))
    && (forall i {:trigger s[i].next} :: 0 <= i < |s| ==> s[i].next == ItemAt(s, i + 1))
  }

  ghost predicate Linked(item: ListItem)
    reads item
  {
    item.next != null || item.prev != null
  }

  class ListHead {
    var first: ListItem?
    var last: ListItem?
    var size: int
    ghost var items: seq<ListItem>

    /** Both chains, both ends and the size agree with the sequence. */
    ghost predicate Valid()
      reads this, items
    {
      && Distinct(items)
      && size == |items|
      && first == ItemAt(items, 0)
      && last == ItemAt(items, |items| - 1)
      && Chained(items)
    }

    constructor ()
      ensures Valid() && items == []
    {
      first, last, size := null, null, 0;
      items := [];
    }

    /** The linear scan. */
    method Find(item: ListItem) returns (r: ListItem?)
      requires Valid()
      ensures r == if item in items then item else null
    {
      var aux := first;
      ghost var k := 0;
      while aux != null
        invariant 0 <= k <= |items|
        invariant aux == ItemAt(items, k)
        invariant item !in items[..k]
        decreases |items| - k
      {
        if aux == item {
          return item;
        }
        assert aux == items[k] && items[k].next == ItemAt(items, k + 1);
        aux := aux.next;
        k := k + 1;
      }
      assert items[..k] == items;
      r := null;
    }

    /** Inserts `item` behind `prev`, or in front. An item that still has a link is refused. */
    method Insert(prev: ListItem?, item: ListItem) returns (r: ListItem?)
      requires Valid()
      requires prev != null ==> prev in items
      requires !Linked(item) ==> item !in items
      modifies this, item, items
      ensures Valid()
      ensures old(Linked(item)) ==>
                r == null && items == old(items) && unchanged(this) && unchanged(item) && unchanged(old(items))
      ensures old(!Linked(item)) ==>
                r == item && items == InsertAfter(old(items), Behind(prev), item)
    {
      hide Distinct, InsertAfter, IndexOf;
      if item.next != null || item.prev != null {
        return null;
      }
      ghost var s := items;
      ghost var k := if prev == null then 0 else IndexOf(s, prev) + 1;
      InsertIsAt(s, prev, item);
      OnlyAt(s, k - 1);
      OnlyAt(s, k);
      DistinctInsert(s, k, item);
      assert prev != null ==> s[k - 1].next == ItemAt(s, k);
      var next := if prev != null then prev.next else first;
      assert prev == ItemAt(s, k - 1) && next == ItemAt(s, k);
      Link(s, k, prev, next, item);
      if prev == null {
        first := item;
      }
      if next == null {
        last := item;
      }
      size := size + 1;
      hide Rewired, Chained;
      items := s[..k] + [item] + s[k..];
      ChainSpliced(s, items, k, item);
      r := item;
    }

    /** Detaches an item of the list. */
    method Detach(item: ListItem) returns (r: ListItem)
      requires Valid() && item in items
      modifies this, items
      ensures Valid()
      ensures r == item && !Linked(item)
      ensures items == Remove(old(items), item)
    {
      hide Distinct, Remove, IndexOf;
      ghost var s := items;
      ghost var k: int := IndexOf(s, item);
      RemoveIsAt(s, item);
      OnlyAt(s, k - 1);
      OnlyAt(s, k);
      OnlyAt(s, k + 1);
      DistinctRemove(s, k);
      assert s[k].prev == ItemAt(s, k - 1) && s[k].next == ItemAt(s, k + 1);
      assert (item == first <==> k == 0) && (item == last <==> k == |s| - 1) by {
        assert first == ItemAt(s, 0) && last == ItemAt(s, |s| - 1);
      }
      var prev := item.prev;
      var next := item.next;
      Unlink(s, k, prev, next, item);
      if item == first {
        first := next;
      }
      if item == last {
        last := prev;
      }
      size := size - 1;
      hide CutOut, Chained;
      items := s[..k] + s[k + 1..];
      ChainCut(s, items, k);
      r := item;
    }

    method PopFront() returns (r: ListItem?)
      requires Valid()
      modifies this, items
      ensures Valid()
      ensures if old(items) == [] then r == null && items == []
              else r == old(items)[0] && items == old(items)[1..] && !Linked(old(items)[0])
    {
      if first == null {
        return null;
      }
      RemoveFirst(items);
      r := Detach(first);
    }

    method PushBack(item: ListItem)
      requires Valid() && !Linked(item) && item !in items
      modifies this, item, items
      ensures Valid() && items == old(items) + [item]
    {
      if items != [] { InsertAtBack(items, item); }
      var r := Insert(last, item);
    }

    method PushFront(item: ListItem)
      requires Valid() && !Linked(item) && item !in items
      modifies this, item, items
      ensures Valid() && items == [item] + old(items)
    {
      var r := Insert(null, item);
    }

    /** The pointer writes of a detachment. */
    method Unlink(ghost s: seq<ListItem>, ghost k: nat, prev: ListItem?, next: ListItem?, item: ListItem)
      requires k < |s| && Chained(s) && s[k] == item
      requires prev == ItemAt(s, k - 1) && next == ItemAt(s, k + 1)
      requires forall i :: 0 <= i < |s| && i != k - 1 ==> s[i] != prev
      requires forall i :: 0 <= i < |s| && i != k + 1 ==> s[i] != next
      requires forall i :: 0 <= i < |s| && i != k ==> s[i] != item
      modifies s
      ensures CutOut(s, k) && !Linked(item)
    {
      if prev != null {
        prev.next := next;
      }
      if next != null {
        next.prev := prev;
      }
      item.next, item.prev := null, null;
    }

    /** The four pointer writes of an insertion. */
    method Link(ghost s: seq<ListItem>, ghost k: nat, prev: ListItem?, next: ListItem?, item: ListItem)
      requires k <= |s| && Chained(s) && item !in s && !Linked(item)
      requires prev == ItemAt(s, k - 1) && next == ItemAt(s, k)
      requires forall i :: 0 <= i < |s| && i != k - 1 ==> s[i] != prev
      requires forall i :: 0 <= i < |s| && i != k ==> s[i] != next
      modifies item, s
      ensures Rewired(s, k, item)
    {
      if prev != null {
        item.prev := prev;
        prev.next := item;
      }
      if next != null {
        item.next := next;
        next.prev := item;
      }
    }
  }

  lemma OnlyAt(s: seq<ListItem>, k: int)
    requires Distinct(s)
    ensures forall i :: 0 <= i < |s| && i != k ==> s[i] != ItemAt(s, k)
  {
  }

  /** The links after `item` has been put at place `k` of a chain. */
  ghost predicate Rewired(s: seq<ListItem>, k: nat, item: ListItem)
    reads s, item
  {
    && item.prev == ItemAt(s, k - 1) && item.next == ItemAt(s, k)
    && (forall i {:trigger s[i].prev} :: 0 <= i < |s| ==> s[i].prev == if i == k then item else ItemAt(s, i - 1))
    && (forall i {:trigger s[i].next} :: 0 <= i < |s| ==> s[i].next == if i == k - 1 then item else ItemAt(s, i + 1))
  }

  lemma ChainSpliced(s: seq<ListItem>, r: seq<ListItem>, k: nat, item: ListItem)
    requires k <= |s| && r == s[..k] + [item] + s[k..] && Rewired(s, k, item)
    ensures Chained(r)
  {
    forall i | 0 <= i < |r| ensures r[i].prev == ItemAt(r, i - 1) && r[i].next == ItemAt(r, i + 1) {
      if i < k {
        assert r[i] == s[i];
      } else if i > k {
        assert r[i] == s[i - 1];
      }
    }
  }

  lemma InsertIsAt(s: seq<ListItem>, prev: ListItem?, item: ListItem)
    requires prev != null ==> prev in s
    ensures var k := if prev == null then 0 else IndexOf(s, prev) + 1;
            s[..k] + [item] + s[k..] == InsertAfter(s, Behind(prev), item)
  {
  }

  lemma RemoveIsAt(s: seq<ListItem>, item: ListItem)
    requires item in s
    ensures var k := IndexOf(s, item); k < |s| && s[k] == item && s[..k] + s[k + 1..] == Remove(s, item)
  {
  }

  lemma DistinctRemove(s: seq<ListItem>, k: nat)
    requires k < |s| && Distinct(s)
    ensures Distinct(s[..k] + s[k + 1..])
  {
  }

  /** The links after the item at place `k` has been taken out of a chain. */
  ghost predicate CutOut(s: seq<ListItem>, k: nat)
    reads s
  {
    && (forall i {:trigger s[i].prev} :: 0 <= i < |s| && i != k ==>
          s[i].prev == if i == k + 1 then ItemAt(s, k - 1) else ItemAt(s, i - 1))
    && (forall i {:trigger s[i].next} :: 0 <= i < |s| && i != k ==>
          s[i].next == if i == k - 1 then ItemAt(s, k + 1) else ItemAt(s, i + 1))
  }

  lemma ChainCut(s: seq<ListItem>, r: seq<ListItem>, k: nat)
    requires k < |s| && r == s[..k] + s[k + 1..] && CutOut(s, k)
    ensures Chained(r)
  {
    forall i | 0 <= i < |r| ensures r[i].prev == ItemAt(r, i - 1) && r[i].next == ItemAt(r, i + 1) {
      if i < k {
        assert r[i] == s[i];
      } else {
        assert r[i] == s[i + 1];
      }
    }
  }

  /** What the guard of insertion can tell: an item that is already in a list is recognised by
      its links exactly when it has company there. */
  lemma GuardSeesCompany(l: ListHead, item: ListItem)
    requires l.Valid() && item in l.items
    ensures Linked(item) <==> |l.items| >= 2
  {
    var i: int := IndexOf(l.items, item);
    assert l.items[i].prev == ItemAt(l.items, i - 1) && l.items[i].next == ItemAt(l.items, i + 1);
  }

  /** The links are a function of the sequence: a list with the same items in the same order
      has the same ends, size and links. */
  twostate lemma SameLinks(l: ListHead)
    requires old(l.Valid()) && l.Valid() && l.items == old(l.items)
    ensures l.first == old(l.first) && l.last == old(l.last) && l.size == old(l.size)
    ensures forall x :: x in l.items ==> x.next == old(x.next) && x.prev == old(x.prev)
  {
    forall x | x in l.items ensures x.next == old(x.next) && x.prev == old(x.prev) {
      var i: int :| 0 <= i < |l.items| && l.items[i] == x;
      assert l.items[i].next == ItemAt(l.items, i + 1) == old(l.items[i].next);
      assert l.items[i].prev == ItemAt(l.items, i - 1) == old(l.items[i].prev);
    }
  }

  /** Inserting and detaching again restores every pointer. */
  method InsertThenDetach(l: ListHead, prev: ListItem?, item: ListItem)
    requires l.Valid() && !Linked(item) && item !in l.items
    requires prev != null ==> prev in l.items
    modifies l, item, l.items
    ensures l.Valid() && l.items == old(l.items) && !Linked(item)
    ensures l.first == old(l.first) && l.last == old(l.last) && l.size == old(l.size)
    ensures forall x :: x in l.items ==> x.next == old(x.next) && x.prev == old(x.prev)
  {
    hide Distinct, IndexOf, Remove;
    RemoveUndoesInsert(l.items, Behind(prev), item);
    InsertMembers(l.items, prev, item);
    ghost var longer := InsertAfter(l.items, Behind(prev), item);
    assert item in longer;
    assert forall x: ListItem :: x in longer ==> x in l.items || x == item;
    var r := l.Insert(prev, item);
    assert l.items == longer;
    r := l.Detach(item);
    SameLinks(l);
  }

  lemma InsertMembers(s: seq<ListItem>, prev: ListItem?, item: ListItem)
    requires prev != null ==> prev in s
    ensures var r := InsertAfter(s, Behind(prev), item);
            forall x: ListItem :: x in r <==> x in s || x == item
  {
    InsertIsAt(s, prev, item);
    var k := if prev == null then 0 else IndexOf(s, prev) + 1;
    assert s == s[..k] + s[k..];
  }

  /** The kernel's way of moving the first item of one list to the end of another: both lists
      change as sequences do, and a list that shares no item with them stays as it is. */
  method MoveFirst(from: ListHead, to: ListHead, ghost other: ListHead)
    requires from.Valid() && to.Valid() && other.Valid() && from.items != []
    requires from != to && other != from && other != to
    requires forall x :: x in from.items ==> x !in to.items && x !in other.items
    requires forall x :: x in to.items ==> x !in other.items
    modifies from, to, from.items, to.items
    ensures from.Valid() && to.Valid() && other.Valid()
    ensures from.items == old(from.items)[1..]
    ensures to.items == old(to.items) + [old(from.items)[0]]
    ensures other.items == old(other.items)
  {
    ghost var rest := from.items[1..];
    assert from.items[0] in from.items && forall x :: x in rest ==> x in from.items && x != from.items[0];
    assert forall x :: x in to.items ==> x !in from.items;
    var item := from.PopFront();
    Untouched(to);
    Untouched(other);
    label popped:
    assert from.items == rest && item !in rest && item !in to.items;
    to.PushBack(item);
    Untouched@popped(from);
    Untouched@popped(other);
  }

  /** A list none of whose objects was written is as good as before. */
  twostate lemma Untouched(l: ListHead)
    requires old(l.Valid())
    requires l.first == old(l.first) && l.last == old(l.last) && l.size == old(l.size) && l.items == old(l.items)
    requires forall x :: x in l.items ==> x.next == old(x.next) && x.prev == old(x.prev)
    ensures l.Valid()
  {
    var s := l.items;
    forall i | 0 <= i < |s| ensures s[i].prev == ItemAt(s, i - 1) && s[i].next == ItemAt(s, i + 1) {
      assert old(s[i].prev) == ItemAt(s, i - 1) && old(s[i].next) == ItemAt(s, i + 1);
    }
  }
}
