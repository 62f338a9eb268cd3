/** The doubly linked list that keeps the jobs of a delegate, edited through its pointers. */
module DList {
  import opened Base
  import opened Counter

  class Elem {
    const job: Job
    var next: Elem?
    var prev: Elem?

    constructor (j: Job)
      ensures job == j && next == null && prev == null
    {
      job := j;
      next := null;
      prev := null;
    }
  }

  /** `items` records the elements from head to tail. */
  class List {
    var head: Elem?
    var tail: Elem?
    var count: nat
    ghost var items: seq<Elem>

    ghost predicate LinkOk(i: nat)
      requires i < |items|
      reads this, Elems(items)
    {
      && items[i].prev == (if i == 0 then null else items[i - 1])
      && items[i].next == (if i + 1 < |items| then items[i + 1] else null)
    }

    ghost predicate Valid()
      reads this, Elems(items)
    {
      && (forall i, j :: 0 <= i < j < |items| ==> items[i] != items[j])
      && head == (if items == [] then null else items[0])
      && tail == (if items == [] then null else items[|items| - 1])
      && count == |items|
      && forall i :: 0 <= i < |items| ==> LinkOk(i)
    }

    constructor ()
      ensures Valid() && items == []
    {
      head, tail, count, items := null, null, 0, [];
    }

    /** The pointer work of an insert; `next` is the element that will follow. */
    method Splice(existing: Elem?, e: Elem, ghost next: Elem?)
      requires e != existing && e != next && (existing != null ==> existing != next)
      requires next == if existing == null then head else existing.next
      modifies this, e, existing, next
      ensures e.prev == existing && e.next == next
      ensures existing != null ==> existing.next == e && existing.prev == old(existing.prev)
      ensures next != null ==> next.prev == e && next.next == old(next.next)
      ensures head == if existing == null then e else old(head)
      ensures tail == if existing == old(tail) then e else old(tail)
      ensures count == old(count) + 1 && items == old(items)
    {
      e.prev := existing;
      if existing == null {
        e.next := head;
        head := e;
      } else {
        e.next := existing.next;
        existing.next := e;
      }
      if e.next != null {
        e.next.prev := e;
      }
      if existing == tail {
        tail := e;
      }
      count := count + 1;
    }

    /** Puts `e` behind `existing`, or in front when that is null. */
    method InsertAfter(existing: Elem?, e: Elem, ghost k: nat)
      requires Valid() && e !in items
      requires if existing == null then k == 0 else 0 < k <= |items| && items[k - 1] == existing
      modifies this, Elems(items), e
      ensures Valid() && items == old(items)[..k] + [e] + old(items)[k..]
    {
      ghost var was := items;
      ghost var next := if k < |was| then was[k] else null;
      assert existing != null ==> LinkOk(k - 1);
      Splice(existing, e, next);
      items := was[..k] + [e] + was[k..];
      assert forall j :: 0 <= j < |items| ==> items[j] == if j < k then was[j] else if j == k then e else was[j - 1];
      forall i | 0 <= i < |items|
        ensures LinkOk(i)
      {
        if i < k {
          assert old(LinkOk(i));
        } else if i > k {
          assert old(LinkOk(i - 1));
        }
      }
    }

    method AppendAtEnd(e: Elem)
      requires Valid() && e !in items
      modifies this, Elems(items), e
      ensures Valid() && items == old(items) + [e]
    {
      InsertAfter(tail, e, |items|);
    }

    method InsertBefore(existing: Elem, e: Elem, ghost k: nat)
      requires Valid() && e !in items && k < |items| && items[k] == existing
      modifies this, Elems(items), e
      ensures Valid() && items == old(items)[..k] + [e] + old(items)[k..]
    {
      assert LinkOk(k);
      InsertAfter(existing.prev, e, k);
    }

    method Remove(e: Elem, ghost k: nat)
      requires Valid() && k < |items| && items[k] == e
      modifies this, Elems(items)
      ensures Valid() && items == old(items)[..k] + old(items)[k + 1..]
    {
      assert LinkOk(k);
      assert k > 0 ==> LinkOk(k - 1);
      assert k + 1 < |items| ==> LinkOk(k + 1);
      var prev, next := e.prev, e.next;
      if prev == null {
        head := next;
      } else {
        prev.next := next;
      }
      if next == null {
        tail := prev;
      } else {
        next.prev := prev;
      }
      count := count - 1;
      items := items[..k] + items[k + 1..];
      e.next, e.prev := null, null;
      forall i | 0 <= i < |items|
        ensures LinkOk(i)
      {
        assert i < k ==> old(LinkOk(i));
        assert i >= k ==> old(LinkOk(i + 1));
      }
    }

    method Dequeue() returns (e: Elem?)
      requires Valid()
      modifies this, Elems(items)
      ensures Valid()
      ensures old(items) == [] ==> e == null && items == []
      ensures old(items) != [] ==> e == old(items[0]) && items == old(items)[1..]
    {
      e := head;
      if e != null {
        Remove(e, 0);
      }
    }
  }
}
