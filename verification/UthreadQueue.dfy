/** The intrusive FIFO queue of `uthread_queue.c` over the circular list of `list.h`. */
module UthreadQueue {

  /** list_link_t, embedded in the thread it links; NULL links mean not queued. */
  class Link {
    const thread: int
    var next: Link?
    var prev: Link?

    constructor (thread: int)
      ensures this.thread == thread && next == null && prev == null
    {
      this.thread := thread;
      next, prev := null, null;
    }
  }

  function Up(i: nat, n: nat): nat { if i == n - 1 then 0 else i + 1 }

  function Down(i: nat, n: nat): int { if i == 0 then n - 1 else i - 1 }

  ghost predicate Distinct(r: seq<Link>) { forall i, j :: 0 <= i < j < |r| ==> r[i] != r[j] }

  /** r is a closed chain, in the direction of the prev links. */
  ghost predicate Ring(r: seq<Link>)
    reads r
  {
    && r != []
    && Distinct(r)
    && (forall i {:trigger r[i].prev} {:trigger r[i].next} :: 0 <= i < |r| ==>
      r[i].prev == r[Up(i, |r|)] && r[i].next == r[Down(i, |r|)])
  }

  /** r with x behind its i-th link. */
  function Inserted(r: seq<Link>, i: nat, x: Link): (s: seq<Link>)
    requires i < |r|
    ensures |s| == |r| + 1
    ensures forall k :: 0 <= k < |s| ==> s[k] == if k <= i then r[k] else if k == i + 1 then x else r[k - 1]
  {
    r[..i + 1] + [x] + r[i + 1..]
  }

  /** r without its i-th link. */
  function Without(r: seq<Link>, i: nat): (s: seq<Link>)
    requires i < |r|
    ensures |s| == |r| - 1
    ensures forall k :: 0 <= k < |s| ==> s[k] == if k < i then r[k] else r[k + 1]
  {
    r[..i] + r[i + 1..]
  }

  /** A ring, but that x is put in behind its i-th link. */
  predicate RingAround(r: seq<Link>, i: nat, x: Link)
    requires i < |r|
    reads r, x
  {
    && x.next == r[i] && x.prev == r[Up(i, |r|)]
    && (forall k {:trigger r[k].next} :: 0 <= k < |r| ==> r[k].next == if k == Up(i, |r|) then x else r[Down(k, |r|)])
    && (forall k {:trigger r[k].prev} :: 0 <= k < |r| ==> r[k].prev == if k == i then x else r[Up(k, |r|)])
  }

  lemma InsertedLinks(r: seq<Link>, i: nat, x: Link, k: nat)
    requires i < |r| && RingAround(r, i, x) && k <= |r|
    ensures var s := Inserted(r, i, x); s[k].prev == s[Up(k, |s|)] && s[k].next == s[Down(k, |s|)]
  {
    var s := Inserted(r, i, x);
    if k != i + 1 {
      var h := if k <= i then k else k - 1;
      assert s[k] == r[h];
    }
  }

  /** A ring, but that the neighbours of its i-th link are linked to each other. */
  predicate RingWithout(r: seq<Link>, i: nat)
    requires 0 < i < |r|
    reads r
  {
    forall k {:trigger r[k].next} {:trigger r[k].prev} :: 0 <= k < |r| && k != i ==>
      && r[k].next == (if k == Up(i, |r|) then r[i - 1] else r[Down(k, |r|)])
      && r[k].prev == (if k == i - 1 then r[Up(i, |r|)] else r[Up(k, |r|)])
  }

  lemma RemovedLinks(r: seq<Link>, i: nat, k: nat)
    requires 0 < i < |r| && RingWithout(r, i) && k < |r| - 1
    ensures var s := Without(r, i); s[k].prev == s[Up(k, |s|)] && s[k].next == s[Down(k, |s|)]
  {
    var s := Without(r, i);
    var h := if k < i then k else k + 1;
    assert s[k] == r[h];
  }

  lemma InsertedDiffer(r: seq<Link>, i: nat, x: Link)
    requires i < |r| && x !in r && Distinct(r)
    ensures Distinct(Inserted(r, i, x))
  {
  }

  lemma InsertKeepsRing(r: seq<Link>, i: nat, x: Link)
    requires i < |r| && x !in r && RingAround(r, i, x) && Distinct(r)
    ensures Ring(Inserted(r, i, x))
  {
    InsertedDiffer(r, i, x);
    hide RingAround;
    var s := Inserted(r, i, x);
    forall k | 0 <= k < |s| ensures s[k].prev == s[Up(k, |s|)] && s[k].next == s[Down(k, |s|)] {
      InsertedLinks(r, i, x, k);
    }
  }

  lemma RemoveKeepsRing(r: seq<Link>, i: nat)
    requires 0 < i < |r| && RingWithout(r, i) && Distinct(r)
    ensures Ring(Without(r, i))
  {
    hide RingWithout;
    var s := Without(r, i);
    forall k | 0 <= k < |s| ensures s[k].prev == s[Up(k, |s|)] && s[k].next == s[Down(k, |s|)] {
      RemovedLinks(r, i, k);
    }
  }

  /** list_insert_before. */
  method ListInsertBefore(next: Link, prev: Link, ghost r: seq<Link>, ghost i: nat)
    requires Ring(r) && i < |r| && r[i] == next && prev !in r
    modifies r, prev
    ensures Ring(Inserted(r, i, prev))
  {
    assert next.prev == r[Up(i, |r|)];
    prev.next := next;
    prev.prev := next.prev;
    next.prev.next := prev;
    next.prev := prev;
    InsertKeepsRing(r, i, prev);
  }

  /** list_remove. */
  method ListRemove(link: Link, ghost r: seq<Link>, ghost i: nat)
    requires Ring(r) && 0 < i < |r| && r[i] == link
    modifies r
    ensures Ring(Without(r, i)) && link.next == null && link.prev == null
  {
    var prev, next := link.prev, link.next;
    assert prev == r[Up(i, |r|)] && next == r[i - 1];
    prev.next := next;
    next.prev := prev;
    link.next, link.prev := null, null;
    RemoveKeepsRing(r, i);
  }

  /** The links at the ends: the newest before the head, the oldest behind it. */
  lemma EndsOf(r: seq<Link>)
    requires Ring(r)
    ensures r[0].next == r[|r| - 1] && r[0].prev == (if |r| == 1 then r[0] else r[1])
    ensures forall l :: l in r ==> l.next != null && l.prev != null
    ensures |r| > 1 ==> r[|r| - 1] != r[0]
  {
  }

  class UtQueue {
    const head: Link
    var size: nat
    /** The links of the queued threads, the one that waits longest first. */
    ghost var items: seq<Link>

    ghost predicate Valid()
      reads this, head, items
    {
      Ring([head] + items) && size == |items|
    }

    constructor ()
      ensures Valid() && items == [] && fresh(head)
    {
      head := new Link(-1);
      size, items := 0, [];
      new;
      head.next, head.prev := head, head;
    }

    method Empty() returns (b: bool)
      requires Valid()
      ensures b <==> items == []
      ensures b <==> head.next == head
    {
      EndsOf([head] + items);
      return size == 0;
    }

    /** Adds a thread that is on no queue. */
    method Enqueue(thr: Link)
      requires Valid() && thr.next == null && thr.prev == null
      modifies this, head, items, thr
      ensures Valid() && items == old(items) + [thr]
    {
      ghost var r := [head] + items;
      EndsOf(r);
      ListInsertBefore(head.next, thr, r, |r| - 1);
      assert Inserted(r, |r| - 1, thr) == [head] + (items + [thr]);
      size := size + 1;
      items := items + [thr];
    }

    /** Takes the thread that has waited longest; null when there is none. */
    method Dequeue() returns (thr: Link?)
      requires Valid()
      modifies this, head, items
      ensures Valid() && (thr == null <==> old(items) == [])
      ensures thr == null ==> items == []
      ensures thr != null ==> old(items) == [thr] + items && thr.next == null && thr.prev == null
    {
      var empty := Empty();
      if empty {
        return null;
      }
      var link := head.prev;
      ghost var r := [head] + items;
      EndsOf(r);
      ListRemove(link, r, 1);
      assert Without(r, 1) == [head] + items[1..];
      size := size - 1;
      items := items[1..];
      return link;
    }

    /** Takes a thread out of the middle. */
    method Remove(thr: Link, ghost i: nat)
      requires Valid() && i < |items| && items[i] == thr
      modifies this, head, items
      ensures Valid() && items == old(items)[..i] + old(items)[i + 1..] && thr.next == null && thr.prev == null
    {
      ghost var r := [head] + items;
      assert r[i + 1] == items[i];
      ListRemove(thr, r, i + 1);
      assert Without(r, i + 1) == [head] + (items[..i] + items[i + 1..]);
      size := size - 1;
      items := items[..i] + items[i + 1..];
    }
  }
}
