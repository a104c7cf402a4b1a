/** The transitions and the priority queue of `circuit.py`. */
module Transitions {

  /** A gate's output taking a value at a time; ids are handed out in order. */
  datatype Transition = Transition(gate: nat, newOutput: int, time: int, id: nat)

  predicate Less(a: Transition, b: Transition) {
    a.time < b.time || (a.time == b.time && a.id < b.id)
  }

  predicate LessEq(a: Transition, b: Transition) {
    a.time < b.time || (a.time == b.time && a.id <= b.id)
  }

  ghost predicate UniqueIds(q: seq<Transition>) {
    forall i, j :: 0 <= i < j < |q| ==> q[i].id != q[j].id
  }

  ghost predicate Least(q: seq<Transition>, k: int) {
    0 <= k < |q| && forall j :: 0 <= j < |q| ==> LessEq(q[k], q[j])
  }

  function Without(q: seq<Transition>, k: nat): (r: seq<Transition>)
    requires k < |q|
    ensures |r| == |q| - 1
  {
    q[..k] + q[k + 1..]
  }

  lemma WithoutMembers(q: seq<Transition>, k: nat)
    requires UniqueIds(q) && k < |q|
    ensures UniqueIds(Without(q, k)) && forall t :: t in Without(q, k) <==> t in q && t != q[k]
  {
    var r := Without(q, k);
    forall t ensures t in r <==> t in q && t != q[k] {
      if t in q && t != q[k] {
        var i :| 0 <= i < |q| && q[i] == t;
        assert r[if i < k then i else i - 1] == t;
      }
      if t in r {
        var i :| 0 <= i < |r| && r[i] == t;
        assert t == q[if i < k then i else i + 1];
      }
    }
  }

  datatype Option<+T> = None | Some(value: T)

  /** An unordered list with the place of its least element, once looked for. */
  class PriorityQueue {
    var queue: seq<Transition>
    var minIndex: Option<nat>

    ghost predicate Valid()
      reads this
    {
      UniqueIds(queue) && (minIndex.Some? ==> Least(queue, minIndex.value))
    }

    constructor ()
      ensures Valid() && queue == []
    {
      queue, minIndex := [], None;
    }

    method Append(key: Transition)
      requires Valid() && forall i :: 0 <= i < |queue| ==> queue[i].id != key.id
      modifies this
      ensures Valid() && queue == old(queue) + [key] && minIndex.None?
    {
      queue := queue + [key];
      minIndex := None;
    }

    method FindMin()
      requires Valid() && queue != []
      modifies this`minIndex
      ensures Valid() && minIndex.Some?
    {
      if minIndex.Some? {
        return;
      }
      var min := queue[0];
      var at := 0;
      for i := 1 to |queue|
        invariant 0 <= at < i && min == queue[at] && forall j :: 0 <= j < i ==> LessEq(min, queue[j])
        invariant minIndex.None? && queue == old(queue)
      {
        var key := queue[i];
        if Less(key, min) {
          min := key;
          at := i;
        }
      }
      minIndex := Some(at);
    }

    method Min() returns (r: Option<Transition>)
      requires Valid()
      modifies this`minIndex
      ensures Valid() && (r.None? <==> queue == [])
      ensures r.Some? ==> exists k :: Least(queue, k) && r.value == queue[k]
    {
      if queue == [] {
        return None;
      }
      FindMin();
      r := Some(queue[minIndex.value]);
    }

    /** Takes the least element out and keeps the others. */
    method Pop() returns (r: Option<Transition>)
      requires Valid()
      modifies this
      ensures Valid() && (r.None? <==> old(queue) == []) && (r.None? ==> queue == [])
      ensures r.Some? ==> exists k: nat ::
        Least(old(queue), k) && r.value == old(queue)[k] && queue == Without(old(queue), k)
    {
      if queue == [] {
        return None;
      }
      FindMin();
      var k := minIndex.value;
      r := Some(queue[k]);
      WithoutMembers(queue, k);
      queue := Without(queue, k);
      minIndex := None;
    }
  }
}
