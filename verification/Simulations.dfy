/** The event-driven simulation of `circuit.py`. */
module Simulations {
  import opened TruthTables
  import opened Circuits
  import opened Transitions

  // ---------------------------------------------------------------- gates

  function Values(gs: seq<nat>, output: seq<int>): (r: seq<int>)
    requires forall i :: 0 <= i < |gs| ==> gs[i] < |output|
    ensures |r| == |gs| && forall i :: 0 <= i < |r| ==> r[i] == output[gs[i]]
  {
    seq(|gs|, i requires 0 <= i < |gs| => output[gs[i]])
  }

  ghost predicate StateOk(net: Net, output: seq<int>) {
    Ready(net) && |output| == |net.types| && AreBits(output)
  }

  predicate Connected(net: Net, g: nat) {
    g < |net.types| && g < |net.ins| && net.ins[g] != []
  }

  /** What a connected gate should show: the entry of its type's list at the number
      that its inputs spell, the first input the most significant. */
  ghost function Entry(net: Net, g: nat, output: seq<int>): (v: int)
    requires StateOk(net, output) && Connected(net, g)
    ensures IsBit(v)
  {
    EntriesAreBits(net.types[g].table);
    EntryExists(net, g, output);
    Entries(net.types[g].table)[Counter(Values(net.ins[g], output))]
  }

  lemma EntryExists(net: Net, g: nat, output: seq<int>)
    requires StateOk(net, output) && Connected(net, g)
    ensures var inputs := Values(net.ins[g], output);
      && 0 <= Counter(inputs) < |Entries(net.types[g].table)| == Pow2(|inputs|)
      && Walk(net.types[g].table, inputs) == Leaf(Entries(net.types[g].table)[Counter(inputs)])
  {
    WalkIsEntry(net.types[g].table, Values(net.ins[g], output));
  }

  /** Gate.transition_output: what a connected gate's table says of its inputs. */
  function Logic(net: Net, g: nat, output: seq<int>): (v: int)
    requires StateOk(net, output) && Connected(net, g)
    ensures v == Entry(net, g, output)
  {
    WalkEndsInBit(net.types[g].table, Values(net.ins[g], output));
    EntryExists(net, g, output);
    Walk(net.types[g].table, Values(net.ins[g], output)).bit
  }

  /** What gate g should come to show: its table's answer, or what is scheduled
      for it when it has no inputs. */
  ghost function Goal(net: Net, want: seq<int>, g: nat, output: seq<int>): (v: int)
    requires StateOk(net, output) && |want| == |net.types| && g < |net.types|
  {
    if Connected(net, g) then Entry(net, g, output) else want[g]
  }

  ghost function Members(gs: seq<nat>): set<nat> {
    set g | g in gs
  }

  /** The gates that a list of transitions reaches. */
  ghost function Affected(net: Net, ts: seq<Transition>): set<nat> {
    set g: nat, i | 0 <= i < |ts| && ts[i].gate < |net.outs| && g in net.outs[ts[i].gate] :: g
  }

  lemma EntryDependsOnInputs(net: Net, g: nat, a: seq<int>, b: seq<int>)
    requires StateOk(net, a) && StateOk(net, b) && Connected(net, g)
    requires forall i :: 0 <= i < |net.ins[g]| ==> a[net.ins[g][i]] == b[net.ins[g][i]]
    ensures Entry(net, g, a) == Entry(net, g, b)
  {
    assert Values(net.ins[g], a) == Values(net.ins[g], b);
  }

  lemma OutsAreInputs(net: Net, g: nat, h: nat)
    requires Ready(net) && g < |net.types| && h < |net.types|
    ensures h in net.outs[g] <==> g in net.ins[h]
    ensures h in net.outs[g] ==> g < h && net.ins[h] != []
  {
    assert h in net.outs[g] <==> multiset(net.outs[g])[h] > 0;
    assert g in net.ins[h] <==> multiset(net.ins[h])[g] > 0;
  }

  // ---------------------------------------------------------------- what is pending

  ghost predicate Latest(q: seq<Transition>, g: nat, t: Transition) {
    t in q && t.gate == g && forall u :: u in q && u.gate == g ==> LessEq(u, t)
  }

  ghost predicate Idle(q: seq<Transition>, g: nat) {
    forall t :: t in q ==> t.gate != g
  }

  /** Once everything pending has happened, gate g with output o will have output v. */
  ghost predicate Settles(q: seq<Transition>, g: nat, o: int, v: int) {
    (Idle(q, g) && o == v) || exists t :: Latest(q, g, t) && t.newOutput == v
  }

  lemma PopKeepsSettles(q: seq<Transition>, k: nat, g: nat, o: int, o': int, v: int)
    requires UniqueIds(q) && Least(q, k) && Settles(q, g, o, v)
    requires o' == if q[k].gate == g then q[k].newOutput else o
    ensures Settles(Without(q, k), g, o', v)
  {
    WithoutMembers(q, k);
    var r := Without(q, k);
    if t :| Latest(q, g, t) && t.newOutput == v {
      if t != q[k] {
        assert Latest(r, g, t);
      } else {
        forall u | u in r ensures u.gate != g {
          if u.gate == g { SameOrder(q, u, t); }
        }
      }
    }
  }

  lemma SameOrder(q: seq<Transition>, t: Transition, u: Transition)
    requires UniqueIds(q) && t in q && u in q && LessEq(t, u) && LessEq(u, t)
    ensures t == u
  {
  }

  lemma AppendKeepsSettles(q: seq<Transition>, x: Transition, g: nat, o: int, v: int)
    requires x.gate != g && Settles(q, g, o, v)
    ensures Settles(q + [x], g, o, v)
  {
    if t :| Latest(q, g, t) && t.newOutput == v { assert Latest(q + [x], g, t); }
  }

  lemma AppendSettles(q: seq<Transition>, x: Transition, o: int)
    requires forall t :: t in q && t.gate == x.gate ==> LessEq(t, x)
    ensures Settles(q + [x], x.gate, o, x.newOutput)
  {
    assert Latest(q + [x], x.gate, x);
  }

  // ---------------------------------------------------------------- weights

  /** One more than the weights of the gates that g drives: an upper bound on the
      number of transitions that one transition of g can lead to. */
  ghost function Weight(net: Net, g: nat): nat
    requires Ready(net) && g < |net.types|
    decreases |net.types| - g, 1, 0
  {
    1 + Weights(net, g, net.outs[g])
  }

  ghost function Weights(net: Net, g: nat, hs: seq<nat>): nat
    requires Ready(net) && g < |net.types| && forall h :: h in hs ==> h in net.outs[g]
    decreases |net.types| - g, 0, |hs|
  {
    if hs == [] then 0 else
      assert hs[0] in net.outs[g];
      OutsAreInputs(net, g, hs[0]);
      Weight(net, hs[0]) + Weights(net, g, hs[1..])
  }

  ghost predicate GatesOk(net: Net, q: seq<Transition>) {
    forall i :: 0 <= i < |q| ==> q[i].gate < |net.types|
  }

  /** The weight of a queue; with spawn, that of what its transitions lead to. */
  ghost function Load(net: Net, q: seq<Transition>, spawn: bool): nat
    requires Ready(net) && GatesOk(net, q)
  {
    if q == [] then 0 else
      Weight(net, q[0].gate) - (if spawn then 1 else 0) + Load(net, q[1..], spawn)
  }

  lemma {:induction false} LoadWithout(net: Net, q: seq<Transition>, k: nat)
    requires Ready(net) && GatesOk(net, q) && k < |q|
    ensures GatesOk(net, Without(q, k))
    ensures Load(net, Without(q, k), false) == Load(net, q, false) - Weight(net, q[k].gate)
  {
    if k == 0 {
      assert Without(q, 0) == q[1..];
    } else {
      LoadWithout(net, q[1..], k - 1);
      assert Without(q, k)[1..] == Without(q[1..], k - 1) && Without(q, k)[0] == q[0];
    }
  }

  lemma {:induction false} LoadAppend(net: Net, q: seq<Transition>, x: Transition, spawn: bool)
    requires Ready(net) && GatesOk(net, q) && x.gate < |net.types|
    ensures GatesOk(net, q + [x])
      && Load(net, q + [x], spawn) == Load(net, q, spawn) + Weight(net, x.gate) - if spawn then 1 else 0
  {
    if q == [] {
      assert q + [x] == [x];
    } else {
      LoadAppend(net, q[1..], x, spawn);
      assert (q + [x])[1..] == q[1..] + [x];
    }
  }

  // ---------------------------------------------------------------- invariants

  /** Pending transitions lie between lo and, on connected gates, one delay after hi. */
  ghost predicate QueueOk(net: Net, q: seq<Transition>, nextId: nat, lo: int, hi: int) {
    && |net.ins| == |net.types| && GatesOk(net, q) && UniqueIds(q)
    && forall t :: t in q ==>
      && t.gate < |net.types| && t.id < nextId && lo <= t.time && IsBit(t.newOutput)
      && (net.ins[t.gate] != [] ==> t.time <= hi + net.types[t.gate].delay)
  }

  /** Every gate of gs, and every gate without inputs, is about to show its goal. */
  ghost predicate AllSettle(net: Net, q: seq<Transition>, gs: set<nat>, output: seq<int>, want: seq<int>,
      seen: seq<int>)
    requires StateOk(net, output) && StateOk(net, seen) && |want| == |net.types|
  {
    forall g :: 0 <= g < |net.types| && (g in gs || !Connected(net, g)) ==>
      Settles(q, g, output[g], Goal(net, want, g, seen))
  }

  /** Transitions in the order of their times. */
  ghost predicate InTimeOrder(ts: seq<Transition>) {
    forall i, j :: 0 <= i < j < |ts| ==> ts[i].time <= ts[j].time
  }

  ghost predicate HistoryOk(net: Net, ts: seq<Transition>, now: int) {
    InTimeOrder(ts) && GatesOk(net, ts) && forall i :: 0 <= i < |ts| ==> ts[i].time <= now
  }

  /** A gate's output changes only by a transition. */
  ghost predicate ChangedBy(a: seq<int>, b: seq<int>, ts: seq<Transition>) {
    |a| == |b| && forall g :: 0 <= g < |a| && a[g] != b[g] ==> exists i :: 0 <= i < |ts| && ts[i].gate == g
  }

  lemma PopStep(net: Net, q: seq<Transition>, k: nat, gs: set<nat>, output: seq<int>, want: seq<int>, seen: seq<int>,
      output': seq<int>)
    requires StateOk(net, output) && StateOk(net, seen) && |want| == |net.types|
    requires UniqueIds(q) && Least(q, k) && GatesOk(net, q) && IsBit(q[k].newOutput)
    requires output' == output[q[k].gate := q[k].newOutput]
    requires AllSettle(net, q, gs, output, want, seen)
    ensures StateOk(net, output') && AllSettle(net, Without(q, k), gs, output', want, seen)
  {
    forall g | 0 <= g < |net.types| && (g in gs || !Connected(net, g))
      ensures Settles(Without(q, k), g, output'[g], Goal(net, want, g, seen))
    {
      PopKeepsSettles(q, k, g, output[g], output'[g], Goal(net, want, g, seen));
    }
  }

  lemma PopKeepsQueue(net: Net, q: seq<Transition>, k: nat, nextId: nat, lo: int, hi: int)
    requires QueueOk(net, q, nextId, lo, hi) && k < |q|
    ensures QueueOk(net, Without(q, k), nextId, lo, hi)
  {
    WithoutMembers(q, k);
    forall i | 0 <= i < |Without(q, k)| ensures Without(q, k)[i].gate < |net.types| {
      assert Without(q, k)[i] in q;
    }
  }

  lemma ChangedMore(a: seq<int>, b: seq<int>, ts: seq<Transition>, t: Transition)
    requires ChangedBy(a, b, ts) && t.gate < |b|
    ensures ChangedBy(a, b[t.gate := t.newOutput], ts + [t])
  {
    var c, us := b[t.gate := t.newOutput], ts + [t];
    forall g | 0 <= g < |a| && a[g] != c[g] ensures exists i :: 0 <= i < |us| && us[i].gate == g {
      if g == t.gate {
        assert us[|ts|].gate == g;
      } else {
        var i :| 0 <= i < |ts| && ts[i].gate == g;
        assert us[i].gate == g;
      }
    }
  }

  /** Gates out of reach of the applied transitions see the inputs they saw before. */
  lemma Unaffected(net: Net, q: seq<Transition>, gs: set<nat>, output: seq<int>, want: seq<int>, seen: seq<int>,
      ts: seq<Transition>)
    requires StateOk(net, output) && StateOk(net, seen) && |want| == |net.types|
    requires ChangedBy(seen, output, ts) && GatesOk(net, ts)
    requires AllSettle(net, q, gs, output, want, seen)
    ensures AllSettle(net, q, gs - Affected(net, ts), output, want, output)
  {
    forall g | 0 <= g < |net.types| && (g in gs - Affected(net, ts) || !Connected(net, g))
      ensures Settles(q, g, output[g], Goal(net, want, g, output))
    {
      if Connected(net, g) {
        forall i | 0 <= i < |net.ins[g]| ensures seen[net.ins[g][i]] == output[net.ins[g][i]] {
          OutsAreInputs(net, net.ins[g][i], g);
        }
        EntryDependsOnInputs(net, g, seen, output);
      }
    }
  }

  lemma PropagateStep(net: Net, q: seq<Transition>, gs: set<nat>, output: seq<int>, want: seq<int>, x: Transition,
      nextId: nat, now: int)
    requires StateOk(net, output) && |want| == |net.types|
    requires QueueOk(net, q, nextId, now, now) && AllSettle(net, q, gs, output, want, output)
    requires Connected(net, x.gate) && x.id == nextId && x.newOutput == Entry(net, x.gate, output)
    requires x.time == now + net.types[x.gate].delay
    ensures QueueOk(net, q + [x], nextId + 1, now, now)
    ensures AllSettle(net, q + [x], gs + {x.gate}, output, want, output)
  {
    forall g | 0 <= g < |net.types| && (g in gs + {x.gate} || !Connected(net, g))
      ensures Settles(q + [x], g, output[g], Goal(net, want, g, output))
    {
      if g == x.gate {
        AppendSettles(q, x, output[g]);
      } else {
        AppendKeepsSettles(q, x, g, output[g], Goal(net, want, g, output));
      }
    }
  }

  lemma LoadOfNew(net: Net, q: seq<Transition>, k: nat, ts: seq<Transition>, valid: bool)
    requires Ready(net) && GatesOk(net, q) && GatesOk(net, ts) && k < |q|
    ensures var ts' := if valid then ts + [q[k]] else ts;
      GatesOk(net, Without(q, k)) && GatesOk(net, ts') &&
      Load(net, Without(q, k), false) + Load(net, ts', true) < Load(net, q, false) + Load(net, ts, true)
  {
    LoadWithout(net, q, k);
    if valid { LoadAppend(net, ts, q[k], true); }
  }

  lemma HistoryGrows(net: Net, ts: seq<Transition>, now: int, t: Transition)
    requires HistoryOk(net, ts, now) && t.time == now && t.gate < |net.types|
    ensures HistoryOk(net, ts + [t], now)
  {
  }

  /** Where the step at time now stands, after the transitions ts have taken effect;
      seen is what the outputs were before. */
  ghost predicate Applying(net: Net, q: seq<Transition>, live: set<nat>, output: seq<int>, want: seq<int>,
      seen: seq<int>, ts: seq<Transition>, nextId: nat, now: int)
  {
    && StateOk(net, output) && StateOk(net, seen) && |want| == |net.types|
    && QueueOk(net, q, nextId, now, now) && AllSettle(net, q, live, output, want, seen)
    && ChangedBy(seen, output, ts) && GatesOk(net, ts) && forall i :: 0 <= i < |ts| ==> ts[i].time == now
  }

  lemma ApplyOne(net: Net, q: seq<Transition>, live: set<nat>, output: seq<int>, want: seq<int>, seen: seq<int>,
                 ts: seq<Transition>, nextId: nat, now: int, k: nat)
    requires Applying(net, q, live, output, want, seen, ts, nextId, now) && Least(q, k) && q[k].time == now
    ensures q[k].gate < |output| == |net.types|
    ensures output[q[k].gate] == q[k].newOutput ==>
      Applying(net, Without(q, k), live, output, want, seen, ts, nextId, now)
    ensures Applying(net, Without(q, k), live, output[q[k].gate := q[k].newOutput], want, seen, ts + [q[k]],
      nextId, now)
    ensures UniqueIds(q) && UniqueIds(Without(q, k))
  {
    assert q[k] in q;
    var output' := output[q[k].gate := q[k].newOutput];
    PopStep(net, q, k, live, output, want, seen, output');
    PopKeepsQueue(net, q, k, nextId, now, now);
    ChangedMore(seen, output, ts, q[k]);
    assert output[q[k].gate] == q[k].newOutput ==> output' == output;
  }

  /** Where the step at time now stands while the driven gates follow: the gates of gs are settled. */
  ghost predicate Following(net: Net, q: seq<Transition>, gs: set<nat>, output: seq<int>, want: seq<int>, nextId: nat,
      now: int) {
    && StateOk(net, output) && |want| == |net.types|
    && QueueOk(net, q, nextId, now, now) && AllSettle(net, q, gs, output, want, output)
  }

  lemma StartFollowing(net: Net, q: seq<Transition>, live: set<nat>, output: seq<int>, want: seq<int>, seen: seq<int>,
                       ts: seq<Transition>, nextId: nat, now: int)
    requires Applying(net, q, live, output, want, seen, ts, nextId, now)
    ensures Following(net, q, live - Affected(net, ts), output, want, nextId, now)
    ensures Ready(net) && GatesOk(net, q) && GatesOk(net, ts) && |net.outs| == |net.types|
  {
    Unaffected(net, q, live, output, want, seen, ts);
  }

  /** One driven gate h of g follows. */
  lemma FollowOne(net: Net, q: seq<Transition>, gs: set<nat>, output: seq<int>, want: seq<int>, nextId: nat, now: int,
      g: nat, h: nat)
    requires Following(net, q, gs, output, want, nextId, now) && g < |net.types| && h in net.outs[g]
    ensures StateOk(net, output) && Connected(net, h)
    ensures forall i :: 0 <= i < |q| ==> q[i].id != nextId
    ensures var x := Transition(h, Entry(net, h, output), now + net.types[h].delay, nextId);
      && Following(net, q + [x], gs + {h}, output, want, nextId + 1, now)
      && GatesOk(net, q) && GatesOk(net, q + [x])
      && Load(net, q + [x], false) == Load(net, q, false) + Weight(net, h)
  {
    OutsAreInputs(net, g, h);
    var x := Transition(h, Entry(net, h, output), now + net.types[h].delay, nextId);
    forall i | 0 <= i < |q| ensures q[i].id < nextId { assert q[i] in q; }
    PropagateStep(net, q, gs, output, want, x, nextId, now);
    LoadAppend(net, q, x, false);
  }

  lemma AffectedMore(net: Net, ts: seq<Transition>, a: nat)
    requires GatesOk(net, ts) && a < |ts| && |net.outs| == |net.types|
    ensures Affected(net, ts[..a + 1]) == Affected(net, ts[..a]) + Members(net.outs[ts[a].gate])
  {
    var s, s' := ts[..a], ts[..a + 1];
    forall h ensures h in Affected(net, s') <==> h in Affected(net, s) || h in net.outs[ts[a].gate] {
      if h in net.outs[ts[a].gate] { assert s'[a].gate < |net.outs|; }
      if h in Affected(net, s) {
        var i :| 0 <= i < |s| && s[i].gate < |net.outs| && h in net.outs[s[i].gate];
        assert s'[i] == s[i];
      }
    }
  }

  lemma LoadStep(net: Net, ts: seq<Transition>, a: nat)
    requires Ready(net) && GatesOk(net, ts) && a < |ts|
    ensures GatesOk(net, ts[a..]) && GatesOk(net, ts[a + 1..]) && ts[a].gate < |net.types|
    ensures Load(net, ts[a..], true) == Weights(net, ts[a].gate, net.outs[ts[a].gate]) + Load(net, ts[a + 1..], true)
  {
    assert ts[a..][1..] == ts[a + 1..];
  }

  lemma WeightsStep(net: Net, g: nat, b: nat)
    requires Ready(net) && g < |net.types| && b < |net.outs[g]|
    ensures net.outs[g][b] < |net.types|
    ensures Weights(net, g, net.outs[g][b..]) == Weight(net, net.outs[g][b]) + Weights(net, g, net.outs[g][b + 1..])
  {
    assert net.outs[g][b] in net.outs[g];
    assert net.outs[g][b..][1..] == net.outs[g][b + 1..];
  }

  // ---------------------------------------------------------------- what one step does

  /** due holds, by age, all of q0's transitions of one time; q holds the others. */
  ghost predicate Drained(q0: seq<Transition>, q: seq<Transition>, due: seq<Transition>, now: int) {
    && (forall i, j :: 0 <= i < j < |due| ==> Less(due[i], due[j]))
    && (forall t :: t in q0 <==> t in q || t in due)
    && (forall t :: t in due ==> t.time == now)
    && (forall t, u :: t in due && u in q ==> Less(t, u))
  }

  lemma NothingDrained(q: seq<Transition>, output: seq<int>, now: int)
    ensures Drained(q, q, [], now) && Effect(output, []) == (output, [])
  {
  }

  lemma DrainOne(q0: seq<Transition>, q: seq<Transition>, due: seq<Transition>, now: int, k: nat)
    requires Drained(q0, q, due, now) && UniqueIds(q) && Least(q, k) && q[k].time == now
    ensures Drained(q0, Without(q, k), due + [q[k]], now)
  {
    WithoutMembers(q, k);
    forall t, u | t in due + [q[k]] && u in Without(q, k) ensures Less(t, u) {
      if t == q[k] { LeastIsLess(q, k, u); }
    }
    forall i, j | 0 <= i < j < |due + [q[k]]| ensures Less((due + [q[k]])[i], (due + [q[k]])[j]) {
      if j == |due| { assert due[i] in due && q[k] in q; }
    }
  }

  lemma LeastIsLess(q: seq<Transition>, k: nat, u: Transition)
    requires UniqueIds(q) && Least(q, k) && u in q && u != q[k]
    ensures Less(q[k], u)
  {
  }

  /** Transitions taking effect one after the other: the outputs after them, and
      those that changed an output. */
  function Effect(output: seq<int>, due: seq<Transition>): (r: (seq<int>, seq<Transition>))
    decreases |due|
  {
    if due == [] then (output, []) else
    var (o, ts) := Effect(output, due[..|due| - 1]);
    var t := due[|due| - 1];
    if t.gate < |o| && o[t.gate] != t.newOutput then (o[t.gate := t.newOutput], ts + [t]) else (o, ts)
  }

  /** Half-way through the transitions of one time: due have been taken off q0,
      and those of them that change an output, ts, have taken effect. */
  ghost predicate Draining(net: Net, q0: seq<Transition>, q: seq<Transition>, due: seq<Transition>, live: set<nat>,
      output: seq<int>, want: seq<int>, seen: seq<int>, ts: seq<Transition>, nextId: nat, now: int) {
    && Applying(net, q, live, output, want, seen, ts, nextId, now)
    && Drained(q0, q, due, now) && (output, ts) == Effect(seen, due)
    && Ready(net) && GatesOk(net, q0) && GatesOk(net, q) && GatesOk(net, ts)
    && Load(net, q, false) + Load(net, ts, true) + (if due == [] then 0 else 1) <= Load(net, q0, false)
  }

  lemma StartDraining(net: Net, q: seq<Transition>, live: set<nat>, output: seq<int>, want: seq<int>, nextId: nat,
      now: int, applied: seq<Transition>)
    requires Applying(net, q, live, output, want, output, [], nextId, now)
    ensures Draining(net, q, q, [], live, output, want, output, [], nextId, now)
    ensures forall t :: t in q ==> t.time >= now
  {
    ApplyingSays(net, q, live, output, want, output, [], nextId, now);
    NothingDrained(q, output, now);
    LoadNone(net);
  }

  /** The least transition takes effect, if it changes its gate's output. */
  lemma DrainNext(net: Net, q0: seq<Transition>, q: seq<Transition>, due: seq<Transition>, live: set<nat>,
      output: seq<int>, want: seq<int>, seen: seq<int>, ts: seq<Transition>, nextId: nat, now: int, k: nat)
    requires Draining(net, q0, q, due, live, output, want, seen, ts, nextId, now) && Least(q, k) && q[k].time == now
    ensures q[k].gate < |output| == |net.types|
    ensures var valid := output[q[k].gate] != q[k].newOutput;
      Draining(net, q0, Without(q, k), due + [q[k]], live,
        if valid then output[q[k].gate := q[k].newOutput] else output,
        want, seen, if valid then ts + [q[k]] else ts, nextId, now)
  {
    hide Applying, Load, Ready, GatesOk, Without, Drained, Effect;
    ApplyOne(net, q, live, output, want, seen, ts, nextId, now, k);
    LoadOfNew(net, q, k, ts, output[q[k].gate] != q[k].newOutput);
    DrainOne(q0, q, due, now, k);
    EffectOne(seen, due, q[k]);
  }

  lemma DrainingSays(net: Net, q0: seq<Transition>, q: seq<Transition>, due: seq<Transition>, live: set<nat>,
      output: seq<int>, want: seq<int>, seen: seq<int>, ts: seq<Transition>, nextId: nat, now: int)
    requires Draining(net, q0, q, due, live, output, want, seen, ts, nextId, now)
    ensures Applying(net, q, live, output, want, seen, ts, nextId, now) && Drained(q0, q, due, now)
    ensures (output, ts) == Effect(seen, due) && forall t :: t in q ==> t.time >= now
    ensures GatesOk(net, q0) && GatesOk(net, q) && GatesOk(net, ts)
    ensures due != [] ==> Load(net, q, false) + Load(net, ts, true) < Load(net, q0, false)
  {
    ApplyingSays(net, q, live, output, want, seen, ts, nextId, now);
  }

  lemma LeastTime(q: seq<Transition>, k: int, k1: int)
    requires Least(q, k) && Least(q, k1)
    ensures q[k].time == q[k1].time
  {
  }

  lemma FirstIsDue(q: seq<Transition>, first: Transition, now: int)
    requires (exists t :: t in q && t.time == now) && forall t :: t in q ==> t.time >= now
    requires exists k :: Least(q, k) && first == q[k]
    ensures first.time == now
  {
  }

  lemma EffectOne(output: seq<int>, due: seq<Transition>, t: Transition)
    ensures var (o, ts) := Effect(output, due);
      Effect(output, due + [t]) ==
        if t.gate < |o| && o[t.gate] != t.newOutput then (o[t.gate := t.newOutput], ts + [t]) else (o, ts)
  {
    assert (due + [t])[..|due|] == due;
  }

  /** The gates that transitions drive, in the order in which they are reached. */
  function Driven(net: Net, ts: seq<Transition>): seq<nat>
    decreases |ts|
  {
    if ts == [] then [] else
    var g := ts[|ts| - 1].gate;
    Driven(net, ts[..|ts| - 1]) + if g < |net.outs| then net.outs[g] else []
  }

  /** The transition of a driven gate: its list's entry for its inputs, one delay later. */
  ghost function Reaction(net: Net, h: nat, output: seq<int>, now: int, id: nat): Transition {
    if StateOk(net, output) && Connected(net, h) then Transition(h, Entry(net, h, output), now + net.types[h].delay, id)
    else Transition(h, 0, now, id)
  }

  /** One transition for each of the gates hs, numbered on from id. */
  ghost function Reactions(net: Net, hs: seq<nat>, output: seq<int>, now: int, id: nat): (r: seq<Transition>) {
    seq(|hs|, k requires 0 <= k < |hs| => Reaction(net, hs[k], output, now, id + k))
  }

  lemma ReactionsMore(net: Net, hs: seq<nat>, h: nat, output: seq<int>, now: int, id: nat)
    ensures Reactions(net, hs + [h], output, now, id)
      == Reactions(net, hs, output, now, id) + [Reaction(net, h, output, now, id + |hs|)]
  {
  }

  lemma NoReactions(net: Net, output: seq<int>, now: int, id: nat)
    ensures Driven(net, []) == [] && Reactions(net, [], output, now, id) == []
  {
  }

  lemma DrivenMore(net: Net, ts: seq<Transition>, a: nat)
    requires a < |ts| && ts[a].gate < |net.outs|
    ensures Driven(net, ts[..a + 1]) == Driven(net, ts[..a]) + net.outs[ts[a].gate]
  {
    assert ts[..a + 1][..a] == ts[..a];
  }

  // ---------------------------------------------------------------- the simulation

  class Simulation {
    const circuit: Circuit
    const queue: PriorityQueue
    var nextId: nat
    /** The time of the last step, and the transitions that took effect so far. */
    ghost var now: int
    ghost var applied: seq<Transition>
    /** The gates with inputs that are bound to show their table's answer, and
        what is scheduled for the others. */
    ghost var live: set<nat>
    ghost var want: seq<int>

    ghost predicate Valid()
      reads this, circuit, queue
    {
      && StateOk(circuit.net, circuit.output) && queue.Valid() && |want| == |circuit.net.types|
      && QueueOk(circuit.net, queue.queue, nextId, now, now)
      && HistoryOk(circuit.net, applied, now)
      && AllSettle(circuit.net, queue.queue, live, circuit.output, want, circuit.output)
    }

    constructor (circuit: Circuit)
      ensures this.circuit == circuit && fresh(queue) && queue.Valid() && queue.queue == [] && applied == []
    {
      this.circuit := circuit;
      queue := new PriorityQueue();
      nextId, now, applied, live, want := 0, 0, [], {}, [];
    }

    /** The first half of a step: applies, in order, what is pending for stepTime. */
    method ApplyDue(stepTime: int) returns (transitions: seq<Transition>, ghost due: seq<Transition>)
      requires queue.Valid() && HistoryOk(circuit.net, applied, stepTime)
      requires Applying(circuit.net, queue.queue, live, circuit.output, want, circuit.output, [], nextId, stepTime)
      requires exists t :: t in queue.queue && t.time == stepTime
      modifies this`applied, queue, circuit`output
      ensures queue.Valid() && HistoryOk(circuit.net, applied, stepTime) && applied == old(applied) + transitions
      ensures Applying(circuit.net, queue.queue, live, circuit.output, want, old(circuit.output), transitions,
        nextId, stepTime)
      ensures Drained(old(queue.queue), queue.queue, due, stepTime)
      ensures forall t :: t in queue.queue ==> t.time > stepTime
      ensures (circuit.output, transitions) == Effect(old(circuit.output), due)
      ensures Load(circuit.net, queue.queue, false) + Load(circuit.net, transitions, true)
        < old(Load(circuit.net, queue.queue, false))
    {
      hide Applying, HistoryOk, Load, Ready, PriorityQueue.Valid, GatesOk, Affected, Without, Drained, Effect, Draining;
      ghost var net, seen, q0 := circuit.net, circuit.output, queue.queue;
      transitions, due := [], [];
      StartDraining(net, q0, live, seen, want, nextId, stepTime, applied);
      var next := queue.Min();
      FirstIsDue(q0, next.value, stepTime);
      while next.Some? && next.value.time == stepTime
        invariant queue.Valid() && (next.None? <==> queue.queue == [])
        invariant next.Some? ==> exists k :: Least(queue.queue, k) && next.value == queue.queue[k]
        invariant due != [] || (next.Some? && next.value.time == stepTime)
        invariant HistoryOk(net, applied, stepTime) && applied == old(applied) + transitions
        invariant Draining(net, q0, queue.queue, due, live, circuit.output, want, seen, transitions, nextId, stepTime)
        decreases |queue.queue|
      {
        ghost var q := queue.queue;
        ghost var k1 :| Least(q, k1) && next.value == q[k1];
        var top := queue.Pop();
        var transition := top.value;
        ghost var k: nat :| Least(q, k) && transition == q[k] && queue.queue == Without(q, k);
        LeastTime(q, k, k1);
        DrainNext(net, q0, q, due, live, circuit.output, want, seen, transitions, nextId, stepTime, k);
        HistoryGrows(net, applied, stepTime, transition);
        due := due + [transition];
        if circuit.output[transition.gate] != transition.newOutput {
          circuit.output := circuit.output[transition.gate := transition.newOutput];
          applied := applied + [transition];
          transitions := transitions + [transition];
        }
        next := queue.Min();
      }
      DrainingSays(net, q0, queue.queue, due, live, circuit.output, want, seen, transitions, nextId, stepTime);
      if next.Some? {
        ghost var k :| Least(queue.queue, k) && next.value == queue.queue[k];
        NoneBeforeLeast(queue.queue, k);
      }
    }

    /** The second half of a step: every gate that a transition drives gets a
        transition of its own, one delay later. */
    method Propagate(transitions: seq<Transition>, stepTime: int, ghost seen: seq<int>)
      requires queue.Valid()
      requires Applying(circuit.net, queue.queue, live, circuit.output, want, seen, transitions, nextId, stepTime)
      modifies this`nextId, this`live, queue
      ensures queue.Valid() && Following(circuit.net, queue.queue, live, circuit.output, want, nextId, stepTime)
      ensures live == old(live) + Affected(circuit.net, transitions)
      ensures Load(circuit.net, queue.queue, false)
        <= old(Load(circuit.net, queue.queue, false)) + Load(circuit.net, transitions, true)
      ensures queue.queue == old(queue.queue)
                + Reactions(circuit.net, Driven(circuit.net, transitions), circuit.output, stepTime, old(nextId))
      ensures nextId == old(nextId) + |Driven(circuit.net, transitions)|
    {
      hide Applying, Following, Load, Ready, Weights, Weight, Affected, PriorityQueue.Valid, GatesOk, Entry, StateOk,
        Connected, Wired, Reactions, Driven;
      ghost var q0, id0 := queue.queue, nextId;
      NoReactions(circuit.net, circuit.output, stepTime, id0);
      StartFollowing(circuit.net, queue.queue, live, circuit.output, want, seen, transitions, nextId, stepTime);
      ghost var net, output := circuit.net, circuit.output;
      ghost var live0, rest := live, live - Affected(net, transitions);
      ghost var bound := Load(net, queue.queue, false) + Load(net, transitions, true);
      NoneAffected(net);
      assert transitions[0..] == transitions && transitions[..0] == [] && rest + {} == rest;
      for a := 0 to |transitions|
        invariant queue.Valid()
        invariant Following(net, queue.queue, rest + Affected(net, transitions[..a]), output, want, nextId, stepTime)
        invariant GatesOk(net, queue.queue) && GatesOk(net, transitions[a..])
        invariant Load(net, queue.queue, false) + Load(net, transitions[a..], true) <= bound
        invariant queue.queue == q0 + Reactions(net, Driven(net, transitions[..a]), output, stepTime, id0)
        invariant nextId == id0 + |Driven(net, transitions[..a])|
      {
        ghost var before := Driven(net, transitions[..a]);
        AffectedMore(net, transitions, a);
        LoadStep(net, transitions, a);
        ghost var g, reached := transitions[a].gate, rest + Affected(net, transitions[..a]);
        var outs := circuit.net.outs[transitions[a].gate];
        DrivenMore(net, transitions, a);
        assert before + outs[..0] == before;
        assert outs[0..] == outs && reached + Members(outs[..0]) == reached;
        for b := 0 to |outs|
          invariant queue.Valid()
          invariant Following(net, queue.queue, reached + Members(outs[..b]), output, want, nextId, stepTime)
          invariant GatesOk(net, queue.queue) && forall h :: h in outs[b..] ==> h in net.outs[g]
          invariant Load(net, queue.queue, false) + Weights(net, g, outs[b..]) + Load(net, transitions[a + 1..], true)
            <= bound
          invariant queue.queue == q0 + Reactions(net, before + outs[..b], output, stepTime, id0)
          invariant nextId == id0 + |before| + b
        {
          FollowOne(net, queue.queue, reached + Members(outs[..b]), output, want, nextId, stepTime, g, outs[b]);
          WeightsStep(net, g, b);
          assert reached + Members(outs[..b]) + {outs[b]} == reached + Members(outs[..b + 1]);
          ReactionsMore(net, before + outs[..b], outs[b], output, stepTime, id0);
          assert before + outs[..b] + [outs[b]] == before + outs[..b + 1];
          var newOutput := Logic(circuit.net, outs[b], circuit.output);
          var time := stepTime + circuit.net.types[outs[b]].delay;
          queue.Append(Transition(outs[b], newOutput, time, nextId));
          nextId := nextId + 1;
        }
        assert outs[..|outs|] == outs;
        assert reached + Members(outs) == rest + Affected(net, transitions[..a + 1]);
      }
      assert transitions[..|transitions|] == transitions;
      assert rest + Affected(net, transitions) == live0 + Affected(net, transitions);
      live := live0 + Affected(net, transitions);
    }

    /** Runs the simulation for one time: all that is due takes effect, oldest first,
        and then every gate that a change drives reacts. */
    method Step() returns (stepTime: int, ghost due: seq<Transition>, ghost rest: seq<Transition>)
      requires Valid() && queue.queue != []
      modifies this`nextId, this`now, this`applied, this`live, queue, circuit`output
      ensures Valid() && stepTime == now && old(now) <= now && GatesOk(circuit.net, queue.queue)
      ensures Load(circuit.net, queue.queue, false) < old(Load(circuit.net, queue.queue, false))
      ensures |old(applied)| <= |applied| && applied[..|old(applied)|] == old(applied)
      ensures var ts := applied[|old(applied)|..];
        && (forall i :: 0 <= i < |ts| ==> ts[i].time == stepTime)
        && live == old(live) + Affected(circuit.net, ts) && ChangedBy(old(circuit.output), circuit.output, ts)
        && (circuit.output, ts) == Effect(old(circuit.output), due)
        && queue.queue == rest + Reactions(circuit.net, Driven(circuit.net, ts), circuit.output, stepTime, old(nextId))
      ensures Drained(old(queue.queue), rest, due, stepTime) && forall t :: t in rest ==> t.time > stepTime
    {
      hide QueueOk, AllSettle, HistoryOk, StateOk, Load, Affected, ChangedBy, Ready, UniqueIds, PriorityQueue.Valid,
        LessEq, GatesOk, Goal, Wired;
      ghost var seen := circuit.output;
      var first := queue.Min();
      stepTime := first.value.time;
      ghost var k :| Least(queue.queue, k) && first.value == queue.queue[k];
      StartApplying(circuit.net, queue.queue, live, circuit.output, want, nextId, now, applied, k);
      ghost var before := applied;
      var transitions;
      transitions, due := ApplyDue(stepTime);
      rest := queue.queue;
      Propagate(transitions, stepTime, seen);
      now := stepTime;
      assert applied[|before|..] == transitions;
      QueueSays(circuit.net, queue.queue, nextId, now);
    }

    /** The first half of run: the input transitions go into the queue, sorted. */
    method Schedule(inTransitions: seq<Input>)
      requires circuit.Valid() && Ready(circuit.net) && queue.Valid() && queue.queue == [] && applied == []
      requires forall i :: 0 <= i < |inTransitions| ==> InputOk(circuit.net, inTransitions[i])
      modifies this`now, this`want, this`live, this`nextId, queue
      ensures Valid() && GatesOk(circuit.net, queue.queue)
      ensures live == RightIn(circuit.net, circuit.output)
      ensures forall g: nat :: g < |circuit.net.types| && !Connected(circuit.net, g) ==>
        IsLatest(inTransitions, g, circuit.output[g], want[g])
    {
      hide QueueOk, AllSettle, HistoryOk, ChangedBy, Ready, GatesOk, Goal, Wired, Entry, Scheduled,
        PriorityQueue.Valid, Wanted, IsLatest, InOrder;
      ghost var net, start := circuit.net, circuit.output;
      var ts := Sorted(inTransitions);
      SortedMembers(inTransitions);
      now := if ts == [] then 0 else ts[0].time;
      want := start;
      live := RightIn(net, start);
      StartRun(net, live, start, nextId, now);
      ghost var now0, live0 := now, live;
      assert ts[..0] == [];
      for i := 0 to |ts|
        invariant queue.Valid() && now == now0 && live == live0
        invariant |want| == |net.types| && QueueOk(net, queue.queue, nextId, now, now)
        invariant AllSettle(net, queue.queue, live, start, want, start)
        invariant InOrderUpTo(queue.queue, ts, i) && Wanted(net, start, want, ts[..i])
      {
        var t := ts[i];
        InTime(ts, i);
        ScheduleOne(net, queue.queue, live, start, want, nextId, now, ts, i);
        queue.Append(Transition(t.gate, t.value, t.time, nextId));
        nextId := nextId + 1;
        WantedNext(net, start, want, ts, i);
        want := want[t.gate := t.value];
      }
      assert ts[..|ts|] == ts;
      NoneChanged(net, start, now);
      QueueSays(net, queue.queue, nextId, now);
      WantedIsLatest(net, start, want, inTransitions);
    }

    /** Runs the simulation to completion, from any outputs: gates without inputs
        come to show what their latest input transition sets, and the others, if an
        input of theirs ever changed or if they were right at the start, what their
        tables say of their inputs. */
    method Run(inTransitions: seq<Input>)
      requires circuit.Valid() && Ready(circuit.net) && queue.Valid() && queue.queue == [] && applied == []
      requires forall i :: 0 <= i < |inTransitions| ==> InputOk(circuit.net, inTransitions[i])
      modifies this, queue, circuit`output
      ensures StateOk(circuit.net, circuit.output) && queue.queue == []
      ensures forall g: nat :: g < |circuit.net.types| && !Connected(circuit.net, g) ==>
        IsLatest(inTransitions, g, old(circuit.output[g]), circuit.output[g])
      ensures forall g: nat ::
        && Connected(circuit.net, g)
        && (|| g in Affected(circuit.net, applied)
            || old(circuit.output[g]) == Entry(circuit.net, g, old(circuit.output))) ==>
        circuit.output[g] == Entry(circuit.net, g, circuit.output)
      ensures ChangedBy(old(circuit.output), circuit.output, applied) && InTimeOrder(applied)
    {
      hide QueueOk, AllSettle, HistoryOk, Load, Affected, ChangedBy, Ready, GatesOk, Goal, Wired, InTimeOrder, Entry,
        PriorityQueue.Valid, IsLatest;
      ghost var net, start := circuit.net, circuit.output;
      Schedule(inTransitions);
      NoneChanged(net, start, now);
      ghost var want0, live0 := want, live;
      while |queue.queue| > 0
        invariant Valid() && GatesOk(net, queue.queue) && want == want0 && live == live0 + Affected(net, applied)
        invariant |start| == |net.types| && ChangedBy(start, circuit.output, applied)
        decreases Load(net, queue.queue, false)
      {
        ghost var before, output := applied, circuit.output;
        var _, _, _ := Step();
        MoreApplied(net, before, applied[|before|..], start, output, circuit.output);
        assert before + applied[|before|..] == applied;
      }
      EndRun(net, live, circuit.output, want, now, applied);
    }
  }

  /** The connected gates that show what their tables say of their inputs. */
  ghost function RightIn(net: Net, output: seq<int>): set<nat>
    requires StateOk(net, output)
  {
    set g: nat | g < |net.types| && Connected(net, g) && output[g] == Entry(net, g, output)
  }

  /** What add_transition records; the name is the gate's. */
  datatype Input = Input(time: int, name: string, value: int, gate: nat)

  /** Comparing strings character by character; a proper prefix is smaller. */
  predicate NameLeq(a: string, b: string) {
    a == [] || (b != [] && (a[0] < b[0] || (a[0] == b[0] && NameLeq(a[1..], b[1..]))))
  }

  lemma {:induction false} NameOrder(a: string, b: string, c: string)
    ensures NameLeq(a, b) || NameLeq(b, a)
    ensures NameLeq(a, b) && NameLeq(b, a) ==> a == b
    ensures NameLeq(a, b) && NameLeq(b, c) ==> NameLeq(a, c)
  {
    if a != [] && b != [] {
      NameOrder(a[1..], b[1..], if c == [] then [] else c[1..]);
      if a[0] == b[0] { assert a == [a[0]] + a[1..] && b == [b[0]] + b[1..]; }
    }
  }

  /** The order of sorted on the lists that add_transition makes. */
  predicate InputLeq(a: Input, b: Input) {
    a.time < b.time || (a.time == b.time && (if a.name == b.name then a.value <= b.value else NameLeq(a.name, b.name)))
  }

  lemma InputOrder(a: Input, b: Input, c: Input)
    ensures InputLeq(a, b) || InputLeq(b, a)
    ensures InputLeq(a, b) && InputLeq(b, c) ==> InputLeq(a, c)
  {
    NameOrder(a.name, b.name, c.name);
    NameOrder(b.name, c.name, a.name);
  }

  function Insert(t: Input, ts: seq<Input>): seq<Input> {
    if ts == [] || InputLeq(t, ts[0]) then [t] + ts else [ts[0]] + Insert(t, ts[1..])
  }

  /** The inputs as sorted puts them. */
  function Sorted(ts: seq<Input>): seq<Input> {
    if ts == [] then [] else Insert(ts[0], Sorted(ts[1..]))
  }

  ghost predicate InOrder(ts: seq<Input>) {
    forall i, j :: 0 <= i < j < |ts| ==> InputLeq(ts[i], ts[j])
  }

  lemma {:induction false} InsertIs(t: Input, ts: seq<Input>)
    requires InOrder(ts)
    ensures InOrder(Insert(t, ts)) && multiset(Insert(t, ts)) == multiset(ts) + multiset{t}
  {
    hide InputLeq;
    if ts != [] {
      assert ts == [ts[0]] + ts[1..];
      if InputLeq(t, ts[0]) {
        InputOrder(t, ts[0], t);
        forall j | 0 <= j < |ts| ensures InputLeq(t, ts[j]) { InputOrder(t, ts[0], ts[j]); }
      } else {
        InputOrder(t, ts[0], t);
        InsertIs(t, ts[1..]);
        InFront(ts[0], Insert(t, ts[1..]), t, ts[1..]);
      }
    }
  }

  /** x stays in front of what t is put into. */
  lemma InFront(x: Input, rest: seq<Input>, t: Input, ts: seq<Input>)
    requires InOrder(rest) && multiset(rest) == multiset(ts) + multiset{t}
    requires InputLeq(x, t) && forall i :: 0 <= i < |ts| ==> InputLeq(x, ts[i])
    ensures InOrder([x] + rest)
  {
    hide InputLeq;
    forall j | 0 <= j < |rest| ensures InputLeq(x, rest[j]) {
      assert rest[j] in multiset(rest);
      assert rest[j] == t || rest[j] in ts;
    }
  }

  lemma {:induction false} SortedIs(ts: seq<Input>)
    ensures InOrder(Sorted(ts)) && multiset(Sorted(ts)) == multiset(ts)
  {
    if ts != [] {
      assert ts == [ts[0]] + ts[1..];
      SortedIs(ts[1..]);
      InsertIs(ts[0], Sorted(ts[1..]));
    }
  }

  lemma SortedMembers(ts: seq<Input>)
    ensures InOrder(Sorted(ts)) && forall t :: t in Sorted(ts) <==> t in ts
  {
    SortedIs(ts);
    forall t ensures t in Sorted(ts) <==> t in ts {
      assert t in Sorted(ts) <==> t in multiset(Sorted(ts));
      assert t in ts <==> t in multiset(ts);
    }
  }

  lemma InTime(ts: seq<Input>, i: nat)
    requires InOrder(ts) && i < |ts|
    ensures ts[0].time <= ts[i].time && (i > 0 ==> ts[i - 1].time <= ts[i].time) && ts[i] in ts
  {
  }

  /** v is what the latest of ts at gate g sets, and before when there is none. */
  ghost predicate IsLatest(ts: seq<Input>, g: nat, before: int, v: int) {
    if forall t :: t in ts ==> t.gate != g then v == before
    else exists t :: t in ts && t.gate == g && t.value == v && forall u :: u in ts && u.gate == g ==> InputLeq(u, t)
  }

  /** want is what the gates without inputs show after the inputs ts. */
  ghost predicate Wanted(net: Net, start: seq<int>, want: seq<int>, ts: seq<Input>) {
    && |want| == |start| == |net.types|
    && forall g :: 0 <= g < |want| && !Connected(net, g) ==> want[g] == Scheduled(ts, g, start[g])
  }

  lemma WantedNext(net: Net, start: seq<int>, want: seq<int>, ts: seq<Input>, i: nat)
    requires i < |ts| && InputOk(net, ts[i]) && Wanted(net, start, want, ts[..i])
    ensures Wanted(net, start, want[ts[i].gate := ts[i].value], ts[..i + 1])
  {
    hide Scheduled;
    forall g | 0 <= g < |want| && !Connected(net, g)
      ensures want[ts[i].gate := ts[i].value][g] == Scheduled(ts[..i + 1], g, start[g])
    {
      ScheduledNext(ts, i, g, start[g]);
    }
  }

  lemma {:induction false} ScheduledIsLatest(ts: seq<Input>, g: nat, before: int)
    requires InOrder(ts)
    ensures IsLatest(ts, g, before, Scheduled(ts, g, before))
  {
    if ts != [] {
      var last, rest := ts[|ts| - 1], ts[..|ts| - 1];
      assert ts == rest + [last];
      if last.gate == g {
        InputOrder(last, last, last);
        assert last in ts;
      } else {
        ScheduledIsLatest(rest, g, before);
      }
    }
  }

  lemma WantedIsLatest(net: Net, start: seq<int>, want: seq<int>, ts: seq<Input>)
    requires Wanted(net, start, want, Sorted(ts))
    ensures forall g: nat :: g < |net.types| && !Connected(net, g) ==> IsLatest(ts, g, start[g], want[g])
  {
    hide InOrder;
    SortedMembers(ts);
    forall g: nat | g < |net.types| && !Connected(net, g) ensures IsLatest(ts, g, start[g], want[g]) {
      ScheduledIsLatest(Sorted(ts), g, start[g]);
    }
  }

  /** Inputs come in at gates that no other gate drives. */
  ghost predicate InputOk(net: Net, t: Input) {
    t.gate < |net.types| && !Connected(net, t.gate) && IsBit(t.value)
  }

  /** The value scheduled last for gate g. */
  ghost function Scheduled(ts: seq<Input>, g: nat, before: int): int {
    if ts == [] then before
    else if ts[|ts| - 1].gate == g then ts[|ts| - 1].value
    else Scheduled(ts[..|ts| - 1], g, before)
  }

  ghost predicate InOrderUpTo(q: seq<Transition>, ts: seq<Input>, i: nat) {
    forall t :: t in q ==> i > 0 && i <= |ts| && t.time <= ts[i - 1].time
  }

  lemma StartRun(net: Net, live: set<nat>, start: seq<int>, nextId: nat, now: int)
    requires StateOk(net, start)
    requires forall g :: g in live ==> g < |net.types| && Connected(net, g) && start[g] == Entry(net, g, start)
    ensures QueueOk(net, [], nextId, now, now) && AllSettle(net, [], live, start, start, start)
    ensures Wanted(net, start, start, [])
  {
  }

  lemma ScheduleOne(net: Net, q: seq<Transition>, live: set<nat>, start: seq<int>, want: seq<int>, nextId: nat,
      now: int, ts: seq<Input>, i: nat)
    requires StateOk(net, start) && |want| == |net.types| && QueueOk(net, q, nextId, now, now)
    requires AllSettle(net, q, live, start, want, start)
    requires i < |ts| && InputOk(net, ts[i]) && InOrderUpTo(q, ts, i) && now <= ts[i].time
    requires i > 0 ==> ts[i - 1].time <= ts[i].time
    ensures forall k :: 0 <= k < |q| ==> q[k].id != nextId
    ensures var q', want' := q + [Transition(ts[i].gate, ts[i].value, ts[i].time, nextId)],
      want[ts[i].gate := ts[i].value];
      QueueOk(net, q', nextId + 1, now, now) && AllSettle(net, q', live, start, want', start)
        && InOrderUpTo(q', ts, i + 1)
  {
    var x := Transition(ts[i].gate, ts[i].value, ts[i].time, nextId);
    var want' := want[ts[i].gate := ts[i].value];
    forall k | 0 <= k < |q| ensures q[k].id < nextId { assert q[k] in q; }
    forall g | 0 <= g < |net.types| && (g in live || !Connected(net, g))
      ensures Settles(q + [x], g, start[g], Goal(net, want', g, start))
    {
      if g == x.gate {
        AppendSettles(q, x, start[g]);
      } else {
        AppendKeepsSettles(q, x, g, start[g], Goal(net, want', g, start));
      }
    }
  }

  lemma ScheduledNext(ts: seq<Input>, i: nat, g: nat, before: int)
    requires i < |ts|
    ensures Scheduled(ts[..i + 1], g, before) == if g == ts[i].gate then ts[i].value else Scheduled(ts[..i], g, before)
  {
    var s := ts[..i + 1];
    assert s[..|s| - 1] == ts[..i];
  }

  lemma StartApplying(net: Net, q: seq<Transition>, live: set<nat>, output: seq<int>, want: seq<int>, nextId: nat,
      now: int,
                      applied: seq<Transition>, k: nat)
    requires StateOk(net, output) && |want| == |net.types| && QueueOk(net, q, nextId, now, now)
    requires AllSettle(net, q, live, output, want, output) && HistoryOk(net, applied, now) && Least(q, k)
    ensures q[k] in q && now <= q[k].time && HistoryOk(net, applied, q[k].time)
    ensures Applying(net, q, live, output, want, output, [], nextId, q[k].time)
  {
  }

  lemma QueueSays(net: Net, q: seq<Transition>, nextId: nat, now: int)
    requires QueueOk(net, q, nextId, now, now)
    ensures GatesOk(net, q)
  {
  }

  lemma NoneChanged(net: Net, start: seq<int>, now: int)
    ensures HistoryOk(net, [], now) && ChangedBy(start, start, []) && Affected(net, []) == {}
  {
  }

  lemma MoreApplied(net: Net, before: seq<Transition>, ts: seq<Transition>, start: seq<int>, a: seq<int>, b: seq<int>)
    requires ChangedBy(start, a, before) && ChangedBy(a, b, ts)
    ensures Affected(net, before + ts) == Affected(net, before) + Affected(net, ts)
    ensures ChangedBy(start, b, before + ts)
  {
    var all := before + ts;
    forall i | 0 <= i < |before| ensures all[i] == before[i] {}
    forall i | 0 <= i < |ts| ensures all[|before| + i] == ts[i] {}
    forall g ensures g in Affected(net, all) <==> g in Affected(net, before) || g in Affected(net, ts) {
      if g in Affected(net, before) {
        var i :| 0 <= i < |before| && before[i].gate < |net.outs| && g in net.outs[before[i].gate];
        assert all[i].gate < |net.outs|;
      }
      if g in Affected(net, ts) {
        var i :| 0 <= i < |ts| && ts[i].gate < |net.outs| && g in net.outs[ts[i].gate];
        assert all[|before| + i].gate < |net.outs|;
      }
    }
    forall g | 0 <= g < |start| && start[g] != b[g] ensures exists i :: 0 <= i < |all| && all[i].gate == g {
      if a[g] != b[g] {
        var i :| 0 <= i < |ts| && ts[i].gate == g;
        assert all[|before| + i].gate == g;
      } else {
        var i :| 0 <= i < |before| && before[i].gate == g;
        assert all[i].gate == g;
      }
    }
  }

  lemma EndRun(net: Net, live: set<nat>, output: seq<int>, want: seq<int>, now: int, applied: seq<Transition>)
    requires StateOk(net, output) && |want| == |net.types| && AllSettle(net, [], live, output, want, output)
    requires HistoryOk(net, applied, now)
    ensures InTimeOrder(applied)
    ensures forall g :: 0 <= g < |net.types| && !Connected(net, g) ==> output[g] == want[g]
    ensures forall g: nat :: Connected(net, g) && g in live ==> output[g] == Entry(net, g, output)
  {
  }

  /** When every connected gate shows what its table says, the gates without
      inputs determine all outputs. */
  lemma {:induction false} InputsDetermineOutputs(net: Net, a: seq<int>, b: seq<int>, g: nat)
    requires StateOk(net, a) && StateOk(net, b) && g < |net.types|
    requires forall h: nat :: Connected(net, h) ==> a[h] == Entry(net, h, a) && b[h] == Entry(net, h, b)
    requires forall h: nat :: h < |net.types| && !Connected(net, h) ==> a[h] == b[h]
    ensures a[g] == b[g]
    decreases g
  {
    if Connected(net, g) {
      forall i | 0 <= i < |net.ins[g]| ensures a[net.ins[g][i]] == b[net.ins[g][i]] {
        assert net.ins[g][i] in net.ins[g];
        InputsDetermineOutputs(net, a, b, net.ins[g][i]);
      }
      EntryDependsOnInputs(net, g, a, b);
    }
  }

  lemma NoneAffected(net: Net)
    ensures Affected(net, []) == {}
  {
  }

  lemma ApplyingSays(net: Net, q: seq<Transition>, live: set<nat>, output: seq<int>, want: seq<int>, seen: seq<int>,
                     ts: seq<Transition>, nextId: nat, now: int)
    requires Applying(net, q, live, output, want, seen, ts, nextId, now)
    ensures Ready(net) && GatesOk(net, q) && GatesOk(net, ts) && forall t :: t in q ==> t.time >= now
  {
  }

  lemma NoneBeforeLeast(q: seq<Transition>, k: int)
    requires Least(q, k)
    ensures q[k] in q && forall t :: t in q ==> t.time >= q[k].time
  {
  }

  lemma LoadNone(net: Net)
    requires Ready(net)
    ensures GatesOk(net, []) && Load(net, [], true) == 0
  {
  }
}
