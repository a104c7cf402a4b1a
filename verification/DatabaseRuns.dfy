/** Linearizability: every interleaving of queries, insertions and removals acts
    like the same operations done one at a time on a map from names to values. */
module DatabaseRuns {
  import opened Database
  import opened DatabaseTree
  import opened DatabaseSafety
  import opened DatabaseSteps
  import opened DatabaseReshape

  // ---------------------------------------------------------------- the sequential specification

  type Dict = map<Name, Value>

  function Apply(m: Dict, op: Op): (Dict, Result) {
    match op
    case Query(k) => (m, if k in m then Found(m[k]) else Missing)
    case Add(k, v) => if k in m then (m, Flag(false)) else (m[k := v], Flag(true))
    case Remove(k) => if k in m then (m - {k}, Flag(true)) else (m, Flag(false))
  }

  datatype Event = Event(t: Tid, op: Op, res: Result)

  /** The map after the events of a log, starting from the empty map. */
  function Replay(log: seq<Event>): Dict {
    if log == [] then map[] else Apply(Replay(log[..|log| - 1]), log[|log| - 1].op).0
  }

  /** Every result in the log is the one the sequential map would have given. */
  ghost predicate Legal(log: seq<Event>) {
    forall i {:trigger log[i]} :: 0 <= i < |log| ==> log[i].res == Apply(Replay(log[..i]), log[i].op).1
  }

  // ---------------------------------------------------------------- linearization points

  /** The event that thread t's next step commits, if any. */
  function Commit(s: State, t: Tid): Option<Event>
    requires t in s.threads
  {
    var th := s.threads[t];
    match th.pc
    case Look(cur) =>
      if cur in s.cells && Child(s.cells[cur], th.op.name) == NULL && !th.op.Add?
      then Some(Event(t, th.op, if th.op.Query? then Missing else Flag(false))) else None
    case Cmp(cur, nx) =>
      if nx in s.cells && s.cells[nx].name == th.op.name && th.op.Add? then Some(Event(t, th.op, Flag(false))) else None
    case QRead(nx) => if nx in s.cells then Some(Event(t, th.op, Found(s.cells[nx].value))) else None
    case AMiss(_) => Some(Event(t, th.op, Flag(true)))
    case RHit(par, d) =>
      if d in s.cells && (s.cells[d].right == NULL || s.cells[d].left == NULL) then Some(Event(t, th.op, Flag(true)))
        else None
    case RPtr(_, _, _, _) => Some(Event(t, th.op, Flag(true)))
    case _ => None
  }

  /** The result a thread is bound to return once its event is committed. */
  function Pledged(pc: Pc): Option<Result> {
    match pc
    case QMiss(_) => Some(Missing)
    case QDrop(_, r) => Some(r)
    case AHit(_, _) => Some(Flag(false))
    case AHit2(_) => Some(Flag(false))
    case ADone(_) => Some(Flag(true))
    case RMiss(_) => Some(Flag(false))
    case RUnlP(_, _) => Some(Flag(true))
    case RUnlD(_) => Some(Flag(true))
    case RFree(_) => Some(Flag(true))
    case R2P(_, _, _) => Some(Flag(true))
    case R2D(_, _) => Some(Flag(true))
    case Done(r) => Some(r)
    case _ => None
  }

  // ---------------------------------------------------------------- each commit is what the map says

  lemma InsertRepresents(cells: map<Ptr, Cell>, g: Shape, m: Dict, cur: Ptr, k: Name, v: Value, f: Ptr)
    requires Tree(cells, g) && At(g, cur, k) && ChildOf(cells, g, cur, k) == NULL && f !in cells && f != NULL
    requires Represents(g, m)
    ensures k !in m && Represents(Inserted(g, cur, k, v, f), m[k := v])
  {
    EmptySlotMeansAbsent(cells, g, cur, k, m);
    var g', m' := Inserted(g, cur, k, v, f), m[k := v];
    forall q | q in m'
      ensures exists x :: x in g' && x != HEAD && g'[x].name == q
    {
      if q == k {
        assert f in g' && g'[f].name == k;
      } else {
        var x :| x in g && x != HEAD && g[x].name == q;
        assert x in g' && g'[x].name == q;
      }
    }
  }

  lemma BypassRepresents(cells: map<Ptr, Cell>, g: Shape, m: Dict, par: Ptr, d: Ptr, k: Name)
    requires Tree(cells, g) && Pinned(cells, g, par, d, k) && d != HEAD && Represents(g, m)
    ensures k in m && Represents(Bypassed(cells, g, par, d), m - {k})
  {
    var g' := Bypassed(cells, g, par, d);
    forall x | x in g' && x != HEAD ensures g'[x].name != k { NamesDiffer(cells, g, x, d); }
    forall q | q in m - {k}
      ensures exists x :: x in g' && x != HEAD && g'[x].name == q
    {
      var x :| x in g && x != HEAD && g[x].name == q;
      assert x in g' && g'[x].name == q;
    }
  }

  lemma SpliceRepresents(cells: map<Ptr, Cell>, g: Shape, m: Dict, d: Ptr, p: Ptr, n: Ptr)
    requires Tree(cells, g) && d in g && d != HEAD && Spine(cells, g, d, p, n) && d != n && Represents(g, m)
    ensures g[d].name in m && Represents(Spliced(g, d, p, n), m - {g[d].name})
  {
    var g' := Spliced(g, d, p, n);
    var m' := m - {g[d].name};
    NamesDiffer(cells, g, d, n);
    forall x | x in g' && x != HEAD
      ensures g'[x].name in m' && m'[g'[x].name] == g'[x].value
    {
      if x != d { NamesDiffer(cells, g, x, d); }
    }
    forall q | q in m'
      ensures exists x :: x in g' && x != HEAD && g'[x].name == q
    {
      var x :| x in g && x != HEAD && g[x].name == q;
      var y := if x == n then d else x;
      assert y in g' && g'[y].name == q;
    }
  }

  /** The step of t either leaves the map as it is, or does to it what t's
      operation does, with the result that the operation gives there. */
  lemma CommitIsAtomic(s: State, g: Shape, t: Tid, c: Choice, m: Dict)
    requires Inv(s, g) && t in s.threads && Next(s, t, c).Moved? && Represents(g, m)
    ensures Commit(s, t) == None ==> Represents(NextShape(s, g, t, c), m)
    ensures var e := Commit(s, t);
            e.Some? ==> && e.value.t == t && e.value.op == s.threads[t].op
                        && e.value.res == Apply(m, e.value.op).1
                        && Represents(NextShape(s, g, t, c), Apply(m, e.value.op).0)
  {
    var pc := s.threads[t].pc;
    if pc.Look? || pc.Cmp? || pc.QRead? { SearchCommits(s, g, t, c, m); }
    else if pc.AMiss? || pc.RHit? || pc.RPtr? { ReshapeCommits(s, g, t, c, m); }
    else { hide Inv, Next, Represents, Apply; }
  }

  ghost predicate ActsOnMap(s: State, g: Shape, t: Tid, c: Choice, m: Dict)
    requires Inv(s, g) && t in s.threads
  {
    var e, g' := Commit(s, t), NextShape(s, g, t, c);
    if e == None then Represents(g', m)
    else
      && e.value.t == t && e.value.op == s.threads[t].op && e.value.res == Apply(m, e.value.op).1
      && Represents(g', Apply(m, e.value.op).0)
  }

  lemma SearchCommits(s: State, g: Shape, t: Tid, c: Choice, m: Dict)
    requires Inv(s, g) && t in s.threads && Next(s, t, c).Moved? && Represents(g, m)
    requires s.threads[t].pc.Look? || s.threads[t].pc.Cmp? || s.threads[t].pc.QRead?
    ensures ActsOnMap(s, g, t, c, m)
  {
    var th := s.threads[t];
    var k := th.op.name;
    assert ThreadOk(s.cells, g, th);
    match th.pc
    case Look(cur) =>
      ChildIsTrue(s, g, t, cur, k);
      if ChildOf(s.cells, g, cur, k) == NULL { EmptySlotMeansAbsent(s.cells, g, cur, k, m); }
    case Cmp(cur, nx) =>
      assert NodeOk(s.cells, g, cur);
      ReadsTruth(s, g, t, nx);
    case QRead(nx) => ReadsTruth(s, g, t, nx);
  }

  lemma ReshapeCommits(s: State, g: Shape, t: Tid, c: Choice, m: Dict)
    requires Inv(s, g) && t in s.threads && Next(s, t, c).Moved? && Represents(g, m)
    requires s.threads[t].pc.AMiss? || s.threads[t].pc.RHit? || s.threads[t].pc.RPtr?
    ensures ActsOnMap(s, g, t, c, m)
  {
    var th := s.threads[t];
    var k := th.op.name;
    assert ThreadOk(s.cells, g, th);
    match th.pc
    case AMiss(cur) => InsertRepresents(s.cells, g, m, cur, k, th.op.value, c.node);
    case RHit(par, d) =>
      assert NodeOk(s.cells, g, par);
      if Commit(s, t).Some? { BypassRepresents(s.cells, g, m, par, d, k); }
    case RPtr(par, d, p, n) =>
      SpineIsApart(s.cells, g, par, d, k, n);
      SpliceRepresents(s.cells, g, m, d, p, n);
  }

  /** What a step of t does to its operation's pledge. */
  ghost predicate Pledges(s: State, s': State, t: Tid)
    requires t in s.threads
  {
    && t in s'.threads
    && var th, th' := s.threads[t], s'.threads[t];
       && th'.op == th.op
       && (Commit(s, t).Some? ==> Pledged(th.pc) == None && Pledged(th'.pc) == Some(Commit(s, t).value.res))
       && (Commit(s, t) == None && !th.pc.Done? ==> Pledged(th'.pc) == Pledged(th.pc))
       && (th.pc.Done? ==> th'.pc == Idle)
  }

  lemma PledgeFollowsCommit(s: State, t: Tid, c: Choice)
    requires t in s.threads && Next(s, t, c).Moved? && s.threads[t].pc != Idle
    ensures Pledges(s, Next(s, t, c).s, t)
  {
    if Removing(s.threads[t].pc) { RemoverPledges(s, t, c); } else { SearcherPledges(s, t, c); }
  }

  lemma RemoverPledges(s: State, t: Tid, c: Choice)
    requires t in s.threads && Next(s, t, c).Moved? && Removing(s.threads[t].pc)
    ensures Pledges(s, Next(s, t, c).s, t)
  {
    hide Awaited, CanLock, Locked, Unlocked, HeldBy, WriteMode;
  }

  lemma SearcherPledges(s: State, t: Tid, c: Choice)
    requires t in s.threads && Next(s, t, c).Moved? && s.threads[t].pc != Idle && !Removing(s.threads[t].pc)
    ensures Pledges(s, Next(s, t, c).s, t)
  {
    hide Awaited, CanLock, Locked, Unlocked, HeldBy, WriteMode, Bypass;
  }

  lemma OthersStay(s: State, t: Tid, c: Choice, u: Tid)
    requires t in s.threads && u in s.threads && u != t && Next(s, t, c).Moved?
    ensures u in Next(s, t, c).s.threads && Next(s, t, c).s.threads[u] == s.threads[u]
    ensures Next(s, t, c).s.threads.Keys == s.threads.Keys
  {
    OnlyItself(s, t, c);
    hide Next;
  }

  lemma OnlyItself(s: State, t: Tid, c: Choice)
    requires t in s.threads && Next(s, t, c).Moved?
    ensures var s' := Next(s, t, c).s; t in s'.threads && s'.threads == s.threads[t := s'.threads[t]]
  {
    if Removing(s.threads[t].pc) { OnlyRemover(s, t, c); } else { OnlySearcher(s, t, c); }
    hide Next;
  }

  predicate Removing(pc: Pc) {
    || pc.RLockN? || pc.RWalk? || pc.RLockL? || pc.RUnlN? || pc.RName? || pc.RVal? || pc.RPtr? || pc.R2P? || pc.R2D?
    || pc.RHit? || pc.RUnlP? || pc.RUnlD? || pc.RFree?
  }

  lemma OnlyRemover(s: State, t: Tid, c: Choice)
    requires t in s.threads && Next(s, t, c).Moved? && Removing(s.threads[t].pc)
    ensures var s' := Next(s, t, c).s; t in s'.threads && s'.threads == s.threads[t := s'.threads[t]]
  {
    hide Awaited, Child, SetChild, CanLock, Locked, Unlocked, HeldBy, WriteMode, Miss, Hit;
  }

  lemma OnlySearcher(s: State, t: Tid, c: Choice)
    requires t in s.threads && Next(s, t, c).Moved? && !Removing(s.threads[t].pc)
    ensures var s' := Next(s, t, c).s; t in s'.threads && s'.threads == s.threads[t := s'.threads[t]]
  {
    hide Awaited, Child, SetChild, CanLock, Locked, Unlocked, HeldBy, WriteMode, Miss, Hit, Bypass;
  }

  // ---------------------------------------------------------------- runs

  datatype Action = Action(t: Tid, c: Choice)

  /** A run: a state before and after each action. */
  ghost predicate IsRun(states: seq<State>, acts: seq<Action>) {
    && |states| == |acts| + 1 && Init(states[0])
    && forall i :: 0 <= i < |acts| ==> Follows(states[i], acts[i], states[i + 1])
  }

  ghost predicate Follows(s: State, a: Action, s': State) {
    a.t in s.threads && Next(s, a.t, a.c) == Moved(s')
  }

  /** Proof data carried along a run: the shape, the log of commits, and how
      long the log was when each thread began its operation. */
  datatype Aux = Aux(g: Shape, log: seq<Event>, begun: map<Tid, nat>)

  /** Between its call and its return an operation commits at most once, and
      exactly once before it returns, with the result it returns. */
  ghost predicate Accounted(log: seq<Event>, from: nat, t: Tid, th: Thread) {
    && from <= |log|
    && match Pledged(th.pc)
       case None => forall i :: from <= i < |log| ==> log[i].t != t
       case Some(r) => Once(log, from, |log|, Event(t, th.op, r))
  }

  /** e is the only event of its thread in log[from..to]. */
  ghost predicate Once(log: seq<Event>, from: nat, to: nat, e: Event) {
    && from <= to <= |log|
    && exists i :: from <= i < to && log[i] == e && forall j :: from <= j < to && j != i ==> log[j].t != e.t
  }

  ghost predicate AuxOk(s: State, a: Aux) {
    && Inv(s, a.g) && Represents(a.g, Replay(a.log)) && Legal(a.log)
    && (forall t :: t in s.threads && s.threads[t].pc != Idle ==> t in a.begun)
    && (forall t {:trigger Accounted(a.log, a.begun[t], t, s.threads[t])} ::
          t in s.threads && s.threads[t].pc != Idle ==> Accounted(a.log, a.begun[t], t, s.threads[t]))
  }

  ghost function NextAux(s: State, a: Aux, act: Action): Aux
    requires AuxOk(s, a) && act.t in s.threads
  {
    var e := Commit(s, act.t);
    Aux(NextShape(s, a.g, act.t, act.c),
        if e.Some? then a.log + [e.value] else a.log,
        if s.threads[act.t].pc.Idle? then a.begun[act.t := |a.log|] else a.begun)
  }

  lemma AppendKeepsLegal(log: seq<Event>, e: Event)
    requires Legal(log) && e.res == Apply(Replay(log), e.op).1
    ensures Legal(log + [e]) && Replay(log + [e]) == Apply(Replay(log), e.op).0
  {
    var log' := log + [e];
    assert log'[..|log|] == log;
    forall i | 0 <= i < |log'|
      ensures log'[i].res == Apply(Replay(log'[..i]), log'[i].op).1
    {
      if i < |log| { assert log'[..i] == log[..i]; }
    }
  }

  lemma OtherEventKeepsAccounts(log: seq<Event>, from: nat, t: Tid, th: Thread, e: Event)
    requires Accounted(log, from, t, th) && e.t != t
    ensures Accounted(log + [e], from, t, th)
  {
    var log' := log + [e];
    if Pledged(th.pc).Some? {
      var ev := Event(t, th.op, Pledged(th.pc).value);
      var i :| from <= i < |log| && log[i] == ev && forall j :: from <= j < |log| && j != i ==> log[j].t != ev.t;
      assert log'[i] == ev && forall j :: from <= j < |log'| && j != i ==> log'[j].t != ev.t;
    }
  }

  lemma CommitIsAccounted(log: seq<Event>, from: nat, t: Tid, th: Thread, th': Thread, r: Result)
    requires Accounted(log, from, t, th) && Pledged(th.pc) == None && Pledged(th'.pc) == Some(r) && th'.op == th.op
    ensures Accounted(log + [Event(t, th.op, r)], from, t, th')
  {
    var log' := log + [Event(t, th.op, r)];
    assert log'[|log|] == Event(t, th.op, r);
    assert forall j :: from <= j < |log'| && j != |log| ==> log'[j].t != t;
  }

  lemma StepKeepsAux(s: State, a: Aux, act: Action, s': State)
    requires AuxOk(s, a) && Follows(s, act, s')
    ensures AuxOk(s', NextAux(s, a, act)) && Grows(s, act, a, NextAux(s, a, act))
  {
    var t, e, a' := act.t, Commit(s, act.t), NextAux(s, a, act);
    StepKeepsInv(s, a.g, t, act.c);
    CommitIsAtomic(s, a.g, t, act.c, Replay(a.log));
    if e.Some? { AppendKeepsLegal(a.log, e.value); }
    forall u | u in s'.threads && s'.threads[u].pc != Idle
      ensures u in a'.begun && Accounted(a'.log, a'.begun[u], u, s'.threads[u])
    {
      AccountStays(s, a, act, s', u);
    }
  }

  /** The account of thread u after a step. */
  lemma AccountStays(s: State, a: Aux, act: Action, s': State, u: Tid)
    requires AuxOk(s, a) && Follows(s, act, s') && u in s'.threads && s'.threads[u].pc != Idle
    ensures var a' := NextAux(s, a, act); u in a'.begun && Accounted(a'.log, a'.begun[u], u, s'.threads[u])
  {
    if u != act.t { OtherAccountStays(s, a, act, s', u); } else { OwnAccountStays(s, a, act, s'); }
  }

  lemma OtherAccountStays(s: State, a: Aux, act: Action, s': State, u: Tid)
    requires AuxOk(s, a) && Follows(s, act, s') && u in s'.threads && s'.threads[u].pc != Idle && u != act.t
    ensures var a' := NextAux(s, a, act); u in a'.begun && Accounted(a'.log, a'.begun[u], u, s'.threads[u])
  {
    var e := Commit(s, act.t);
    assert u in s.threads by { OnlyItself(s, act.t, act.c); hide Next; }
    OthersStay(s, act.t, act.c, u);
    hide Next, Inv, Represents, Legal;
    assert Accounted(a.log, a.begun[u], u, s.threads[u]);
    if e.Some? {
      assert e.value.t != u by { EventIsOwn(s, act.t); }
      OtherEventKeepsAccounts(a.log, a.begun[u], u, s.threads[u], e.value);
    }
  }

  lemma EventIsOwn(s: State, t: Tid)
    requires t in s.threads && Commit(s, t).Some?
    ensures Commit(s, t).value.t == t && Commit(s, t).value.op == s.threads[t].op
  {
  }

  lemma OwnAccountStays(s: State, a: Aux, act: Action, s': State)
    requires AuxOk(s, a) && Follows(s, act, s') && act.t in s'.threads && s'.threads[act.t].pc != Idle
    ensures var t, a' := act.t, NextAux(s, a, act); t in a'.begun && Accounted(a'.log, a'.begun[t], t, s'.threads[t])
  {
    var t, e := act.t, Commit(s, act.t);
    if s.threads[t].pc != Idle {
      PledgeFollowsCommit(s, t, act.c);
      if e.Some? { EventIsOwn(s, t); }
      hide Next, Inv, Represents, Legal, Commit;
      assert Accounted(a.log, a.begun[t], t, s.threads[t]);
      if e.Some? { CommitIsAccounted(a.log, a.begun[t], t, s.threads[t], s'.threads[t], e.value.res); }
    } else {
      hide Inv, Represents, Legal;
    }
  }

  lemma InitIsOk(s: State)
    requires Init(s)
    ensures AuxOk(s, Aux(map[HEAD := HEAD_SLOT], [], map[]))
  {
    var g := map[HEAD := HEAD_SLOT];
    assert NodeOk(s.cells, g, HEAD);
    assert LockOk(s, HEAD);
    forall t | t in s.threads
      ensures ThreadOk(s.cells, g, s.threads[t])
      ensures ClearOk(s, g, t)
    {
    }
  }

  /** The proof data along a run. */
  ghost predicate Annotates(states: seq<State>, acts: seq<Action>, auxs: seq<Aux>) {
    && |auxs| == |states| == |acts| + 1
    && auxs[0] == Aux(map[HEAD := HEAD_SLOT], [], map[])
    && (forall i {:trigger AuxOk(states[i], auxs[i])} :: 0 <= i < |states| ==> AuxOk(states[i], auxs[i]))
    && (forall i :: 0 <= i < |acts| ==> Grows(states[i], acts[i], auxs[i], auxs[i + 1]))
  }

  /** The log is extended by what the step commits, and an operation that begins is marked. */
  ghost predicate Grows(s: State, act: Action, a: Aux, a': Aux) {
    && act.t in s.threads
    && a'.log == (if Commit(s, act.t).Some? then a.log + [Commit(s, act.t).value] else a.log)
    && a'.begun == (if s.threads[act.t].pc.Idle? then a.begun[act.t := |a.log|] else a.begun)
  }

  lemma {:induction false} Annotate(states: seq<State>, acts: seq<Action>) returns (auxs: seq<Aux>)
    requires IsRun(states, acts)
    ensures Annotates(states, acts, auxs)
  {
    hide AuxOk, Follows, Grows;
    InitIsOk(states[0]);
    auxs := [Aux(map[HEAD := HEAD_SLOT], [], map[])];
    for n := 0 to |acts|
      invariant |auxs| == n + 1 && auxs[0] == Aux(map[HEAD := HEAD_SLOT], [], map[])
      invariant forall i {:trigger AuxOk(states[i], auxs[i])} :: 0 <= i <= n ==> AuxOk(states[i], auxs[i])
      invariant forall i :: 0 <= i < n ==> Grows(states[i], acts[i], auxs[i], auxs[i + 1])
    {
      assert AuxOk(states[n], auxs[n]) && Follows(states[n], acts[n], states[n + 1]);
      StepKeepsAux(states[n], auxs[n], acts[n], states[n + 1]);
      var had := auxs;
      auxs := auxs + [NextAux(states[n], auxs[n], acts[n])];
      assert forall i :: 0 <= i <= n ==> auxs[i] == had[i];
      assert Grows(states[n], acts[n], auxs[n], auxs[n + 1]);
      forall i | 0 <= i <= n + 1 ensures AuxOk(states[i], auxs[i]) { if i <= n { assert AuxOk(states[i], had[i]); } }
    }
  }

  // ---------------------------------------------------------------- linearizability

  /** Thread t's operation is called by action b and returns by action e. */
  ghost predicate IsCall(states: seq<State>, acts: seq<Action>, t: Tid, b: nat, e: nat) {
    && b < e < |acts| && |states| == |acts| + 1
    && acts[b].t == t && t in states[b].threads && states[b].threads[t].pc == Idle
    && acts[e].t == t && t in states[e].threads && states[e].threads[t].pc.Done?
    && (forall i :: b < i <= e ==> t in states[i].threads && states[i].threads[t].pc != Idle)
  }

  lemma {:induction false} LogOnlyGrows(states: seq<State>, acts: seq<Action>, auxs: seq<Aux>, i: nat, j: nat)
    requires Annotates(states, acts, auxs) && i <= j < |auxs|
    ensures auxs[i].log <= auxs[j].log
    decreases j - i
  {
    if i < j {
      LogOnlyGrows(states, acts, auxs, i, j - 1);
      assert Grows(states[j - 1], acts[j - 1], auxs[j - 1], auxs[j]);
    }
  }

  lemma CallGoesOn(s: State, act: Action, s': State, t: Tid)
    requires Follows(s, act, s') && t in s.threads && (s.threads[t].pc != Idle || act.t == t)
    ensures t in s'.threads && s'.threads[t].op == if s.threads[t].pc == Idle then act.c.op else s.threads[t].op
  {
    if act.t != t { OthersStay(s, act.t, act.c, t); }
    else if s.threads[t].pc != Idle { PledgeFollowsCommit(s, t, act.c); }
  }

  /** While an operation runs, its command and its starting mark stay. */
  lemma {:induction false} CallIsStable(states: seq<State>, acts: seq<Action>, auxs: seq<Aux>, t: Tid, b: nat, i: nat)
    requires b < i < |states| && |auxs| == |states| == |acts| + 1
    requires forall q :: 0 <= q < |acts| ==> Follows(states[q], acts[q], states[q + 1])
    requires forall q :: 0 <= q < |acts| ==> Grows(states[q], acts[q], auxs[q], auxs[q + 1])
    requires acts[b].t == t && t in states[b].threads && states[b].threads[t].pc == Idle
    requires forall q :: b < q <= i ==> t in states[q].threads && states[q].threads[t].pc != Idle
    ensures t in auxs[i].begun && auxs[i].begun[t] == |auxs[b].log|
    ensures t in states[i].threads && states[i].threads[t].op == acts[b].c.op
    decreases i - b
  {
    hide Follows;
    assert Follows(states[i - 1], acts[i - 1], states[i]) && Grows(states[i - 1], acts[i - 1], auxs[i - 1], auxs[i]);
    CallGoesOn(states[i - 1], acts[i - 1], states[i], t);
    if i > b + 1 { CallIsStable(states, acts, auxs, t, b, i - 1); }
  }

  lemma OnceInPrefix(l: seq<Event>, log: seq<Event>, from: nat, e: Event)
    requires Once(l, from, |l|, e) && l <= log
    ensures Once(log, from, |l|, e)
  {
    var i :| from <= i < |l| && l[i] == e && forall j :: from <= j < |l| && j != i ==> l[j].t != e.t;
    assert forall j :: 0 <= j < |l| ==> log[j] == l[j];
    assert log[i] == e && forall j :: from <= j < |l| && j != i ==> log[j].t != e.t;
  }

  lemma DoneIsAccounted(s: State, a: Aux, t: Tid)
    requires AuxOk(s, a) && t in s.threads && s.threads[t].pc.Done? && t in a.begun
    ensures Once(a.log, a.begun[t], |a.log|, Event(t, s.threads[t].op, s.threads[t].pc.res))
  {
    assert Accounted(a.log, a.begun[t], t, s.threads[t]);
  }

  lemma CallCommitsOnce(states: seq<State>, acts: seq<Action>, auxs: seq<Aux>, t: Tid, b: nat, e: nat, log: seq<Event>)
    requires IsRun(states, acts) && Annotates(states, acts, auxs) && IsCall(states, acts, t, b, e)
    requires auxs[e].log <= log
    ensures Once(log, |auxs[b].log|, |auxs[e].log|, Event(t, acts[b].c.op, states[e].threads[t].pc.res))
  {
    CallIsStable(states, acts, auxs, t, b, e);
    assert AuxOk(states[e], auxs[e]);
    DoneIsAccounted(states[e], auxs[e], t);
    OnceInPrefix(auxs[e].log, log, |auxs[b].log|, Event(t, acts[b].c.op, states[e].threads[t].pc.res));
  }

  /** The tree of state s, in good order, holds exactly the map m. */
  ghost predicate StandsFor(s: State, m: Dict) {
    exists g :: Inv(s, g) && Represents(g, m)
  }

  /** The action adds to the log nothing, or one event of an operation under way in its thread. */
  ghost predicate Adds(s: State, act: Action, log: seq<Event>, from: nat, to: nat) {
    && act.t in s.threads && from <= to <= |log|
    && (to == from
        || (to == from + 1 && s.threads[act.t].pc != Idle && log[from].t == act.t
          && log[from].op == s.threads[act.t].op))
  }

  lemma GrowsByOwnEvent(s: State, act: Action, a: Aux, a': Aux, log: seq<Event>)
    requires Grows(s, act, a, a') && a'.log <= log
    ensures Adds(s, act, log, |a.log|, |a'.log|)
  {
    if Commit(s, act.t).Some? { assert log[|a.log|] == a'.log[|a.log|] == Commit(s, act.t).value; }
  }

  /** In every run there is one log of operations such that
      - the log is legal for a sequential map that starts empty;
      - at every moment the tree holds exactly the map that the log up to a mark
        for that moment builds, and the marks never move back;
      - the log holds nothing but the effects of the run's own operations: an
        action adds nothing or one event, of its thread and that thread's operation;
      - every completed operation has exactly one event in the log, placed
        between the marks of its call and of its return, with its own result. */
  lemma Linearizable(states: seq<State>, acts: seq<Action>) returns (log: seq<Event>, mark: seq<nat>)
    requires IsRun(states, acts)
    ensures Legal(log)
    ensures |mark| == |states| && mark[0] == 0 && mark[|acts|] == |log|
    ensures forall i, j :: 0 <= i <= j < |mark| ==> mark[i] <= mark[j] <= |log|
    ensures forall i :: 0 <= i < |states| ==> mark[i] <= |log| && StandsFor(states[i], Replay(log[..mark[i]]))
    ensures forall i {:trigger acts[i]} :: 0 <= i < |acts| ==>
      mark[i + 1] <= |log| && Adds(states[i], acts[i], log, mark[i], mark[i + 1])
    ensures forall t: Tid, b: nat, e: nat :: IsCall(states, acts, t, b, e) ==>
              Once(log, mark[b], mark[e], Event(t, acts[b].c.op, states[e].threads[t].pc.res))
  {
    var auxs := Annotate(states, acts);
    hide AuxOk, Legal, Replay, IsCall, Once, Adds, StandsFor, Grows, Follows;
    log := auxs[|acts|].log;
    mark := seq(|states|, i requires 0 <= i < |states| => |auxs[i].log|);
    EndIsLegal(states[|acts|], auxs[|acts|]);
    forall i, j | 0 <= i <= j < |mark|
      ensures mark[i] <= mark[j] <= |log|
    {
      LogOnlyGrows(states, acts, auxs, i, j);
      LogOnlyGrows(states, acts, auxs, j, |acts|);
    }
    forall i | 0 <= i < |states|
      ensures mark[i] <= |log| && StandsFor(states[i], Replay(log[..mark[i]]))
    {
      LogOnlyGrows(states, acts, auxs, i, |acts|);
      MarkStands(states[i], auxs[i], log);
    }
    forall i {:trigger acts[i]} | 0 <= i < |acts|
      ensures mark[i + 1] <= |log| && Adds(states[i], acts[i], log, mark[i], mark[i + 1])
    {
      LogOnlyGrows(states, acts, auxs, i + 1, |acts|);
      GrowsByOwnEvent(states[i], acts[i], auxs[i], auxs[i + 1], log);
    }
    forall t: Tid, b: nat, e: nat | IsCall(states, acts, t, b, e)
      ensures Once(log, mark[b], mark[e], Event(t, acts[b].c.op, states[e].threads[t].pc.res))
    {
      LogOnlyGrows(states, acts, auxs, e, |acts|);
      CallCommitsOnce(states, acts, auxs, t, b, e, log);
    }
  }

  lemma EndIsLegal(s: State, a: Aux)
    requires AuxOk(s, a)
    ensures Legal(a.log)
  {
  }

  lemma MarkStands(s: State, a: Aux, log: seq<Event>)
    requires AuxOk(s, a) && a.log <= log
    ensures StandsFor(s, Replay(log[..|a.log|]))
  {
    assert log[..|a.log|] == a.log;
  }

  /** No action of any run faults: no freed node is touched, no lock is released
      by a thread that does not hold it, no node is destroyed while in use. */
  lemma RunsNeverFault(states: seq<State>, acts: seq<Action>, i: nat, t: Tid, c: Choice)
    requires IsRun(states, acts) && i < |states| && t in states[i].threads
    ensures Next(states[i], t, c) != Fault
  {
    var auxs := Annotate(states, acts);
    assert AuxOk(states[i], auxs[i]);
    StepKeepsInv(states[i], auxs[i].g, t, c);
  }

  /** When no operation is under way, the stored tree itself is the map. */
  lemma QuietTreeIsMap(s: State, g: Shape, m: Dict)
    requires Inv(s, g) && Represents(g, m) && forall t :: t in s.threads ==> s.threads[t].pc == Idle
    ensures forall x :: x in g && x != HEAD ==>
              s.locks[x] == UNLOCKED && s.cells[x].name in m && m[s.cells[x].name] == s.cells[x].value
    ensures forall k :: k in m ==> exists x :: x in g && x != HEAD && s.cells[x].name == k
  {
    forall x | x in g && x != HEAD
      ensures s.locks[x] == UNLOCKED && s.cells[x].name == g[x].name && s.cells[x].value == g[x].value
    {
      assert LockOk(s, x) && TextOk(s, g, x);
      assert s.locks[x].readers == {};
    }
    forall k | k in m
      ensures exists x :: x in g && x != HEAD && s.cells[x].name == k
    {
      var x :| x in g && x != HEAD && g[x].name == k;
      assert s.cells[x].name == k;
    }
  }
}
