/** How long an operation takes, and what the heap holds when nothing is under way. */
module DatabaseCosts {
  import opened Database
  import opened DatabaseTree
  import opened DatabaseSafety
  import opened DatabaseSteps
  import opened DatabaseReshape
  import opened DatabaseProgress
  import opened DatabaseRuns

  // ---------------------------------------------------------------- what is left to search

  /** The nodes whose names lie in x's subtree interval. */
  ghost function Within(g: Shape, x: Ptr): set<Ptr>
    requires x in g
  {
    set y | y in g && g[x].lo < g[y].name < g[x].hi
  }

  ghost function Near(g: Shape, x: Ptr): nat {
    if x in g then |Within(g, x)| else 0
  }

  lemma SubsetSize(a: set<Ptr>, b: set<Ptr>)
    requires a <= b
    ensures |a| <= |b|
  {
    assert b == a + (b - a);
  }

  lemma StrictSubsetSize(a: set<Ptr>, b: set<Ptr>, x: Ptr)
    requires a <= b && x in b && x !in a
    ensures |a| < |b|
  {
    SubsetSize(a, b - {x});
  }

  /** A child has fewer nodes below it. */
  lemma ChildIsNearer(cells: map<Ptr, Cell>, g: Shape, x: Ptr, c: Ptr)
    requires Tree(cells, g) && x in g && c != NULL && (cells[x].left == c || cells[x].right == c)
    ensures c in g && 0 < Near(g, c) < Near(g, x)
  {
    assert NodeOk(cells, g, x);
    assert NodeOk(cells, g, c);
    StrictSubsetSize(Within(g, c), Within(g, x), x);
    assert c in Within(g, c);
  }

  lemma HeadSeesAll(cells: map<Ptr, Cell>, g: Shape)
    requires Tree(cells, g)
    ensures Near(g, HEAD) <= |cells.Keys|
  {
    SubsetSize(Within(g, HEAD), cells.Keys);
  }

  // ---------------------------------------------------------------- reshaping the tree

  lemma InsertWithin(g: Shape, cur: Ptr, k: Name, v: Value, f: Ptr, x: Ptr)
    requires cur in g && x in g && f !in g
    ensures Near(Inserted(g, cur, k, v, f), x) <= Near(g, x) + 1
  {
    var g' := Inserted(g, cur, k, v, f);
    assert |Within(g, x) + {f}| <= |Within(g, x)| + 1;
    SubsetSize(Within(g', x), Within(g, x) + {f});
  }

  lemma BypassWithin(cells: map<Ptr, Cell>, g: Shape, par: Ptr, d: Ptr, x: Ptr)
    requires Tree(cells, g) && d in g && d != HEAD && x in g && x != d
    requires cells[d].right == NULL || cells[d].left == NULL
    ensures Near(Bypassed(cells, g, par, d), x) <= Near(g, x)
  {
    var g' := Bypassed(cells, g, par, d);
    assert NodeOk(cells, g, d);
    forall y | y in Within(g', x) ensures y in Within(g, x) {
      assert NodeOk(cells, g, y) && Laminar(cells, g, d, y);
    }
    SubsetSize(Within(g', x), Within(g, x));
  }

  lemma SpliceWithin(cells: map<Ptr, Cell>, g: Shape, d: Ptr, p: Ptr, n: Ptr, x: Ptr)
    requires Tree(cells, g) && d in g && d != HEAD && Spine(cells, g, d, p, n) && cells[n].left == NULL
    requires x in g && x != n && d != n
    ensures Near(Spliced(g, d, p, n), x) <= Near(g, x)
  {
    var g' := Spliced(g, d, p, n);
    assert NodeOk(cells, g, d) && NodeOk(cells, g, n) && NodeOk(cells, g, x) && Laminar(cells, g, d, n);
    assert x != d ==> Laminar(cells, g, d, x);
    assert Laminar(cells, g, n, x);
    forall y | y in Within(g', x) ensures y in Within(g, x) {
      assert NodeOk(cells, g, y);
      assert y != d ==> Laminar(cells, g, d, y);
      assert Laminar(cells, g, n, y);
    }
    SubsetSize(Within(g', x), Within(g, x));
  }

  // ---------------------------------------------------------------- the steps that an operation has left

  /** A bound on the steps that an operation has left if nobody adds a node. */
  ghost function Left(g: Shape, pc: Pc): nat {
    match pc
    case Idle => 0
    case Start => 4 * Near(g, HEAD) + 9
    case Look(cur) => 4 * Near(g, cur) + 8
    case Lock(cur, _) => 4 * Near(g, cur) + 7
    case Cmp(cur, _) => 4 * Near(g, cur) + 6
    case Advance(cur, _) => 4 * Near(g, cur) + 5
    case QMiss(_) => 2
    case QHit(_, _) => 4
    case QRead(_) => 3
    case QDrop(_, _) => 2
    case AHit(_, _) => 3
    case AHit2(_) => 2
    case AMiss(_) => 3
    case ADone(_) => 2
    case RMiss(_) => 2
    case RHit(_, d) => 4 * Near(g, d) + 8
    case RLockN(_, d, _) => 4 * Near(g, d) + 7
    case RWalk(_, _, _, n) => 4 * Near(g, n) + 9
    case RLockL(_, _, _, n, _) => 4 * Near(g, n) + 8
    case RUnlN(_, _, _, n, _) => 4 * Near(g, n) + 7
    case RName(_, _, _, _) => 8
    case RVal(_, _, _, _) => 7
    case RPtr(_, _, _, _) => 6
    case R2P(_, _, _) => 5
    case R2D(_, _) => 4
    case RUnlP(_, _) => 4
    case RUnlD(_) => 3
    case RFree(_) => 2
    case Done(_) => 1
  }

  /** The steps of a search, and of a removal on its way to the successor. */
  predicate Seeking(pc: Pc) {
    pc.Cmp? || pc.Advance? || pc.RHit? || pc.RLockN? || pc.RLockL? || pc.RUnlN?
  }

  /** With a step that leads to another node, a thread comes nearer. */
  lemma SeekerComesNearer(s: State, g: Shape, t: Tid, c: Choice)
    requires Inv(s, g) && t in s.threads && Next(s, t, c).Moved? && Seeking(s.threads[t].pc)
    ensures var s' := Next(s, t, c).s; t in s'.threads && Left(g, s'.threads[t].pc) < Left(g, s.threads[t].pc)
  {
    hide Inv, Near;
    SeekerNodes(s, g, t);
  }

  /** What it finds nearer. */
  lemma SeekerNodes(s: State, g: Shape, t: Tid)
    requires Inv(s, g) && t in s.threads && Seeking(s.threads[t].pc)
    ensures match s.threads[t].pc
      case Cmp(cur, nx) => 0 < Near(g, nx) < Near(g, cur)
      case Advance(cur, nx) => 0 < Near(g, nx) < Near(g, cur)
      case RHit(_, d) => 0 < Near(g, d)
      case RLockN(_, d, n) => 0 < Near(g, n) < Near(g, d)
      case RLockL(_, _, _, n, l) => 0 < Near(g, l) < Near(g, n)
      case RUnlN(_, _, _, n, l) => 0 < Near(g, l) < Near(g, n)
      case _ => true
  {
    assert ThreadOk(s.cells, g, s.threads[t]);
    match s.threads[t].pc
    case Cmp(cur, nx) => ChildIsNearer(s.cells, g, cur, nx);
    case Advance(cur, nx) => ChildIsNearer(s.cells, g, cur, nx);
    case RHit(par, d) => ChildIsNearer(s.cells, g, par, d);
    case RLockN(par, d, n) => ChildIsNearer(s.cells, g, d, n);
    case RLockL(par, d, p, n, l) => ChildIsNearer(s.cells, g, n, l);
    case RUnlN(par, d, p, n, l) => ChildIsNearer(s.cells, g, n, l);
  }

  /** The other steps lead on at the same node, or to the end. */
  lemma SearchGoesOn(s: State, g: Shape, t: Tid, c: Choice)
    requires t in s.threads && Next(s, t, c).Moved? && s.threads[t].pc != Idle
    requires !Seeking(s.threads[t].pc) && !Removing(s.threads[t].pc)
    ensures var s' := Next(s, t, c).s; t in s'.threads && Left(g, s'.threads[t].pc) < Left(g, s.threads[t].pc)
  {
    hide Near;
  }

  lemma RemovalGoesOn(s: State, g: Shape, t: Tid, c: Choice)
    requires t in s.threads && Next(s, t, c).Moved? && Removing(s.threads[t].pc) && !Seeking(s.threads[t].pc)
    ensures var s' := Next(s, t, c).s; t in s'.threads && Left(g, s'.threads[t].pc) < Left(g, s.threads[t].pc)
  {
    hide Near;
  }

  /** Nobody else's step takes an operation further away, but a new node may lie on its way. */
  lemma OthersDelay(s: State, g: Shape, t: Tid, c: Choice, x: Ptr)
    requires Inv(s, g) && t in s.threads && Next(s, t, c).Moved? && x in g && x in NextShape(s, g, t, c)
    ensures Near(NextShape(s, g, t, c), x) <= Near(g, x) + if s.threads[t].pc.AMiss? then 1 else 0
  {
    assert ThreadOk(s.cells, g, s.threads[t]);
    match s.threads[t].pc
    case AMiss(cur) => InsertWithin(g, cur, s.threads[t].op.name, s.threads[t].op.value, c.node, x);
    case RHit(par, d) =>
      assert NodeOk(s.cells, g, par);
      if s.cells[d].right == NULL || s.cells[d].left == NULL { BypassWithin(s.cells, g, par, d, x); }
    case RPtr(par, d, p, n) =>
      assert NodeOk(s.cells, g, d) && NodeOk(s.cells, g, n) && NodeOk(s.cells, g, par);
      SpliceWithin(s.cells, g, d, p, n, x);
    case _ =>
  }

  /** The node that the operation at pc is at, as far as its search goes. */
  function Place(pc: Pc): Ptr {
    match pc
    case Start => HEAD
    case Look(cur) => cur
    case Lock(cur, _) => cur
    case Cmp(cur, _) => cur
    case Advance(cur, _) => cur
    case RHit(_, d) => d
    case RLockN(_, d, _) => d
    case RWalk(_, _, _, n) => n
    case RLockL(_, _, _, n, _) => n
    case RUnlN(_, _, _, n, _) => n
    case _ => NULL
  }

  lemma LeftIs(g: Shape, g': Shape, pc: Pc, more: nat)
    requires Near(g', Place(pc)) <= Near(g, Place(pc)) + more
    ensures Left(g', pc) <= Left(g, pc) + 4 * more
  {
    hide Near;
  }

  lemma PlaceIsInTree(s: State, g: Shape, u: Tid)
    requires Inv(s, g) && u in s.threads
    ensures Place(s.threads[u].pc) == NULL || Place(s.threads[u].pc) in g
  {
    assert ThreadOk(s.cells, g, s.threads[u]);
  }

  lemma NullIsNowhere(s: State, g: Shape)
    requires Inv(s, g)
    ensures NULL !in g && HEAD in g
  {
  }

  /** Any step, for an operation u under way. */
  lemma StepsGoDown(s: State, g: Shape, t: Tid, c: Choice, u: Tid)
    requires Inv(s, g) && t in s.threads && u in s.threads && Next(s, t, c).Moved?
    requires s.threads[u].pc != Idle
    ensures var s', g' := Next(s, t, c).s, NextShape(s, g, t, c);
      && u in s'.threads
      && Left(g', s'.threads[u].pc) + (if t == u then 1 else 0)
          <= Left(g, s.threads[u].pc) + if t != u && s.threads[t].pc.AMiss? then 4 else 0
  {
    var s', g' := Next(s, t, c).s, NextShape(s, g, t, c);
    StepKeepsInv(s, g, t, c);
    if t == u {
      var pc := s.threads[t].pc;
      if Seeking(pc) { SeekerComesNearer(s, g, t, c); }
      else if Removing(pc) { RemovalGoesOn(s, g, t, c); }
      else { SearchGoesOn(s, g, t, c); }
      OwnReshape(s, g, t, c);
    } else {
      OthersStay(s, t, c, u);
      var x := Place(s.threads[u].pc);
      PlaceIsInTree(s, g, u);
      PlaceIsInTree(s', g', u);
      NullIsNowhere(s, g);
      NullIsNowhere(s', g');
      if x != NULL { OthersDelay(s, g, t, c, x); }
      hide Next, NextShape, Inv;
      LeftIs(g, g', s.threads[u].pc, if s.threads[t].pc.AMiss? then 1 else 0);
    }
  }

  /** A thread that has reshaped the tree is past its search. */
  lemma OwnReshape(s: State, g: Shape, t: Tid, c: Choice)
    requires Inv(s, g) && t in s.threads && Next(s, t, c).Moved?
    ensures var s' := Next(s, t, c).s;
      t in s'.threads && Left(NextShape(s, g, t, c), s'.threads[t].pc) == Left(g, s'.threads[t].pc)
  {
    assert ThreadOk(s.cells, g, s.threads[t]);
    hide Inv, Near;
  }

  // ---------------------------------------------------------------- runs

  /** The steps that t itself makes between b and e. */
  function OwnSteps(acts: seq<Action>, t: Tid, b: nat, e: nat): nat
    requires b <= e <= |acts|
    decreases e - b
  {
    if b == e then 0 else OwnSteps(acts, t, b, e - 1) + if acts[e - 1].t == t then 1 else 0
  }

  /** The nodes that other threads link between b and e. */
  function NewNodes(states: seq<State>, acts: seq<Action>, t: Tid, b: nat, e: nat): nat
    requires b <= e <= |acts| <= |states|
    decreases e - b
  {
    if b == e then 0 else
      var s, u := states[e - 1], acts[e - 1].t;
      NewNodes(states, acts, t, b, e - 1) + if u != t && u in s.threads && s.threads[u].pc.AMiss? then 1 else 0
  }

  lemma ShapeAt(states: seq<State>, acts: seq<Action>, i: nat) returns (g: Shape)
    requires IsRun(states, acts) && i < |states|
    ensures Inv(states[i], g)
  {
    var auxs := Annotate(states, acts);
    assert AuxOk(states[i], auxs[i]);
    g := auxs[i].g;
  }

  /** An operation of t that was called by action b, at a later moment e before or at its return. */
  ghost predicate UnderWay(states: seq<State>, acts: seq<Action>, t: Tid, b: nat, e: nat) {
    && |states| == |acts| + 1 && b < e < |states| && acts[b].t == t
    && t in states[b].threads && states[b].threads[t].pc == Idle
    && forall i :: b < i < e ==> t in states[i].threads && states[i].threads[t].pc != Idle
  }

  ghost predicate Bounded(states: seq<State>, acts: seq<Action>, g: Shape, t: Tid, b: nat, e: nat)
    requires b <= e <= |acts| < |states|
  {
    && Inv(states[e], g) && t in states[e].threads
    && OwnSteps(acts, t, b, e) + Left(g, states[e].threads[t].pc)
      <= 4 * |states[b].cells.Keys| + 10 + 4 * NewNodes(states, acts, t, b, e)
  }

  lemma {:induction false} StepsGoOn(states: seq<State>, acts: seq<Action>, t: Tid, b: nat, e: nat) returns (g: Shape)
    requires IsRun(states, acts) && UnderWay(states, acts, t, b, e)
    ensures Bounded(states, acts, g, t, b, e)
    decreases e - b
  {
    hide IsRun, Inv, Next, Bounded, UnderWay, Follows;
    UnderWayBefore(states, acts, t, b, e);
    RunFollows(states, acts, e - 1);
    if e == b + 1 {
      var before := ShapeAt(states, acts, b);
      g := BoundedAtFirst(states, acts, before, t, b);
    } else {
      var before := StepsGoOn(states, acts, t, b, e - 1);
      g := BoundedNext(states, acts, before, t, b, e);
    }
  }

  lemma RunFollows(states: seq<State>, acts: seq<Action>, i: nat)
    requires IsRun(states, acts) && i < |acts|
    ensures |states| == |acts| + 1 && Follows(states[i], acts[i], states[i + 1])
  {
  }

  lemma UnderWayBefore(states: seq<State>, acts: seq<Action>, t: Tid, b: nat, e: nat)
    requires UnderWay(states, acts, t, b, e)
    ensures b < e <= |acts| < |states| && acts[b].t == t
    ensures b + 1 < e ==> UnderWay(states, acts, t, b, e - 1)
  {
  }

  lemma BoundedAtFirst(states: seq<State>, acts: seq<Action>, g: Shape, t: Tid, b: nat) returns (g': Shape)
    requires UnderWay(states, acts, t, b, b + 1) && Inv(states[b], g) && Follows(states[b], acts[b], states[b + 1])
    ensures Bounded(states, acts, g', t, b, b + 1)
  {
    g' := NextShape(states[b], g, t, acts[b].c);
    FirstStep(states[b], g, t, acts[b].c);
    StepKeepsInv(states[b], g, t, acts[b].c);
    Sums(states, acts, t, b, b + 1);
    hide Inv, Left, Next, NextShape, OwnSteps, NewNodes;
  }

  lemma BoundedNext(states: seq<State>, acts: seq<Action>, g: Shape, t: Tid, b: nat, e: nat) returns (g': Shape)
    requires UnderWay(states, acts, t, b, e) && b + 1 < e && Bounded(states, acts, g, t, b, e - 1)
    requires Follows(states[e - 1], acts[e - 1], states[e])
    ensures Bounded(states, acts, g', t, b, e)
  {
    var s, act := states[e - 1], acts[e - 1];
    g' := NextShape(s, g, act.t, act.c);
    StepsGoDown(s, g, act.t, act.c, t);
    StepKeepsInv(s, g, act.t, act.c);
    Sums(states, acts, t, b, e);
    hide Inv, Left, Next, NextShape, OwnSteps, NewNodes;
  }

  lemma Sums(states: seq<State>, acts: seq<Action>, t: Tid, b: nat, e: nat)
    requires b < e <= |acts| <= |states|
    ensures OwnSteps(acts, t, b, b) == NewNodes(states, acts, t, b, b) == 0
    ensures OwnSteps(acts, t, b, e) == OwnSteps(acts, t, b, e - 1) + if acts[e - 1].t == t then 1 else 0
    ensures var s, u := states[e - 1], acts[e - 1].t;
      NewNodes(states, acts, t, b, e) ==
        NewNodes(states, acts, t, b, e - 1) + if u != t && u in s.threads && s.threads[u].pc.AMiss? then 1 else 0
  {
  }

  /** An operation takes at most four steps for each node that is allocated when it is
      called or linked by others while it is under way, and ten more: none goes on for
      ever, unless others keep adding. */
  lemma StepsAreBounded(states: seq<State>, acts: seq<Action>, t: Tid, b: nat, e: nat)
    requires IsRun(states, acts) && UnderWay(states, acts, t, b, e)
    ensures OwnSteps(acts, t, b, e) <= 4 * (|states[b].cells| + NewNodes(states, acts, t, b, e)) + 10
  {
    var g := StepsGoOn(states, acts, t, b, e);
    assert Bounded(states, acts, g, t, b, e);
    assert |states[b].cells| == |states[b].cells.Keys|;
  }

  lemma FirstStep(s: State, g: Shape, t: Tid, c: Choice)
    requires Inv(s, g) && t in s.threads && s.threads[t].pc == Idle
    ensures Next(s, t, c).Moved?
    ensures var s', g' := Next(s, t, c).s, NextShape(s, g, t, c);
      t in s'.threads && Left(g', s'.threads[t].pc) <= 4 * |s.cells.Keys| + 9
  {
    HeadSeesAll(s.cells, g);
  }

  // ---------------------------------------------------------------- nothing is leaked

  /** Every allocated node is in the tree, or some thread is about to free it. */
  ghost predicate Kept(s: State, g: Shape, x: Ptr) {
    x in s.cells ==> x in g || exists t :: t in s.threads && Doomed(s.threads[t].pc) == Some(x)
  }

  ghost predicate NoLeak(s: State, g: Shape) {
    forall x {:trigger Kept(s, g, x)} :: Kept(s, g, x)
  }

  lemma StepKeeps(s: State, g: Shape, t: Tid, c: Choice, x: Ptr)
    requires Inv(s, g) && t in s.threads && Next(s, t, c).Moved? && Kept(s, g, x)
    ensures Kept(Next(s, t, c).s, NextShape(s, g, t, c), x)
  {
    var s', g' := Next(s, t, c).s, NextShape(s, g, t, c);
    OnlyItself(s, t, c);
    KeptByItself(s, g, t, c, x);
    if x in s.cells && !(x in g) {
      var u :| u in s.threads && Doomed(s.threads[u].pc) == Some(x);
      if u != t { assert s'.threads[u] == s.threads[u]; }
    }
  }

  /** What the step allocates is in the tree; what leaves the tree, its thread frees. */
  ghost predicate Tidy(s: State, g: Shape, s': State, g': Shape, t: Tid, x: Ptr)
    requires t in s.threads
  {
    && t in s'.threads
    && (x in g && x !in g' ==> Doomed(s'.threads[t].pc) == Some(x))
    && (x in s'.cells && x !in s.cells ==> x in g')
    && (Doomed(s.threads[t].pc) == Some(x) && x in s'.cells ==> Doomed(s'.threads[t].pc) == Some(x))
    && (x in g' ==> x in g || x !in s.cells)
  }

  lemma KeptByItself(s: State, g: Shape, t: Tid, c: Choice, x: Ptr)
    requires Inv(s, g) && t in s.threads && Next(s, t, c).Moved?
    ensures Tidy(s, g, Next(s, t, c).s, NextShape(s, g, t, c), t, x)
  {
    assert ThreadOk(s.cells, g, s.threads[t]);
    if Removing(s.threads[t].pc) { RemoverIsTidy(s, g, t, c, x); } else { SearcherIsTidy(s, g, t, c, x); }
  }

  lemma RemoverIsTidy(s: State, g: Shape, t: Tid, c: Choice, x: Ptr)
    requires Inv(s, g) && t in s.threads && Next(s, t, c).Moved? && Removing(s.threads[t].pc)
    ensures Tidy(s, g, Next(s, t, c).s, NextShape(s, g, t, c), t, x)
  {
    var pc := s.threads[t].pc;
    if pc.RHit? { HitIsTidy(s, g, t, c, x); }
    else if pc.RPtr? { SpliceIsTidy(s, g, t, c, x); }
    else { FinisherIsTidy(s, g, t, c, x); }
  }

  lemma HitIsTidy(s: State, g: Shape, t: Tid, c: Choice, x: Ptr)
    requires Inv(s, g) && t in s.threads && Next(s, t, c).Moved? && s.threads[t].pc.RHit?
    ensures Tidy(s, g, Next(s, t, c).s, NextShape(s, g, t, c), t, x)
  {
    assert ThreadOk(s.cells, g, s.threads[t]);
    hide Inv;
  }

  lemma SpliceIsTidy(s: State, g: Shape, t: Tid, c: Choice, x: Ptr)
    requires Inv(s, g) && t in s.threads && Next(s, t, c).Moved? && s.threads[t].pc.RPtr?
    ensures Tidy(s, g, Next(s, t, c).s, NextShape(s, g, t, c), t, x)
  {
    assert ThreadOk(s.cells, g, s.threads[t]);
    hide Inv;
  }

  lemma FinisherIsTidy(s: State, g: Shape, t: Tid, c: Choice, x: Ptr)
    requires Inv(s, g) && t in s.threads && Next(s, t, c).Moved? && Removing(s.threads[t].pc)
    requires !s.threads[t].pc.RHit? && !s.threads[t].pc.RPtr?
    ensures Tidy(s, g, Next(s, t, c).s, NextShape(s, g, t, c), t, x)
  {
    hide Inv, NextShape;
    ShapeStays(s, g, t, c);
  }

  lemma ShapeStays(s: State, g: Shape, t: Tid, c: Choice)
    requires Inv(s, g) && t in s.threads && !s.threads[t].pc.RHit? && !s.threads[t].pc.RPtr? && !s.threads[t].pc.AMiss?
    ensures NextShape(s, g, t, c) == g
  {
  }

  lemma SearcherIsTidy(s: State, g: Shape, t: Tid, c: Choice, x: Ptr)
    requires Inv(s, g) && t in s.threads && Next(s, t, c).Moved? && !Removing(s.threads[t].pc)
    ensures Tidy(s, g, Next(s, t, c).s, NextShape(s, g, t, c), t, x)
  {
    assert ThreadOk(s.cells, g, s.threads[t]);
    hide Inv;
  }

  lemma {:induction false} KeptInRuns(states: seq<State>, acts: seq<Action>, i: nat) returns (g: Shape)
    requires IsRun(states, acts) && i < |states|
    ensures Inv(states[i], g) && NoLeak(states[i], g)
  {
    if i == 0 {
      InitIsOk(states[0]);
      g := map[HEAD := HEAD_SLOT];
      forall x ensures Kept(states[0], g, x) {}
    } else {
      var before := KeptInRuns(states, acts, i - 1);
      assert Follows(states[i - 1], acts[i - 1], states[i]);
      hide IsRun, Inv, Next, NextShape, Kept;
      g := NextShape(states[i - 1], before, acts[i - 1].t, acts[i - 1].c);
      StepKeepsInv(states[i - 1], before, acts[i - 1].t, acts[i - 1].c);
      forall x ensures Kept(states[i], g, x) {
        assert Kept(states[i - 1], before, x);
        StepKeeps(states[i - 1], before, acts[i - 1].t, acts[i - 1].c, x);
      }
    }
  }

  /** Nothing is leaked: whenever no operation is under way, the nodes that are
      allocated are those that are reached from the head, and no lock is held. */
  lemma QuietHeapIsTree(states: seq<State>, acts: seq<Action>, i: nat, x: Ptr)
    requires IsRun(states, acts) && i < |states|
    requires forall t :: t in states[i].threads ==> states[i].threads[t].pc == Idle
    ensures x in states[i].cells <==> Reachable(states[i].cells, x)
    ensures x in states[i].cells ==> x in states[i].locks && states[i].locks[x] == UNLOCKED
  {
    var s := states[i];
    var g := KeptInRuns(states, acts, i);
    assert Kept(s, g, x);
    if x in s.cells {
      TreeIsReachable(s.cells, g, x);
      assert LockOk(s, x);
      assert s.locks[x].readers == {};
    }
    if Reachable(s.cells, x) {
      var path :| IsPath(s.cells, path, x);
      ReachableIsTree(s.cells, g, path, x);
    }
  }
}
