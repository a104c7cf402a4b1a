/** The invariant of the database's step relation, and its preservation by
    every step of every thread. */
module DatabaseSafety {
  import opened Database
  import opened DatabaseTree

  // ---------------------------------------------------------------- locks

  ghost predicate WriteHolds(th: Thread, x: Ptr) {
    x in Holding(th.pc) && WriteMode(th.op, x)
  }

  ghost predicate ReadHolds(th: Thread, x: Ptr) {
    x in Holding(th.pc) && !WriteMode(th.op, x)
  }

  /** The lock of x is held by exactly the threads whose code says so. */
  ghost predicate LockOk(s: State, x: Ptr)
    requires x in s.locks
  {
    && (s.locks[x].writer.Some? ==> s.locks[x].readers == {})
    && (forall t :: s.locks[x].writer == Some(t) <==> t in s.threads && WriteHolds(s.threads[t], x))
    && (forall t :: t in s.locks[x].readers <==> t in s.threads && ReadHolds(s.threads[t], x))
  }

  ghost predicate LocksOk(s: State) {
    && s.locks.Keys == s.cells.Keys
    && (forall x {:trigger LockOk(s, x)} :: x in s.locks ==> LockOk(s, x))
  }

  /** Nobody holds x. */
  ghost predicate Unheld(s: State, x: Ptr) {
    forall u :: u in s.threads ==> x !in Holding(s.threads[u].pc)
  }

  /** A node that one thread has locked for writing is held by no other thread. */
  lemma Excludes(s: State, t: Tid, u: Tid, x: Ptr)
    requires LocksOk(s) && t in s.threads && u in s.threads && t != u && x in s.cells
    requires WriteHolds(s.threads[t], x)
    ensures x !in Holding(s.threads[u].pc)
  {
    assert LockOk(s, x);
  }

  // ---------------------------------------------------------------- what each thread relies on

  ghost predicate Walking(cells: map<Ptr, Cell>, g: Shape, th: Thread, par: Ptr, d: Ptr, p: Ptr, n: Ptr) {
    && th.op.Remove? && Pinned(cells, g, par, d, th.op.name) && d in cells
    && cells[d].left != NULL && Spine(cells, g, d, p, n)
  }

  /** A search stands at cur and its next stop is nx. */
  ghost predicate Heading(cells: map<Ptr, Cell>, g: Shape, cur: Ptr, nx: Ptr, k: Name) {
    At(g, cur, k) && cur in cells && nx == ChildOf(cells, g, cur, k) && nx != NULL
  }

  ghost predicate ThreadOk(cells: map<Ptr, Cell>, g: Shape, th: Thread) {
    var k := th.op.name;
    match th.pc
    case Look(cur) => At(g, cur, k)
    case Lock(cur, nx) => Heading(cells, g, cur, nx, k)
    case Cmp(cur, nx) => Heading(cells, g, cur, nx, k)
    case Advance(cur, nx) => Heading(cells, g, cur, nx, k) && nx in g && g[nx].name != k
    case QMiss(cur) => th.op.Query? && cur in g
    case QHit(cur, nx) => th.op.Query? && Pinned(cells, g, cur, nx, k)
    case QRead(nx) => th.op.Query? && nx in g && nx != HEAD && g[nx].name == k
    case QDrop(nx, _) => th.op.Query? && nx in g
    case AHit(cur, nx) => th.op.Add? && Pinned(cells, g, cur, nx, k)
    case AHit2(cur) => th.op.Add? && cur in g
    case AMiss(cur) => th.op.Add? && At(g, cur, k) && cur in cells && ChildOf(cells, g, cur, k) == NULL
    case ADone(cur) => th.op.Add? && cur in g
    case RMiss(cur) => th.op.Remove? && cur in g
    case RHit(par, d) => th.op.Remove? && Pinned(cells, g, par, d, k)
    case RUnlP(par, d) => th.op.Remove? && par in g && d in cells && d !in g
    case RUnlD(d) => th.op.Remove? && d in cells && d !in g
    case RFree(d) => th.op.Remove? && d in cells && d !in g
    case RLockN(par, d, n) =>
      && th.op.Remove? && Pinned(cells, g, par, d, k) && d in cells
      && cells[d].left != NULL && n == cells[d].right && n != NULL
    case RWalk(par, d, p, n) => Walking(cells, g, th, par, d, p, n)
    case RLockL(par, d, p, n, l) => Walking(cells, g, th, par, d, p, n) && l == cells[n].left && l != NULL
    case RUnlN(par, d, p, n, l) => Walking(cells, g, th, par, d, p, n) && l == cells[n].left && l != NULL
    case RName(par, d, p, n) => Walking(cells, g, th, par, d, p, n) && cells[n].left == NULL
    case RVal(par, d, p, n) =>
      && Walking(cells, g, th, par, d, p, n) && cells[n].left == NULL && cells[d].name == g[n].name
    case RPtr(par, d, p, n) =>
      && Walking(cells, g, th, par, d, p, n) && cells[n].left == NULL
      && cells[d].name == g[n].name && cells[d].value == g[n].value
    case R2P(par, d, n) => th.op.Remove? && par in g && d in g && par != d && n in cells && n !in g
    case R2D(d, n) => th.op.Remove? && d in g && n in cells && n !in g
    case _ => true
  }

  /** The node being deleted and how far its successor search has come. */
  function Descent(pc: Pc): Option<(Ptr, Ptr)> {
    match pc
    case RWalk(_, d, _, n) => Some((d, n))
    case RLockL(_, d, _, n, _) => Some((d, n))
    case RUnlN(_, d, _, n, _) => Some((d, n))
    case RName(_, d, _, n) => Some((d, n))
    case RVal(_, d, _, n) => Some((d, n))
    case RPtr(_, d, _, n) => Some((d, n))
    case _ => None
  }

  /** x is on the left spine of d's right subtree, above n. */
  ghost predicate Passed(g: Shape, d: Ptr, n: Ptr, x: Ptr)
    requires d in g && n in g && x in g
  {
    g[x].lo == g[d].name && g[n].hi < g[x].hi
  }

  /** Nobody holds a spine node that the descent has left behind. */
  ghost predicate Clear(s: State, g: Shape, d: Ptr, n: Ptr) {
    forall x :: d in g && n in g && x in g && Passed(g, d, n, x) ==> Unheld(s, x)
  }

  ghost predicate ClearOk(s: State, g: Shape, t: Tid)
    requires t in s.threads
  {
    var w := Descent(s.threads[t].pc);
    w.Some? ==> Clear(s, g, w.value.0, w.value.1)
  }

  /** The unlinked node that a thread is about to free. */
  function Doomed(pc: Pc): Option<Ptr> {
    match pc
    case RUnlP(_, d) => Some(d)
    case RUnlD(d) => Some(d)
    case RFree(d) => Some(d)
    case R2P(_, _, n) => Some(n)
    case R2D(_, n) => Some(n)
    case _ => None
  }

  ghost predicate NameInFlux(s: State, x: Ptr) {
    exists t :: t in s.threads && ((s.threads[t].pc.RVal? || s.threads[t].pc.RPtr?) && s.threads[t].pc.d == x)
  }

  ghost predicate ValueInFlux(s: State, x: Ptr) {
    exists t :: t in s.threads && (s.threads[t].pc.RPtr? && s.threads[t].pc.d == x)
  }

  /** The stored text is the tree's, except in a node whose replacement is under way. */
  ghost predicate TextOk(s: State, g: Shape, x: Ptr)
    requires x in g && x in s.cells
  {
    && (s.cells[x].name == g[x].name || NameInFlux(s, x))
    && (s.cells[x].value == g[x].value || ValueInFlux(s, x))
  }

  ghost predicate Inv(s: State, g: Shape) {
    && Tree(s.cells, g) && s.cells[HEAD].name == 0.0
    && LocksOk(s)
    && (forall t {:trigger ThreadOk(s.cells, g, s.threads[t])} :: t in s.threads ==> ThreadOk(s.cells, g, s.threads[t]))
    && (forall t {:trigger ClearOk(s, g, t)} :: t in s.threads ==> ClearOk(s, g, t))
    && (forall t, u :: t in s.threads && u in s.threads && t != u && Doomed(s.threads[t].pc).Some?
          ==> Doomed(s.threads[t].pc) != Doomed(s.threads[u].pc))
    && (forall x {:trigger TextOk(s, g, x)} :: x in g && x != HEAD ==> TextOk(s, g, x))
  }

  /** A held node is allocated. */
  lemma HeldIsAllocated(s: State, g: Shape, t: Tid, x: Ptr)
    requires Inv(s, g) && t in s.threads && x in Holding(s.threads[t].pc)
    ensures x in s.cells && x in s.locks && LockOk(s, x) && HeldBy(s.locks[x], t)
    ensures Doomed(s.threads[t].pc) != Some(x) ==> x in g
  {
    var th := s.threads[t];
    assert ThreadOk(s.cells, g, th);
    ThreadNodes(s.cells, g, th, x);
    assert LockOk(s, x);
  }

  lemma ThreadNodes(cells: map<Ptr, Cell>, g: Shape, th: Thread, x: Ptr)
    requires Tree(cells, g) && ThreadOk(cells, g, th) && x in Holding(th.pc)
    ensures x in cells
    ensures Doomed(th.pc) != Some(x) ==> x in g
  {
    match th.pc
    case Cmp(cur, nx) => assert NodeOk(cells, g, cur);
    case Advance(cur, nx) => assert NodeOk(cells, g, cur);
    case RUnlN(par, d, p, n, l) => assert NodeOk(cells, g, n);
    case _ =>
  }

  // ---------------------------------------------------------------- frame lemmas

  /** What a thread finds in a cell it holds is what the tree says. */
  lemma ReadsTruth(s: State, g: Shape, t: Tid, x: Ptr)
    requires Inv(s, g) && t in s.threads && x in g && x in Holding(s.threads[t].pc)
    requires !s.threads[t].pc.RVal? && !s.threads[t].pc.RPtr?
    ensures x in s.cells
    ensures x != HEAD ==> s.cells[x].name == g[x].name && s.cells[x].value == g[x].value
  {
    if x != HEAD {
      assert TextOk(s, g, x);
      forall u | u in s.threads && u != t && (s.threads[u].pc.RVal? || s.threads[u].pc.RPtr?)
        ensures s.threads[u].pc.d != x
      {
        assert ThreadOk(s.cells, g, s.threads[u]);
        var d := s.threads[u].pc.d;
        Excludes(s, u, t, d);
      }
    }
  }

  lemma FluxGrows(s: State, s': State, t: Tid, x: Ptr)
    requires t in s.threads && s'.threads.Keys == s.threads.Keys
    requires forall u :: u in s.threads && u != t ==> s'.threads[u] == s.threads[u]
    requires !s.threads[t].pc.RVal? && !s.threads[t].pc.RPtr?
    ensures NameInFlux(s, x) ==> NameInFlux(s', x)
    ensures ValueInFlux(s, x) ==> ValueInFlux(s', x)
  {
    if NameInFlux(s, x) {
      var u :| u in s.threads && ((s.threads[u].pc.RVal? || s.threads[u].pc.RPtr?) && s.threads[u].pc.d == x);
      assert s'.threads[u].pc.d == x;
    }
    if ValueInFlux(s, x) {
      var u :| u in s.threads && (s.threads[u].pc.RPtr? && s.threads[u].pc.d == x);
      assert s'.threads[u].pc.d == x;
    }
  }

  /** s' is s after thread t moved to pc, writing no cell. */
  ghost predicate OnlyMoves(s: State, s': State, t: Tid, pc: Pc) {
    && t in s.threads && s'.cells == s.cells
    && s'.threads == s.threads[t := s.threads[t].(pc := pc)]
  }

  /** A step that writes no cell keeps the invariant if its effect on the locks
      does, and if the moving thread relies on true facts. */
  lemma MoveKeepsInv(s: State, s': State, g: Shape, t: Tid, pc: Pc)
    requires Inv(s, g) && OnlyMoves(s, s', t, pc)
    requires !s.threads[t].pc.RVal? && !s.threads[t].pc.RPtr?
    requires ThreadOk(s.cells, g, s.threads[t].(pc := pc))
    requires Doomed(pc) == Doomed(s.threads[t].pc) || Doomed(pc) == None
    requires LocksOk(s')
    requires forall u :: u in s'.threads ==> ClearOk(s', g, u)
    ensures Inv(s', g)
  {
    forall u | u in s'.threads
      ensures ThreadOk(s'.cells, g, s'.threads[u])
    {
      assert ThreadOk(s.cells, g, s.threads[u]);
    }
    forall y | y in g && y != HEAD
      ensures TextOk(s', g, y)
    {
      assert TextOk(s, g, y);
      FluxGrows(s, s', t, y);
    }
  }

  /** A thread may move between program points that hold the same locks and
      rely on true facts. */
  lemma GoKeepsInv(s: State, g: Shape, t: Tid, pc: Pc)
    requires Inv(s, g) && t in s.threads
    requires Holding(pc) == Holding(s.threads[t].pc)
    requires ThreadOk(s.cells, g, s.threads[t].(pc := pc))
    requires Doomed(pc) == Doomed(s.threads[t].pc) || Doomed(pc) == None
    requires Descent(pc) == Descent(s.threads[t].pc) || Descent(pc) == None
    requires !s.threads[t].pc.RVal? && !s.threads[t].pc.RPtr?
    ensures Inv(Go(s, t, pc), g)
  {
    var s' := Go(s, t, pc);
    forall x | x in s'.locks
      ensures LockOk(s', x)
    {
      assert LockOk(s, x);
    }
    forall u | u in s'.threads
      ensures ClearOk(s', g, u)
    {
      assert ClearOk(s, g, u);
      assert forall x :: Unheld(s, x) ==> Unheld(s', x);
    }
    MoveKeepsInv(s, s', g, t, pc);
  }

  /** x is not a node that the descent at pc has left behind. */
  ghost predicate OutOfWay(g: Shape, pc: Pc, x: Ptr)
    requires x in g
  {
    var w := Descent(pc);
    w.Some? && w.value.0 in g && w.value.1 in g ==> !Passed(g, w.value.0, w.value.1, x)
  }

  lemma AcquireKeepsLocks(s: State, t: Tid, x: Ptr, pc: Pc)
    requires LocksOk(s) && t in s.threads && Acquire(s, t, x, pc).Moved?
    requires Holding(pc) == Holding(s.threads[t].pc) + {x} && x !in Holding(s.threads[t].pc)
    ensures LocksOk(Acquire(s, t, x, pc).s)
  {
    var s' := Acquire(s, t, x, pc).s;
    forall y | y in s'.locks
      ensures LockOk(s', y)
    {
      assert LockOk(s, y);
    }
  }

  /** Acquiring the lock of a node that no descent has left behind. */
  lemma AcquireKeepsInv(s: State, g: Shape, t: Tid, x: Ptr, pc: Pc)
    requires Inv(s, g) && t in s.threads
    requires x in g && Acquire(s, t, x, pc).Moved?
    requires Holding(pc) == Holding(s.threads[t].pc) + {x} && x !in Holding(s.threads[t].pc)
    requires ThreadOk(s.cells, g, s.threads[t].(pc := pc))
    requires Doomed(pc) == Doomed(s.threads[t].pc) == None
    requires Descent(pc) == Descent(s.threads[t].pc)
      || (Descent(pc).Some? && Clear(s, g, Descent(pc).value.0, Descent(pc).value.1))
    requires !s.threads[t].pc.RVal? && !s.threads[t].pc.RPtr?
    requires forall u :: u in s.threads ==> OutOfWay(g, s.threads[u].pc, x)
    requires OutOfWay(g, pc, x)
    ensures Inv(Acquire(s, t, x, pc).s, g)
  {
    var s' := Acquire(s, t, x, pc).s;
    AcquireKeepsLocks(s, t, x, pc);
    forall u | u in s'.threads
      ensures ClearOk(s', g, u)
    {
      assert ClearOk(s, g, u);
      assert OutOfWay(g, s.threads[u].pc, x);
      assert forall y :: y != x && Unheld(s, y) ==> Unheld(s', y);
    }
    MoveKeepsInv(s, s', g, t, pc);
  }

  lemma ReleaseKeepsLocks(s: State, t: Tid, x: Ptr, pc: Pc)
    requires LocksOk(s) && t in s.threads && x in s.locks && x in Holding(s.threads[t].pc)
    requires Holding(pc) == Holding(s.threads[t].pc) - {x}
    ensures Release(s, t, x, pc).Moved? && LocksOk(Release(s, t, x, pc).s)
    ensures WriteMode(s.threads[t].op, x) ==> Unheld(Release(s, t, x, pc).s, x)
  {
    assert LockOk(s, x);
    var s' := Release(s, t, x, pc).s;
    forall y | y in s'.locks
      ensures LockOk(s', y)
    {
      assert LockOk(s, y);
    }
    if WriteMode(s.threads[t].op, x) {
      forall u | u in s.threads && u != t
        ensures x !in Holding(s.threads[u].pc)
      {
        Excludes(s, t, u, x);
      }
    }
  }

  /** Everything the descent at pc has left behind is free, once x is given up. */
  ghost predicate ClearBut(s: State, g: Shape, pc: Pc, x: Ptr) {
    var w := Descent(pc);
    w.Some? && w.value.0 in g && w.value.1 in g ==>
      (forall y :: y in g && y != x && Passed(g, w.value.0, w.value.1, y) ==> Unheld(s, y))
  }

  lemma ReleaseKeepsInv(s: State, g: Shape, t: Tid, x: Ptr, pc: Pc)
    requires Inv(s, g) && t in s.threads
    requires x in Holding(s.threads[t].pc) && Holding(pc) == Holding(s.threads[t].pc) - {x}
    requires ThreadOk(s.cells, g, s.threads[t].(pc := pc))
    requires Doomed(pc) == Doomed(s.threads[t].pc)
    requires Descent(pc) == None || (WriteMode(s.threads[t].op, x) && ClearBut(s, g, pc, x))
    requires !s.threads[t].pc.RVal? && !s.threads[t].pc.RPtr?
    ensures Release(s, t, x, pc).Moved? && Inv(Release(s, t, x, pc).s, g)
  {
    HeldIsAllocated(s, g, t, x);
    ReleaseKeepsLocks(s, t, x, pc);
    var s' := Release(s, t, x, pc).s;
    forall u | u in s'.threads
      ensures ClearOk(s', g, u)
    {
      assert ClearOk(s, g, u);
      assert forall y :: Unheld(s, y) ==> Unheld(s', y);
    }
    MoveKeepsInv(s, s', g, t, pc);
  }
}
