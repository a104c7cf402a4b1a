/** Every step of every thread keeps the invariant and never faults. */
module DatabaseSteps {
  import opened Database
  import opened DatabaseTree
  import opened DatabaseSafety

  /** How a step changes the shape: only three of them do. */
  ghost function NextShape(s: State, g: Shape, t: Tid, c: Choice): Shape
    requires Inv(s, g) && t in s.threads
  {
    var th := s.threads[t];
    assert ThreadOk(s.cells, g, th);
    match th.pc
    case AMiss(cur) => Inserted(g, cur, th.op.name, th.op.value, c.node)
    case RHit(par, d) =>
      if s.cells[d].right == NULL || s.cells[d].left == NULL then Bypassed(s.cells, g, par, d) else g
    case RPtr(par, d, p, n) => Spliced(g, d, p, n)
    case _ => g
  }

  // ---------------------------------------------------------------- searching

  /** The stored name sends a search the same way as the tree's. */
  lemma ChildIsTrue(s: State, g: Shape, t: Tid, x: Ptr, k: Name)
    requires Inv(s, g) && t in s.threads && x in g && x in Holding(s.threads[t].pc)
    requires !s.threads[t].pc.RVal? && !s.threads[t].pc.RPtr?
    ensures x in s.cells && k < s.cells[x].name <==> k < g[x].name
  {
    ReadsTruth(s, g, t, x);
  }

  /** The head is above every descent. */
  lemma HeadOutOfWay(s: State, g: Shape)
    requires Inv(s, g)
    ensures forall u :: u in s.threads ==> OutOfWay(g, s.threads[u].pc, HEAD)
  {
    forall u | u in s.threads
      ensures OutOfWay(g, s.threads[u].pc, HEAD)
    {
      assert ThreadOk(s.cells, g, s.threads[u]);
      if Descent(s.threads[u].pc).Some? {
        var par, d := s.threads[u].pc.par, s.threads[u].pc.d;
        assert NodeOk(s.cells, g, par) && NodeOk(s.cells, g, d);
      }
    }
  }

  /** The child of a held node is not one that a descent has left behind. */
  lemma ChildOutOfWay(s: State, g: Shape, t: Tid, y: Ptr, x: Ptr, u: Tid)
    requires Inv(s, g) && t in s.threads && u in s.threads && t != u
    requires y in g && y in Holding(s.threads[t].pc)
    requires x != NULL && (s.cells[y].left == x || s.cells[y].right == x)
    ensures x in g && OutOfWay(g, s.threads[u].pc, x)
  {
    assert NodeOk(s.cells, g, y);
    var pc := s.threads[u].pc;
    if Descent(pc).Some? {
      assert ThreadOk(s.cells, g, s.threads[u]) && ClearOk(s, g, u);
      if y == pc.d { Excludes(s, u, t, y); }
      if y != pc.d { NamesDiffer(s.cells, g, y, pc.d); }
      if Passed(g, pc.d, pc.n, y) { assert Unheld(s, y); }
    }
  }

  lemma StartKeepsInv(s: State, g: Shape, t: Tid, c: Choice)
    requires Inv(s, g) && t in s.threads && s.threads[t].pc.Start?
    ensures Next(s, t, c) != Fault
    ensures Next(s, t, c).Moved? ==> Inv(Next(s, t, c).s, g)
  {
    HeadOutOfWay(s, g);
    if Next(s, t, c).Moved? { AcquireKeepsInv(s, g, t, HEAD, Look(HEAD)); }
  }

  lemma SearchKeepsInv(s: State, g: Shape, t: Tid, c: Choice)
    requires Inv(s, g) && t in s.threads
    requires s.threads[t].pc.Look? || s.threads[t].pc.Cmp? || s.threads[t].pc.Advance?
    ensures Next(s, t, c).Moved? && Inv(Next(s, t, c).s, g)
  {
    var th := s.threads[t];
    assert ThreadOk(s.cells, g, th);
    assert NodeOk(s.cells, g, th.pc.cur);
    match th.pc
    case Look(cur) =>
      ChildIsTrue(s, g, t, cur, th.op.name);
      GoKeepsInv(s, g, t, Next(s, t, c).s.threads[t].pc);
    case Cmp(cur, nx) =>
      ReadsTruth(s, g, t, nx);
      GoKeepsInv(s, g, t, Next(s, t, c).s.threads[t].pc);
    case Advance(cur, nx) =>
      assert NodeOk(s.cells, g, nx);
      ReleaseKeepsInv(s, g, t, cur, Look(nx));
  }

  lemma LockKeepsInv(s: State, g: Shape, t: Tid, c: Choice)
    requires Inv(s, g) && t in s.threads && s.threads[t].pc.Lock?
    ensures Next(s, t, c) != Fault
    ensures Next(s, t, c).Moved? ==> Inv(Next(s, t, c).s, g)
  {
    assert ThreadOk(s.cells, g, s.threads[t]);
    var cur, nx := s.threads[t].pc.cur, s.threads[t].pc.nx;
    assert NodeOk(s.cells, g, cur);
    if Next(s, t, c).Moved? {
      forall u | u in s.threads
        ensures OutOfWay(g, s.threads[u].pc, nx)
      {
        if u != t { ChildOutOfWay(s, g, t, cur, nx, u); }
      }
      assert nx != cur by { assert NodeOk(s.cells, g, nx); }
      AcquireKeepsInv(s, g, t, nx, Cmp(cur, nx));
    }
  }

  /** The steps that end a query. What it reads is the value that the tree binds
      to its name, even in a node whose name a removal has just replaced. */
  lemma QueryKeepsInv(s: State, g: Shape, t: Tid, c: Choice)
    requires Inv(s, g) && t in s.threads
    requires var pc := s.threads[t].pc; pc.QMiss? || pc.QHit? || pc.QRead? || pc.QDrop?
    ensures Next(s, t, c).Moved? && Inv(Next(s, t, c).s, g)
    ensures s.threads[t].pc.QRead? ==>
              var nx := s.threads[t].pc.nx;
              && nx in g && nx != HEAD && g[nx].name == s.threads[t].op.name
              && Next(s, t, c).s.threads[t].pc == QDrop(nx, Found(g[nx].value))
  {
    var th := s.threads[t];
    assert ThreadOk(s.cells, g, th);
    match th.pc
    case QMiss(cur) => ReleaseKeepsInv(s, g, t, cur, Done(Missing));
    case QHit(cur, nx) =>
      assert NodeOk(s.cells, g, cur) && NodeOk(s.cells, g, nx);
      ReleaseKeepsInv(s, g, t, cur, QRead(nx));
    case QRead(nx) =>
      ReadsTruth(s, g, t, nx);
      GoKeepsInv(s, g, t, QDrop(nx, Found(s.cells[nx].value)));
    case QDrop(nx, res) => ReleaseKeepsInv(s, g, t, nx, Done(res));
  }

  /** The steps that end an insertion or a failed removal. */
  lemma AddKeepsInv(s: State, g: Shape, t: Tid, c: Choice)
    requires Inv(s, g) && t in s.threads
    requires var pc := s.threads[t].pc; pc.AHit? || pc.AHit2? || pc.ADone? || pc.RMiss?
    ensures Next(s, t, c).Moved? && Inv(Next(s, t, c).s, g)
  {
    var th := s.threads[t];
    assert ThreadOk(s.cells, g, th);
    match th.pc
    case AHit(cur, nx) =>
      assert NodeOk(s.cells, g, cur) && NodeOk(s.cells, g, nx);
      ReleaseKeepsInv(s, g, t, nx, AHit2(cur));
    case AHit2(cur) => ReleaseKeepsInv(s, g, t, cur, Done(Flag(false)));
    case ADone(cur) => ReleaseKeepsInv(s, g, t, cur, Done(Flag(true)));
    case RMiss(cur) => ReleaseKeepsInv(s, g, t, cur, Done(Flag(false)));
  }

  /** The unlocking steps after a removal. */
  lemma UnlockKeepsInv(s: State, g: Shape, t: Tid, c: Choice)
    requires Inv(s, g) && t in s.threads
    requires var pc := s.threads[t].pc; pc.RUnlP? || pc.RUnlD? || pc.R2P? || pc.R2D?
    ensures Next(s, t, c).Moved? && Inv(Next(s, t, c).s, g)
  {
    var th := s.threads[t];
    assert ThreadOk(s.cells, g, th);
    match th.pc
    case RUnlP(par, d) => ReleaseKeepsInv(s, g, t, par, RUnlD(d));
    case RUnlD(d) => ReleaseKeepsInv(s, g, t, d, RFree(d));
    case R2P(par, d, n) => ReleaseKeepsInv(s, g, t, par, R2D(d, n));
    case R2D(d, n) => ReleaseKeepsInv(s, g, t, d, RUnlD(n));
  }

  lemma ReturnKeepsInv(s: State, g: Shape, t: Tid, c: Choice)
    requires Inv(s, g) && t in s.threads && s.threads[t].pc.Done?
    ensures Next(s, t, c).Moved? && Inv(Next(s, t, c).s, g)
  {
    GoKeepsInv(s, g, t, Idle);
  }

  lemma InvokeKeepsInv(s: State, g: Shape, t: Tid, c: Choice)
    requires Inv(s, g) && t in s.threads && s.threads[t].pc.Idle?
    ensures Next(s, t, c).Moved? && Inv(Next(s, t, c).s, g)
  {
    var s0 := s.(threads := s.threads[t := Thread(c.op, Idle)]);
    NewCommandKeepsInv(s, s0, g, t, c);
    GoKeepsInv(s0, g, t, Start);
    hide Inv;
    assert Go(s0, t, Start) == Next(s, t, c).s;
  }

  lemma NewCommandKeepsInv(s: State, s0: State, g: Shape, t: Tid, c: Choice)
    requires Inv(s, g) && t in s.threads && s.threads[t].pc.Idle?
    requires s0 == s.(threads := s.threads[t := Thread(c.op, Idle)])
    ensures Inv(s0, g)
  {
    forall x | x in s0.locks ensures LockOk(s0, x) { assert LockOk(s, x); }
    assert forall x :: Unheld(s, x) ==> Unheld(s0, x);
    forall u | u in s0.threads
      ensures ThreadOk(s0.cells, g, s0.threads[u])
      ensures ClearOk(s0, g, u)
    {
      assert ThreadOk(s.cells, g, s.threads[u]) && ClearOk(s, g, u);
    }
    forall x | x in g && x != HEAD ensures TextOk(s0, g, x) { assert TextOk(s, g, x); FluxGrows(s, s0, t, x); }
  }

  // ---------------------------------------------------------------- descending to the successor

  /** At the top of the right subtree nothing has been left behind yet. */
  lemma TopIsClear(s: State, g: Shape, d: Ptr, n: Ptr)
    requires Tree(s.cells, g) && d in g && n == s.cells[d].right && n != NULL
    ensures Clear(s, g, d, n)
  {
    assert NodeOk(s.cells, g, d);
    forall x | x in g
      ensures !Passed(g, d, n, x)
    {
      assert NodeOk(s.cells, g, x);
      assert x == d || Laminar(s.cells, g, d, x);
    }
  }

  /** Par, d and the nodes on d's right spine are different nodes. */
  lemma SpineIsApart(cells: map<Ptr, Cell>, g: Shape, par: Ptr, d: Ptr, k: Name, x: Ptr)
    requires Tree(cells, g) && Pinned(cells, g, par, d, k)
    requires x in g && g[d].name <= g[x].lo && g[x].hi <= g[d].hi
    ensures d != par && d != HEAD && x != par && x != d
  {
    assert NodeOk(cells, g, par) && NodeOk(cells, g, d) && NodeOk(cells, g, x);
  }

  lemma LockSuccessorKeepsInv(s: State, g: Shape, t: Tid, c: Choice)
    requires Inv(s, g) && t in s.threads && s.threads[t].pc.RLockN?
    ensures Next(s, t, c) != Fault
    ensures Next(s, t, c).Moved? ==> Inv(Next(s, t, c).s, g)
  {
    var th := s.threads[t];
    assert ThreadOk(s.cells, g, th);
    var par, d, n := th.pc.par, th.pc.d, th.pc.n;
    assert NodeOk(s.cells, g, d);
    if Next(s, t, c).Moved? {
      TopIsClear(s, g, d, n);
      SpineIsApart(s.cells, g, par, d, th.op.name, n);
      forall u | u in s.threads
        ensures OutOfWay(g, s.threads[u].pc, n)
      {
        if u != t { ChildOutOfWay(s, g, t, d, n, u); }
      }
      AcquireKeepsInv(s, g, t, n, RWalk(par, d, d, n));
    }
  }

  lemma LockLeftKeepsInv(s: State, g: Shape, t: Tid, c: Choice)
    requires Inv(s, g) && t in s.threads && s.threads[t].pc.RLockL?
    ensures Next(s, t, c) != Fault
    ensures Next(s, t, c).Moved? ==> Inv(Next(s, t, c).s, g)
  {
    var th := s.threads[t];
    assert ThreadOk(s.cells, g, th);
    var RLockL(par, d, p, n, l) := th.pc;
    assert NodeOk(s.cells, g, n) && NodeOk(s.cells, g, l);
    if Next(s, t, c).Moved? {
      SpineIsApart(s.cells, g, par, d, th.op.name, l);
      forall u | u in s.threads
        ensures OutOfWay(g, s.threads[u].pc, l)
      {
        if u != t { ChildOutOfWay(s, g, t, n, l, u); }
      }
      AcquireKeepsInv(s, g, t, l, RUnlN(par, d, p, n, l));
    }
  }

  /** Letting go of n leaves a clear spine above its left child. */
  lemma UnlockSpineKeepsInv(s: State, g: Shape, t: Tid, c: Choice)
    requires Inv(s, g) && t in s.threads && s.threads[t].pc.RUnlN?
    ensures Next(s, t, c).Moved? && Inv(Next(s, t, c).s, g)
  {
    var th := s.threads[t];
    assert ThreadOk(s.cells, g, th) && ClearOk(s, g, t);
    var RUnlN(par, d, p, n, l) := th.pc;
    assert NodeOk(s.cells, g, n) && NodeOk(s.cells, g, l);
    SpineIsApart(s.cells, g, par, d, th.op.name, n);
    SpineIsApart(s.cells, g, par, d, th.op.name, l);
    forall y | y in g && y != n && Passed(g, d, l, y)
      ensures Unheld(s, y)
    {
      assert Laminar(s.cells, g, n, y) && NodeOk(s.cells, g, y);
      assert Passed(g, d, n, y);
    }
    ReleaseKeepsInv(s, g, t, n, RWalk(par, d, n, l));
  }

  lemma WalkKeepsInv(s: State, g: Shape, t: Tid, c: Choice)
    requires Inv(s, g) && t in s.threads && s.threads[t].pc.RWalk?
    ensures Next(s, t, c).Moved? && Inv(Next(s, t, c).s, g)
  {
    assert ThreadOk(s.cells, g, s.threads[t]);
    GoKeepsInv(s, g, t, Next(s, t, c).s.threads[t].pc);
  }

  // ---------------------------------------------------------------- writing text

  ghost predicate SameLinks(cells: map<Ptr, Cell>, cells': map<Ptr, Cell>) {
    && cells'.Keys == cells.Keys
    && forall x :: x in cells ==> cells'[x].left == cells[x].left && cells'[x].right == cells[x].right
  }

  lemma TextKeepsTree(cells: map<Ptr, Cell>, cells': map<Ptr, Cell>, g: Shape)
    requires Tree(cells, g) && SameLinks(cells, cells')
    ensures Tree(cells', g)
  {
    forall x | x in g ensures NodeOk(cells', g, x) { assert NodeOk(cells, g, x); }
    forall x, y | x in g && y in g && x != y ensures Laminar(cells', g, x, y) { assert Laminar(cells, g, x, y); }
  }

  /** Another thread does not mind what is written into a node it does not hold. */
  lemma TextKeepsThread(cells: map<Ptr, Cell>, cells': map<Ptr, Cell>, g: Shape, th: Thread, d: Ptr)
    requires ThreadOk(cells, g, th) && SameLinks(cells, cells')
    requires forall x :: x in cells && x != d ==> cells'[x] == cells[x]
    requires (th.pc.RVal? || th.pc.RPtr?) ==> th.pc.d != d
    ensures ThreadOk(cells', g, th)
  {
  }

  /** s' is s after thread t overwrote text in the node d it is deleting and moved to pc. */
  ghost predicate Overwrites(s: State, s': State, t: Tid, d: Ptr, pc: Pc) {
    && t in s.threads && s'.locks == s.locks
    && s'.threads == s.threads[t := s.threads[t].(pc := pc)]
    && SameLinks(s.cells, s'.cells)
    && (forall x :: x in s.cells && x != d ==> s'.cells[x] == s.cells[x])
    && Holding(pc) == Holding(s.threads[t].pc) && Descent(pc) == Descent(s.threads[t].pc)
    && Doomed(pc) == Doomed(s.threads[t].pc)
    && d in s.cells && WriteHolds(s.threads[t], d)
  }

  lemma OverwriteKeepsOthers(s: State, s': State, g: Shape, t: Tid, d: Ptr, pc: Pc, u: Tid)
    requires Inv(s, g) && Overwrites(s, s', t, d, pc) && u in s.threads && u != t
    ensures ThreadOk(s'.cells, g, s'.threads[u])
  {
    assert ThreadOk(s.cells, g, s.threads[u]);
    Excludes(s, t, u, d);
    TextKeepsThread(s.cells, s'.cells, g, s.threads[u], d);
  }

  lemma OverwriteKeepsInv(s: State, s': State, g: Shape, t: Tid, d: Ptr, pc: Pc)
    requires Inv(s, g) && Overwrites(s, s', t, d, pc) && d != HEAD
    requires ThreadOk(s'.cells, g, s'.threads[t])
    requires forall x :: x in g && x != HEAD ==> TextOk(s', g, x)
    ensures Inv(s', g)
  {
    TextKeepsTree(s.cells, s'.cells, g);
    forall x | x in s'.locks ensures LockOk(s', x) { assert LockOk(s, x); }
    forall u | u in s'.threads
      ensures ThreadOk(s'.cells, g, s'.threads[u])
    {
      if u != t { OverwriteKeepsOthers(s, s', g, t, d, pc, u); }
    }
    assert forall x :: Unheld(s, x) ==> Unheld(s', x);
    forall u | u in s'.threads ensures ClearOk(s', g, u) { assert ClearOk(s, g, u); }
  }

  lemma NameKeepsInv(s: State, g: Shape, t: Tid, c: Choice)
    requires Inv(s, g) && t in s.threads && s.threads[t].pc.RName?
    ensures Next(s, t, c).Moved? && Inv(Next(s, t, c).s, g)
  {
    var th := s.threads[t];
    assert ThreadOk(s.cells, g, th);
    var RName(par, d, p, n) := th.pc;
    SourceIsTrue(s, g, t, n);
    SpineIsApart(s.cells, g, par, d, th.op.name, n);
    var s' := Next(s, t, c).s;
    assert s' == Go(s.(cells := s.cells[d := s.cells[d].(name := s.cells[n].name)]), t, RVal(par, d, p, n));
    forall x | x in g && x != HEAD ensures TextOk(s', g, x) { assert TextOk(s, g, x); FluxContinues(s, s', t, x); }
    OverwriteKeepsInv(s, s', g, t, d, RVal(par, d, p, n));
  }

  lemma ValueKeepsInv(s: State, g: Shape, t: Tid, c: Choice)
    requires Inv(s, g) && t in s.threads && s.threads[t].pc.RVal?
    ensures Next(s, t, c).Moved? && Inv(Next(s, t, c).s, g)
  {
    var th := s.threads[t];
    assert ThreadOk(s.cells, g, th);
    var RVal(par, d, p, n) := th.pc;
    SourceIsTrue(s, g, t, n);
    SpineIsApart(s.cells, g, par, d, th.op.name, n);
    var s' := Next(s, t, c).s;
    assert s' == Go(s.(cells := s.cells[d := s.cells[d].(value := s.cells[n].value)]), t, RPtr(par, d, p, n));
    forall x | x in g && x != HEAD ensures TextOk(s', g, x) { assert TextOk(s, g, x); FluxContinues(s, s', t, x); }
    OverwriteKeepsInv(s, s', g, t, d, RPtr(par, d, p, n));
  }

  lemma IsSuccessor(s: State, g: Shape, t: Tid, n: Ptr)
    requires Inv(s, g) && t in s.threads && (s.threads[t].pc.RName? || s.threads[t].pc.RVal? || s.threads[t].pc.RPtr?)
    requires n == s.threads[t].pc.n
    ensures var d := s.threads[t].pc.d;
            && n in g && d in g && d != HEAD && n != HEAD && g[d].name < g[n].name
            && forall x :: x in g && g[d].name < g[x].name ==>
              g[n].name <= g[x].name && (g[x].name == g[n].name ==> x == n)
  {
    var th := s.threads[t];
    var d := th.pc.d;
    assert ThreadOk(s.cells, g, th);
    SpineIsApart(s.cells, g, th.pc.par, d, th.op.name, n);
    assert NodeOk(s.cells, g, n) && NodeOk(s.cells, g, d);
    forall x | x in g && g[d].name < g[x].name
      ensures g[n].name <= g[x].name && (g[x].name == g[n].name ==> x == n)
    {
      if x != n { NothingBetween(s.cells, g, d, th.pc.p, n, x); }
    }
  }

  /** The successor's own text is not being replaced, and its name is the next
      one in the whole tree: the smallest of those above d's. */
  lemma SourceIsTrue(s: State, g: Shape, t: Tid, n: Ptr)
    requires Inv(s, g) && t in s.threads && (s.threads[t].pc.RName? || s.threads[t].pc.RVal? || s.threads[t].pc.RPtr?)
    requires n == s.threads[t].pc.n
    ensures n in g && n in s.cells && s.cells[n].name == g[n].name && s.cells[n].value == g[n].value
    ensures var d := s.threads[t].pc.d;
            && d in g && d != HEAD && n != HEAD && g[d].name < g[n].name
            && forall x :: x in g && g[d].name < g[x].name ==>
              g[n].name <= g[x].name && (g[x].name == g[n].name ==> x == n)
  {
    IsSuccessor(s, g, t, n);
    assert ThreadOk(s.cells, g, s.threads[t]) && TextOk(s, g, n);
    SpineIsApart(s.cells, g, s.threads[t].pc.par, s.threads[t].pc.d, s.threads[t].op.name, n);
    forall u | u in s.threads && (s.threads[u].pc.RVal? || s.threads[u].pc.RPtr?)
      ensures s.threads[u].pc.d != n
    {
      assert ThreadOk(s.cells, g, s.threads[u]);
      if u != t { Excludes(s, u, t, s.threads[u].pc.d); }
    }
  }

  lemma FluxContinues(s: State, s': State, t: Tid, x: Ptr)
    requires t in s.threads && s'.threads.Keys == s.threads.Keys
    requires forall u :: u in s.threads && u != t ==> s'.threads[u] == s.threads[u]
    requires s.threads[t].pc.RName? ==> s'.threads[t].pc.RVal? && s'.threads[t].pc.d == s.threads[t].pc.d
    requires s.threads[t].pc.RVal? ==> s'.threads[t].pc.RPtr? && s'.threads[t].pc.d == s.threads[t].pc.d
    requires s.threads[t].pc.RName? || s.threads[t].pc.RVal?
    ensures NameInFlux(s, x) ==> NameInFlux(s', x)
    ensures ValueInFlux(s, x) ==> ValueInFlux(s', x)
    ensures s.threads[t].pc.d == x ==> NameInFlux(s', x)
    ensures s.threads[t].pc.RVal? && s.threads[t].pc.d == x ==> ValueInFlux(s', x)
  {
    if s.threads[t].pc.d == x { assert s'.threads[t].pc.d == x; }
    if NameInFlux(s, x) {
      var u :| u in s.threads && ((s.threads[u].pc.RVal? || s.threads[u].pc.RPtr?) && s.threads[u].pc.d == x);
      assert s'.threads[u].pc.d == x;
    }
    if ValueInFlux(s, x) {
      var u :| u in s.threads && (s.threads[u].pc.RPtr? && s.threads[u].pc.d == x);
      assert s'.threads[u].pc.d == x;
    }
  }
}
