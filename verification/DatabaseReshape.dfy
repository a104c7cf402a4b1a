/** The steps that reshape the tree, and the freeing of unlinked nodes. */
module DatabaseReshape {
  import opened Database
  import opened DatabaseTree
  import opened DatabaseSafety
  import opened DatabaseSteps

  /** The node whose pointer a two-child removal will overwrite is d itself or
      a node that no thread holds, although its lock was given up long before. */
  lemma PnextIsUnheld(s: State, g: Shape, t: Tid)
    requires Inv(s, g) && t in s.threads && Descent(s.threads[t].pc).Some?
    ensures s.threads[t].pc.p in g && s.threads[t].pc.p in s.cells
    ensures s.threads[t].pc.p == s.threads[t].pc.d || Unheld(s, s.threads[t].pc.p)
  {
    assert ThreadOk(s.cells, g, s.threads[t]) && ClearOk(s, g, t);
    var d, p, n := s.threads[t].pc.d, s.threads[t].pc.p, s.threads[t].pc.n;
    assert NodeOk(s.cells, g, p);
    if p != d { assert Passed(g, d, n, p); }
  }

  /** Nodes that thread u's facts are about and that another thread may not touch. */
  function Relies(pc: Pc): set<Ptr> {
    Holding(pc) + (if Descent(pc).Some? then {pc.p} else {})
  }

  lemma ReliesExclude(s: State, g: Shape, t: Tid, u: Tid, x: Ptr)
    requires Inv(s, g) && t in s.threads && u in s.threads && t != u
    requires x in Holding(s.threads[t].pc) && WriteMode(s.threads[t].op, x)
    ensures x !in Relies(s.threads[u].pc)
  {
    HeldIsAllocated(s, g, t, x);
    Excludes(s, t, u, x);
    if Descent(s.threads[u].pc).Some? { PnextIsUnheld(s, g, u); }
  }

  /** Assembles the invariant after a step that wrote cells and changed the shape. */
  lemma ReshapeKeepsInv(s: State, s': State, g: Shape, g': Shape, t: Tid)
    requires Inv(s, g) && t in s.threads && s'.threads.Keys == s.threads.Keys
    requires forall u :: u in s.threads && u != t ==> s'.threads[u] == s.threads[u]
    requires Tree(s'.cells, g') && s'.cells[HEAD].name == 0.0
    requires LocksOk(s')
    requires Descent(s'.threads[t].pc) == None && ThreadOk(s'.cells, g', s'.threads[t])
    requires forall u :: u in s.threads && u != t ==> ThreadOk(s'.cells, g', s'.threads[u])
    requires forall u :: u in s.threads && u != t ==> ClearOk(s', g', u)
    requires forall u :: u in s.threads && u != t && Doomed(s'.threads[t].pc).Some? ==>
      Doomed(s.threads[u].pc) != Doomed(s'.threads[t].pc)
    requires forall x :: x in g' && x != HEAD ==> TextOk(s', g', x)
    ensures Inv(s', g')
  {
  }

  // ---------------------------------------------------------------- insertion

  lemma InsertKeepsThread(cells: map<Ptr, Cell>, cells': map<Ptr, Cell>, g: Shape, cur: Ptr, k: Name, v: Value, f: Ptr,
      th: Thread)
    requires Tree(cells, g) && At(g, cur, k) && Links(cells, cells', g, cur, k, v, f)
    requires ThreadOk(cells, g, th) && cur !in Relies(th.pc)
    ensures ThreadOk(cells', Inserted(g, cur, k, v, f), th)
  {
  }

  /** s' is s with thread t moved to pc, holding what it held. */
  ghost predicate Moves(s: State, s': State, t: Tid, pc: Pc) {
    && t in s.threads && s'.threads == s.threads[t := s.threads[t].(pc := pc)]
    && Holding(pc) == Holding(s.threads[t].pc)
  }

  lemma UnheldStays(s: State, s': State, t: Tid, pc: Pc)
    requires Moves(s, s', t, pc)
    ensures forall x :: Unheld(s, x) ==> Unheld(s', x)
  {
  }

  lemma LocksStay(s: State, s': State, t: Tid, pc: Pc)
    requires Moves(s, s', t, pc) && LocksOk(s) && s'.locks == s.locks && s'.cells.Keys == s.cells.Keys
    ensures LocksOk(s')
  {
    forall x | x in s'.locks ensures LockOk(s', x) { assert LockOk(s, x); }
  }

  lemma LinkKeepsLocks(s: State, s': State, g: Shape, t: Tid, pc: Pc, f: Ptr)
    requires Inv(s, g) && Moves(s, s', t, pc) && f !in s.cells
    requires s'.locks == s.locks[f := UNLOCKED] && s'.cells.Keys == s.cells.Keys + {f}
    ensures LocksOk(s') && Unheld(s', f)
  {
    forall u | u in s.threads ensures f !in Holding(s.threads[u].pc) {
      if f in Holding(s.threads[u].pc) { HeldIsAllocated(s, g, u, f); }
    }
    forall x | x in s'.locks ensures LockOk(s', x) { if x != f { assert LockOk(s, x); } }
  }

  lemma LinkKeepsOther(s: State, s': State, g: Shape, t: Tid, u: Tid, cur: Ptr, k: Name, v: Value, f: Ptr)
    requires Inv(s, g) && Moves(s, s', t, ADone(cur)) && u in s.threads && u != t
    requires At(g, cur, k) && Links(s.cells, s'.cells, g, cur, k, v, f)
    requires WriteMode(s.threads[t].op, cur) && Unheld(s', f)
    ensures ThreadOk(s'.cells, Inserted(g, cur, k, v, f), s'.threads[u])
    ensures ClearOk(s', Inserted(g, cur, k, v, f), u)
  {
    assert ThreadOk(s.cells, g, s.threads[u]) && ClearOk(s, g, u);
    ReliesExclude(s, g, t, u, cur);
    InsertKeepsThread(s.cells, s'.cells, g, cur, k, v, f, s.threads[u]);
    UnheldStays(s, s', t, ADone(cur));
  }

  lemma LinkKeepsInv(s: State, s': State, g: Shape, t: Tid, cur: Ptr, f: Ptr)
    requires Inv(s, g) && t in s.threads && s.threads[t].pc == AMiss(cur) && s.threads[t].op.Add?
    requires Moves(s, s', t, ADone(cur)) && cur in g && cur in s.cells
    requires var op := s.threads[t].op;
             && At(g, cur, op.name) && ChildOf(s.cells, g, cur, op.name) == NULL
             && Links(s.cells, s'.cells, g, cur, op.name, op.value, f)
    requires s'.locks == s.locks[f := UNLOCKED]
    ensures Inv(s', Inserted(g, cur, s.threads[t].op.name, s.threads[t].op.value, f))
  {
    var k, v := s.threads[t].op.name, s.threads[t].op.value;
    var g' := Inserted(g, cur, k, v, f);
    InsertKeepsTree(s.cells, s'.cells, g, cur, k, v, f);
    LinkKeepsLocks(s, s', g, t, ADone(cur), f);
    forall u | u in s.threads && u != t
      ensures ThreadOk(s'.cells, g', s'.threads[u])
      ensures ClearOk(s', g', u)
    {
      LinkKeepsOther(s, s', g, t, u, cur, k, v, f);
    }
    forall x | x in g' && x != HEAD
      ensures TextOk(s', g', x)
    {
      if x != f { assert TextOk(s, g, x); FluxGrows(s, s', t, x); }
    }
    ReshapeKeepsInv(s, s', g, g', t);
  }

  lemma AddStepKeepsInv(s: State, g: Shape, t: Tid, c: Choice)
    requires Inv(s, g) && t in s.threads && s.threads[t].pc.AMiss?
    ensures Next(s, t, c) != Fault
    ensures Next(s, t, c).Moved? ==> Inv(Next(s, t, c).s, NextShape(s, g, t, c))
  {
    assert ThreadOk(s.cells, g, s.threads[t]);
    if Next(s, t, c).Moved? {
      var cur := s.threads[t].pc.cur;
      ReadsTruth(s, g, t, cur);
      LinkKeepsInv(s, Next(s, t, c).s, g, t, cur, c.node);
    }
  }

  // ---------------------------------------------------------------- bypassing

  lemma BypassKeepsThread(cells: map<Ptr, Cell>, cells': map<Ptr, Cell>, g: Shape, par: Ptr, d: Ptr, k: Name,
      th: Thread)
    requires Tree(cells, g) && Pinned(cells, g, par, d, k)
    requires cells[d].right == NULL || cells[d].left == NULL
    requires Relinks(cells, cells', g, par, k, if cells[d].right == NULL then cells[d].left else cells[d].right)
    requires ThreadOk(cells, g, th) && par !in Relies(th.pc) && d !in Relies(th.pc)
    ensures ThreadOk(cells', Bypassed(cells, g, par, d), th)
  {
    var g' := Bypassed(cells, g, par, d);
    assert NodeOk(cells, g, d);
    forall x | x in g && x != d ensures g'[x].lo <= g[x].lo && g[x].hi <= g'[x].hi {}
    if Descent(th.pc).Some? {
      BypassKeepsSpine(cells, cells', g, par, d, k, th.pc.d, th.pc.p, th.pc.n);
    }
  }

  lemma BypassKeepsSpine(cells: map<Ptr, Cell>, cells': map<Ptr, Cell>, g: Shape, par: Ptr, d: Ptr, k: Name, d2: Ptr,
      p: Ptr, n: Ptr)
    requires Tree(cells, g) && Pinned(cells, g, par, d, k)
    requires cells[d].right == NULL || cells[d].left == NULL
    requires Relinks(cells, cells', g, par, k, if cells[d].right == NULL then cells[d].left else cells[d].right)
    requires d2 in g && d2 in cells && Spine(cells, g, d2, p, n) && {par, d} !! {d2, p, n}
    ensures Spine(cells', Bypassed(cells, g, par, d), d2, p, n)
  {
    assert NodeOk(cells, g, d) && NodeOk(cells, g, d2) && NodeOk(cells, g, n) && NodeOk(cells, g, p);
    NamesDiffer(cells, g, d, d2);
    assert Laminar(cells, g, d2, d) && Laminar(cells, g, d, d2);
  }

  /** No new node comes to lie above a descent. */
  lemma BypassReflectsPassed(cells: map<Ptr, Cell>, g: Shape, par: Ptr, d: Ptr, k: Name, d2: Ptr, p: Ptr, n: Ptr,
      x: Ptr)
    requires Tree(cells, g) && Pinned(cells, g, par, d, k)
    requires cells[d].right == NULL || cells[d].left == NULL
    requires d2 in g && d2 in cells && Spine(cells, g, d2, p, n) && d !in {d2, p, n}
    requires x in g && x != d && Passed(Bypassed(cells, g, par, d), d2, n, x)
    ensures Passed(g, d2, n, x) || Passed(g, d2, n, d)
  {
    assert NodeOk(cells, g, d) && NodeOk(cells, g, n) && NodeOk(cells, g, x);
    NamesDiffer(cells, g, d, d2);
    assert Laminar(cells, g, d, n) && Laminar(cells, g, d, x);
  }

  lemma BypassKeepsOther(s: State, s': State, g: Shape, t: Tid, u: Tid, par: Ptr, d: Ptr, k: Name)
    requires Inv(s, g) && t in s.threads && u in s.threads && u != t
    requires Pinned(s.cells, g, par, d, k) && s.threads[t].op.Remove? && s.threads[t].pc == RHit(par, d)
    requires s.cells[d].right == NULL || s.cells[d].left == NULL
    requires Relinks(s.cells, s'.cells, g, par, k, if s.cells[d].right == NULL then s.cells[d].left
      else s.cells[d].right)
    requires Moves(s, s', t, RUnlP(par, d))
    ensures ThreadOk(s'.cells, Bypassed(s.cells, g, par, d), s'.threads[u])
    ensures Doomed(s.threads[u].pc) != Some(d)
  {
    assert ThreadOk(s.cells, g, s.threads[u]);
    ReliesExclude(s, g, t, u, par);
    ReliesExclude(s, g, t, u, d);
    BypassKeepsThread(s.cells, s'.cells, g, par, d, k, s.threads[u]);
  }

  lemma BypassKeepsClear(s: State, s': State, g: Shape, t: Tid, u: Tid, par: Ptr, d: Ptr, k: Name)
    requires Inv(s, g) && t in s.threads && u in s.threads && u != t
    requires Pinned(s.cells, g, par, d, k) && s.threads[t].op.Remove? && s.threads[t].pc == RHit(par, d)
    requires s.cells[d].right == NULL || s.cells[d].left == NULL
    requires Moves(s, s', t, RUnlP(par, d))
    ensures ClearOk(s', Bypassed(s.cells, g, par, d), u)
  {
    var pc := s.threads[u].pc;
    if Descent(pc).Some? {
      assert ThreadOk(s.cells, g, s.threads[u]) && ClearOk(s, g, u);
      ReliesExclude(s, g, t, u, d);
      UnheldStays(s, s', t, RUnlP(par, d));
      forall x | x in g && x != d && Passed(Bypassed(s.cells, g, par, d), pc.d, pc.n, x)
        ensures Unheld(s', x)
      {
        BypassReflectsPassed(s.cells, g, par, d, k, pc.d, pc.p, pc.n, x);
        assert d in Holding(s.threads[t].pc) && !Unheld(s, d);
      }
    }
  }

  lemma BypassKeepsInv(s: State, s': State, g: Shape, t: Tid, par: Ptr, d: Ptr)
    requires Inv(s, g) && t in s.threads && s.threads[t].op.Remove? && s.threads[t].pc == RHit(par, d)
    requires Pinned(s.cells, g, par, d, s.threads[t].op.name)
    requires s.cells[d].right == NULL || s.cells[d].left == NULL
    requires Relinks(s.cells, s'.cells, g, par, s.threads[t].op.name, if s.cells[d].right == NULL then s.cells[d].left
      else s.cells[d].right)
    requires Moves(s, s', t, RUnlP(par, d)) && s'.locks == s.locks
    ensures Inv(s', Bypassed(s.cells, g, par, d))
  {
    var k := s.threads[t].op.name;
    var g' := Bypassed(s.cells, g, par, d);
    assert NodeOk(s.cells, g, par) && NodeOk(s.cells, g, d);
    BypassKeepsTree(s.cells, s'.cells, g, par, d, k);
    LocksStay(s, s', t, RUnlP(par, d));
    forall u | u in s.threads && u != t
      ensures ThreadOk(s'.cells, g', s'.threads[u])
      ensures ClearOk(s', g', u)
      ensures Doomed(s.threads[u].pc) != Some(d)
    {
      BypassKeepsOther(s, s', g, t, u, par, d, k);
      BypassKeepsClear(s, s', g, t, u, par, d, k);
    }
    forall x | x in g' && x != HEAD
      ensures TextOk(s', g', x)
    {
      assert TextOk(s, g, x);
      FluxGrows(s, s', t, x);
    }
    ReshapeKeepsInv(s, s', g, g', t);
  }

  lemma RemoveStepKeepsInv(s: State, g: Shape, t: Tid, c: Choice)
    requires Inv(s, g) && t in s.threads && s.threads[t].pc.RHit?
    requires var d := s.threads[t].pc.d; d in s.cells && (s.cells[d].right == NULL || s.cells[d].left == NULL)
    ensures Next(s, t, c).Moved? && Inv(Next(s, t, c).s, NextShape(s, g, t, c))
  {
    var par, d := s.threads[t].pc.par, s.threads[t].pc.d;
    assert ThreadOk(s.cells, g, s.threads[t]);
    assert NodeOk(s.cells, g, par) && NodeOk(s.cells, g, d);
    ReadsTruth(s, g, t, par);
    ReadsTruth(s, g, t, d);
    BypassKeepsInv(s, Next(s, t, c).s, g, t, par, d);
  }

  /** With two children, the removal goes on to look for the successor. */
  lemma DescendKeepsInv(s: State, g: Shape, t: Tid, c: Choice)
    requires Inv(s, g) && t in s.threads && s.threads[t].pc.RHit?
    requires var d := s.threads[t].pc.d; d in s.cells && s.cells[d].right != NULL && s.cells[d].left != NULL
    ensures Next(s, t, c).Moved? && Inv(Next(s, t, c).s, NextShape(s, g, t, c))
  {
    assert ThreadOk(s.cells, g, s.threads[t]);
    var par, d := s.threads[t].pc.par, s.threads[t].pc.d;
    GoKeepsInv(s, g, t, RLockN(par, d, s.cells[d].right));
  }

  // ---------------------------------------------------------------- splicing

  lemma SpliceKeepsThread(cells: map<Ptr, Cell>, cells': map<Ptr, Cell>, g: Shape, d: Ptr, p: Ptr, n: Ptr, th: Thread)
    requires Tree(cells, g) && d in g && d != HEAD && Spine(cells, g, d, p, n) && cells[n].left == NULL
    requires Splices(cells, cells', d, p, n)
    requires ThreadOk(cells, g, th) && {d, p, n} !! Relies(th.pc)
    requires forall x :: x in Holding(th.pc) && x in g ==> !Passed(g, d, n, x)
    ensures ThreadOk(cells', Spliced(g, d, p, n), th)
  {
    var g' := Spliced(g, d, p, n);
    assert NodeOk(cells, g, n) && NodeOk(cells, g, d);
    forall x | x in Holding(th.pc) && x in g
      ensures x in g' && g'[x].lo == g[x].lo && g[x].hi <= g'[x].hi && g'[x].name == g[x].name
    {
      assert NodeOk(cells, g, x) && Laminar(cells, g, n, x);
    }
    if Descent(th.pc).Some? {
      SpliceKeepsSpine(cells, cells', g, d, p, n, th.pc.d, th.pc.p, th.pc.n);
    }
  }

  lemma SpliceKeepsSpine(cells: map<Ptr, Cell>, cells': map<Ptr, Cell>, g: Shape, d: Ptr, p: Ptr, n: Ptr, d2: Ptr,
      p2: Ptr, n2: Ptr)
    requires Tree(cells, g) && d in g && d != HEAD && Spine(cells, g, d, p, n) && cells[n].left == NULL
    requires Splices(cells, cells', d, p, n)
    requires d2 in g && d2 in cells && Spine(cells, g, d2, p2, n2) && {d, p, n} !! {d2, p2, n2}
    ensures Spine(cells', Spliced(g, d, p, n), d2, p2, n2)
  {
    NamesDiffer(cells, g, d, d2);
    NothingBetween(cells, g, d, p, n, d2);
    NothingBetween(cells, g, d, p, n, p2);
    NothingBetween(cells, g, d, p, n, n2);
  }

  lemma SpliceReflectsPassed(cells: map<Ptr, Cell>, g: Shape, d: Ptr, p: Ptr, n: Ptr, d2: Ptr, n2: Ptr, x: Ptr)
    requires Tree(cells, g) && d in g && d != HEAD && Spine(cells, g, d, p, n) && cells[n].left == NULL
    requires d2 in g && n2 in g && d2 !in {d, n} && n2 !in {d, n}
    requires x in g && x != n && Passed(Spliced(g, d, p, n), d2, n2, x)
    ensures Passed(g, d2, n2, x)
  {
    NamesDiffer(cells, g, d, d2);
    NamesDiffer(cells, g, n, d2);
    NothingBetween(cells, g, d, p, n, n2);
    if x != d { NothingBetween(cells, g, d, p, n, x); }
    assert NodeOk(cells, g, d) && NodeOk(cells, g, n);
  }

  lemma SpliceKeepsOther(s: State, s': State, g: Shape, t: Tid, u: Tid, par: Ptr, d: Ptr, p: Ptr, n: Ptr)
    requires Inv(s, g) && t in s.threads && u in s.threads && u != t && s.threads[t].pc == RPtr(par, d, p, n)
    requires Walking(s.cells, g, s.threads[t], par, d, p, n) && s.cells[n].left == NULL
    requires Splices(s.cells, s'.cells, d, p, n) && Moves(s, s', t, R2P(par, d, n))
    ensures ThreadOk(s'.cells, Spliced(g, d, p, n), s'.threads[u])
    ensures Doomed(s.threads[u].pc) != Some(n)
  {
    assert ThreadOk(s.cells, g, s.threads[u]);
    SpineIsApart(s.cells, g, par, d, s.threads[t].op.name, n);
    SplicerExcludes(s, g, t, u, d, p, n);
    SpliceKeepsThread(s.cells, s'.cells, g, d, p, n, s.threads[u]);
  }

  /** During the whole descent no other thread is at d, at n, at the node that
      contains *pnext, or at any node that the descent has passed. */
  lemma SplicerExcludes(s: State, g: Shape, t: Tid, u: Tid, d: Ptr, p: Ptr, n: Ptr)
    requires Inv(s, g) && t in s.threads && u in s.threads && u != t && Descent(s.threads[t].pc) == Some((d, n))
    requires p == s.threads[t].pc.p
    ensures d in g && n in g && {d, p, n} !! Relies(s.threads[u].pc)
    ensures forall x :: x in Holding(s.threads[u].pc) && x in g ==> !Passed(g, d, n, x)
  {
    var pc := s.threads[u].pc;
    assert ThreadOk(s.cells, g, s.threads[t]);
    ReliesExclude(s, g, t, u, d);
    ReliesExclude(s, g, t, u, n);
    PnextIsUnheld(s, g, t);
    if Descent(pc).Some? {
      PnextIsUnheld(s, g, u);
      assert ThreadOk(s.cells, g, s.threads[u]);
    }
    assert ClearOk(s, g, t);
    forall x | x in Holding(pc) && x in g
      ensures !Passed(g, d, n, x)
    {
      assert Passed(g, d, n, x) ==> Unheld(s, x);
    }
  }

  lemma SpliceKeepsClear(s: State, s': State, g: Shape, t: Tid, u: Tid, par: Ptr, d: Ptr, p: Ptr, n: Ptr)
    requires Inv(s, g) && t in s.threads && u in s.threads && u != t && s.threads[t].pc == RPtr(par, d, p, n)
    requires Walking(s.cells, g, s.threads[t], par, d, p, n) && s.cells[n].left == NULL && d != HEAD
    requires Moves(s, s', t, R2P(par, d, n))
    ensures ClearOk(s', Spliced(g, d, p, n), u)
  {
    var pc := s.threads[u].pc;
    if Descent(pc).Some? {
      assert ThreadOk(s.cells, g, s.threads[u]) && ClearOk(s, g, u);
      SplicerExcludes(s, g, t, u, d, p, n);
      UnheldStays(s, s', t, R2P(par, d, n));
      forall x | x in g && x != n && Passed(Spliced(g, d, p, n), pc.d, pc.n, x)
        ensures Unheld(s', x)
      {
        SpliceReflectsPassed(s.cells, g, d, p, n, pc.d, pc.n, x);
      }
    }
  }

  lemma SpliceKeepsInv(s: State, s': State, g: Shape, t: Tid, par: Ptr, d: Ptr, p: Ptr, n: Ptr)
    requires Inv(s, g) && t in s.threads && s.threads[t].pc == RPtr(par, d, p, n)
    requires ThreadOk(s.cells, g, s.threads[t])
    requires Splices(s.cells, s'.cells, d, p, n) && Moves(s, s', t, R2P(par, d, n)) && s'.locks == s.locks
    ensures Inv(s', Spliced(g, d, p, n))
  {
    SpineIsApart(s.cells, g, par, d, s.threads[t].op.name, n);
    var g' := Spliced(g, d, p, n);
    SpliceKeepsTree(s.cells, s'.cells, g, d, p, n);
    LocksStay(s, s', t, R2P(par, d, n));
    forall u | u in s.threads && u != t
      ensures ThreadOk(s'.cells, g', s'.threads[u])
      ensures ClearOk(s', g', u)
      ensures Doomed(s.threads[u].pc) != Some(n)
    {
      SpliceKeepsOther(s, s', g, t, u, par, d, p, n);
      SpliceKeepsClear(s, s', g, t, u, par, d, p, n);
    }
    forall x | x in g' && x != HEAD
      ensures TextOk(s', g', x)
    {
      SpliceKeepsText(s, s', g, t, x);
    }
    ReshapeKeepsInv(s, s', g, g', t);
  }

  lemma SpliceStepKeepsInv(s: State, g: Shape, t: Tid, c: Choice)
    requires Inv(s, g) && t in s.threads && s.threads[t].pc.RPtr?
    ensures Next(s, t, c).Moved? && Inv(Next(s, t, c).s, NextShape(s, g, t, c))
  {
    assert ThreadOk(s.cells, g, s.threads[t]);
    var RPtr(par, d, p, n) := s.threads[t].pc;
    SpliceKeepsInv(s, Next(s, t, c).s, g, t, par, d, p, n);
  }

  lemma SpliceKeepsText(s: State, s': State, g: Shape, t: Tid, x: Ptr)
    requires Inv(s, g) && t in s.threads && s.threads[t].pc.RPtr?
    requires var RPtr(par, d, p, n) := s.threads[t].pc;
             && p in s.cells && n in s.cells && Splices(s.cells, s'.cells, d, p, n)
             && s'.threads == s.threads[t := s.threads[t].(pc := R2P(par, d, n))]
             && d in g && n in g && x != n
    requires x in g && x != HEAD
    ensures TextOk(s', Spliced(g, s.threads[t].pc.d, s.threads[t].pc.p, s.threads[t].pc.n), x)
  {
    assert ThreadOk(s.cells, g, s.threads[t]);
    assert TextOk(s, g, x);
    if NameInFlux(s, x) && x != s.threads[t].pc.d {
      var u :| u in s.threads && ((s.threads[u].pc.RVal? || s.threads[u].pc.RPtr?) && s.threads[u].pc.d == x);
      assert s'.threads[u].pc.d == x;
    }
    if ValueInFlux(s, x) && x != s.threads[t].pc.d {
      var u :| u in s.threads && (s.threads[u].pc.RPtr? && s.threads[u].pc.d == x);
      assert s'.threads[u].pc.d == x;
    }
  }

  // ---------------------------------------------------------------- freeing

  /** The node passed to node_destructor is unlocked, awaited by no thread, held
      by no thread, and no pointer of the tree leads to it. */
  lemma FreedIsUnreachable(s: State, g: Shape, t: Tid)
    requires Inv(s, g) && t in s.threads && s.threads[t].pc.RFree?
    ensures var x := s.threads[t].pc.d;
            && x in s.cells && x in s.locks && s.locks[x] == UNLOCKED && !Awaited(s, x) && Unheld(s, x)
            && (forall y :: y in g ==> s.cells[y].left != x && s.cells[y].right != x)
            && (forall u :: u in s.threads && u != t ==> x !in Relies(s.threads[u].pc))
  {
    var x := s.threads[t].pc.d;
    assert ThreadOk(s.cells, g, s.threads[t]);
    forall y | y in g ensures s.cells[y].left != x && s.cells[y].right != x { assert NodeOk(s.cells, g, y); }
    forall u | u in s.threads
      ensures x !in Holding(s.threads[u].pc) && Wants(s.threads[u].pc) != Some(x)
      ensures u != t ==> x !in Relies(s.threads[u].pc)
    {
      UsesOnlyTheTree(s, g, t, u);
    }
    assert LockOk(s, x);
    assert s.locks[x].readers == {};
  }

  lemma UsesOnlyTheTree(s: State, g: Shape, t: Tid, u: Tid)
    requires Inv(s, g) && t in s.threads && u in s.threads && s.threads[t].pc.RFree?
    ensures var x := s.threads[t].pc.d;
            x !in Holding(s.threads[u].pc) && Wants(s.threads[u].pc) != Some(x)
              && (u != t ==> x !in Relies(s.threads[u].pc))
  {
    var x := s.threads[t].pc.d;
    var th := s.threads[u];
    assert ThreadOk(s.cells, g, s.threads[t]) && ThreadOk(s.cells, g, th);
    if x in Holding(th.pc) { HeldIsAllocated(s, g, u, x); }
    match th.pc
    case Lock(cur, nx) => assert NodeOk(s.cells, g, cur);
    case RLockN(par, d, n) => assert NodeOk(s.cells, g, d);
    case RLockL(par, d, p, n, l) => assert NodeOk(s.cells, g, n);
    case _ =>
  }

  lemma FreeKeepsTree(cells: map<Ptr, Cell>, g: Shape, d: Ptr)
    requires Tree(cells, g) && d !in g
    ensures Tree(cells - {d}, g)
  {
    forall x | x in g ensures NodeOk(cells - {d}, g, x) { assert NodeOk(cells, g, x); }
    forall x, y | x in g && y in g && x != y ensures Laminar(cells - {d}, g, x, y) { assert Laminar(cells, g, x, y); }
  }

  lemma FreeKeepsInv(s: State, s': State, g: Shape, t: Tid, d: Ptr)
    requires Inv(s, g) && t in s.threads && s.threads[t].pc == RFree(d) && d !in g && d != HEAD
    requires s'.cells == s.cells - {d} && s'.locks == s.locks - {d} && Moves(s, s', t, Done(Flag(true)))
    ensures Inv(s', g)
  {
    FreeKeepsTree(s.cells, g, d);
    forall x | x in s'.locks ensures LockOk(s', x) { assert LockOk(s, x); }
    UnheldStays(s, s', t, Done(Flag(true)));
    forall u | u in s.threads && u != t
      ensures ThreadOk(s'.cells, g, s'.threads[u])
      ensures ClearOk(s', g, u)
    {
      FreeKeepsThread(s, s', g, t, u);
      assert ClearOk(s, g, u);
    }
    forall x | x in g && x != HEAD ensures TextOk(s', g, x) { assert TextOk(s, g, x); FluxGrows(s, s', t, x); }
    ReshapeKeepsInv(s, s', g, g, t);
  }

  lemma FreeStepKeepsInv(s: State, g: Shape, t: Tid, c: Choice)
    requires Inv(s, g) && t in s.threads && s.threads[t].pc.RFree?
    ensures Next(s, t, c).Moved? && Inv(Next(s, t, c).s, g)
  {
    FreedIsUnreachable(s, g, t);
    assert ThreadOk(s.cells, g, s.threads[t]);
    FreeKeepsInv(s, Next(s, t, c).s, g, t, s.threads[t].pc.d);
  }

  lemma FreeKeepsThread(s: State, s': State, g: Shape, t: Tid, u: Tid)
    requires Inv(s, g) && t in s.threads && u in s.threads && u != t && s.threads[t].pc.RFree?
    requires s'.cells == s.cells - {s.threads[t].pc.d}
    ensures ThreadOk(s'.cells, g, s.threads[u])
  {
    assert ThreadOk(s.cells, g, s.threads[t]) && ThreadOk(s.cells, g, s.threads[u]);
    assert Doomed(s.threads[t].pc) != Doomed(s.threads[u].pc);
  }

  /** No step of any thread faults, and every step keeps the invariant. */
  lemma StepKeepsInv(s: State, g: Shape, t: Tid, c: Choice)
    requires Inv(s, g) && t in s.threads
    ensures Next(s, t, c) != Fault
    ensures Next(s, t, c).Moved? ==> Inv(Next(s, t, c).s, NextShape(s, g, t, c))
  {
    assert ThreadOk(s.cells, g, s.threads[t]);
    match s.threads[t].pc
    case Idle => InvokeKeepsInv(s, g, t, c);
    case Start => StartKeepsInv(s, g, t, c);
    case Look(_) => SearchKeepsInv(s, g, t, c);
    case Lock(_, _) => LockKeepsInv(s, g, t, c);
    case Cmp(_, _) => SearchKeepsInv(s, g, t, c);
    case Advance(_, _) => SearchKeepsInv(s, g, t, c);
    case QMiss(_) => QueryKeepsInv(s, g, t, c);
    case QHit(_, _) => QueryKeepsInv(s, g, t, c);
    case QRead(_) => QueryKeepsInv(s, g, t, c);
    case QDrop(_, _) => QueryKeepsInv(s, g, t, c);
    case AHit(_, _) => AddKeepsInv(s, g, t, c);
    case AHit2(_) => AddKeepsInv(s, g, t, c);
    case AMiss(_) => AddStepKeepsInv(s, g, t, c);
    case ADone(_) => AddKeepsInv(s, g, t, c);
    case RMiss(_) => AddKeepsInv(s, g, t, c);
    case RHit(_, d) =>
      if s.cells[d].right == NULL || s.cells[d].left == NULL { RemoveStepKeepsInv(s, g, t, c); }
      else { DescendKeepsInv(s, g, t, c); }
    case RUnlP(_, _) => UnlockKeepsInv(s, g, t, c);
    case RUnlD(_) => UnlockKeepsInv(s, g, t, c);
    case RFree(_) => FreeStepKeepsInv(s, g, t, c);
    case RLockN(_, _, _) => LockSuccessorKeepsInv(s, g, t, c);
    case RWalk(_, _, _, _) => WalkKeepsInv(s, g, t, c);
    case RLockL(_, _, _, _, _) => LockLeftKeepsInv(s, g, t, c);
    case RUnlN(_, _, _, _, _) => UnlockSpineKeepsInv(s, g, t, c);
    case RName(_, _, _, _) => NameKeepsInv(s, g, t, c);
    case RVal(_, _, _, _) => ValueKeepsInv(s, g, t, c);
    case RPtr(_, _, _, _) => SpliceStepKeepsInv(s, g, t, c);
    case R2P(_, _, _) => UnlockKeepsInv(s, g, t, c);
    case R2D(_, _) => UnlockKeepsInv(s, g, t, c);
    case Done(_) => ReturnKeepsInv(s, g, t, c);
  }
}
