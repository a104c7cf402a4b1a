/** Reachability, the safety of the late pointer write, and deadlock freedom. */
module DatabaseProgress {
  import opened Database
  import opened DatabaseTree
  import opened DatabaseSafety
  import opened DatabaseReshape

  // ---------------------------------------------------------------- the tree is what the pointers reach

  ghost predicate Edge(cells: map<Ptr, Cell>, x: Ptr, y: Ptr) {
    x in cells && y in cells && y != NULL && (y == cells[x].left || y == cells[x].right)
  }

  /** path follows child pointers down to x. */
  ghost predicate Under(cells: map<Ptr, Cell>, path: seq<Ptr>, x: Ptr) {
    && path != [] && path[0] in cells && path[|path| - 1] == x
    && (forall i :: 1 <= i < |path| ==> Edge(cells, path[i - 1], path[i]))
  }

  ghost predicate IsPath(cells: map<Ptr, Cell>, path: seq<Ptr>, x: Ptr) {
    Under(cells, path, x) && path[0] == HEAD
  }

  ghost predicate Reachable(cells: map<Ptr, Cell>, x: Ptr) {
    exists path :: IsPath(cells, path, x)
  }

  /** The nodes whose subtree intervals contain x's. */
  ghost function Above(g: Shape, x: Ptr): set<Ptr>
    requires x in g
  {
    set y | y in g && g[y].lo <= g[x].lo && g[x].hi <= g[y].hi
  }

  lemma {:induction false} TreeIsReachable(cells: map<Ptr, Cell>, g: Shape, x: Ptr)
    requires Tree(cells, g) && x in g
    ensures Reachable(cells, x)
    decreases Above(g, x)
  {
    if x == HEAD {
      assert IsPath(cells, [HEAD], HEAD);
    } else {
      assert NodeOk(cells, g, x);
      var p := g[x].parent;
      assert NodeOk(cells, g, p);
      assert x in Above(g, x) && x !in Above(g, p);
      TreeIsReachable(cells, g, p);
      var path :| IsPath(cells, path, p);
      assert IsPath(cells, path + [x], x);
    }
  }

  lemma {:induction false} ReachableIsTree(cells: map<Ptr, Cell>, g: Shape, path: seq<Ptr>, x: Ptr)
    requires Tree(cells, g) && IsPath(cells, path, x)
    ensures x in g
  {
    if |path| > 1 {
      var y := path[|path| - 2];
      assert IsPath(cells, path[..|path| - 1], y);
      ReachableIsTree(cells, g, path[..|path| - 1], y);
      assert NodeOk(cells, g, y);
    }
  }

  lemma {:induction false} SubtreeInside(cells: map<Ptr, Cell>, g: Shape, path: seq<Ptr>, x: Ptr)
    requires Tree(cells, g) && Under(cells, path, x) && path[0] in g
    ensures x in g && g[path[0]].lo <= g[x].lo && g[x].hi <= g[path[0]].hi
  {
    if |path| > 1 {
      var y := path[|path| - 2];
      assert Under(cells, path[..|path| - 1], y);
      SubtreeInside(cells, g, path[..|path| - 1], y);
      assert NodeOk(cells, g, y);
    }
  }

  // ---------------------------------------------------------------- the late pointer write

  /** When db_remove writes *pnext into a node p it unlocked long before, no
      other thread holds p or waits for its lock, and every node held by another
      thread from which pointers lead down to p is a proper ancestor of the
      write-locked node d: the way to p goes through d. */
  lemma LateWriteIsSafe(s: State, g: Shape, t: Tid, u: Tid, path: seq<Ptr>)
    requires Inv(s, g) && t in s.threads && u in s.threads && t != u && s.threads[t].pc.RPtr?
    requires Under(s.cells, path, s.threads[t].pc.p) && path[0] in Holding(s.threads[u].pc) && path[0] in g
    ensures s.threads[t].pc.p !in Holding(s.threads[u].pc) && Wants(s.threads[u].pc) != Some(s.threads[t].pc.p)
    ensures WriteHolds(s.threads[t], s.threads[t].pc.d)
    ensures var x, d := path[0], s.threads[t].pc.d;
            d in g && x != d && g[x].lo <= g[d].lo && g[d].hi <= g[x].hi
  {
    var RPtr(par, d, p, n) := s.threads[t].pc;
    assert ThreadOk(s.cells, g, s.threads[t]) && ThreadOk(s.cells, g, s.threads[u]);
    var x := path[0];
    SplicerExcludes(s, g, t, u, d, p, n);
    SubtreeInside(s.cells, g, path, p);
    assert NodeOk(s.cells, g, p) && NodeOk(s.cells, g, x) && NodeOk(s.cells, g, d);
    assert Laminar(s.cells, g, x, d) && Laminar(s.cells, g, d, x);
    assert NodeOk(s.cells, g, n) && Laminar(s.cells, g, x, n) && Laminar(s.cells, g, p, x);
    NobodyWantsPassed(s, g, t, u, p);
  }

  /** The node above one that the descent has passed is d or was passed before it. */
  lemma PassedParent(s: State, g: Shape, t: Tid, x: Ptr)
    requires Inv(s, g) && t in s.threads && Descent(s.threads[t].pc).Some? && x in g
    requires var (d, n) := Descent(s.threads[t].pc).value; d in g && n in g && Passed(g, d, n, x)
    ensures var (d, n) := Descent(s.threads[t].pc).value;
            x != HEAD && g[x].parent in g && (g[x].parent == d || Passed(g, d, n, g[x].parent))
  {
    var (d, n) := Descent(s.threads[t].pc).value;
    assert ThreadOk(s.cells, g, s.threads[t]);
    assert NodeOk(s.cells, g, d) && NodeOk(s.cells, g, x);
    var y := g[x].parent;
    assert NodeOk(s.cells, g, y);
    if y != d { NamesDiffer(s.cells, g, d, y); }
  }

  /** During the whole descent nobody waits for a node that it has passed, nor for
      the one that contains *pnext. */
  lemma NobodyWantsPassed(s: State, g: Shape, t: Tid, u: Tid, x: Ptr)
    requires Inv(s, g) && t in s.threads && u in s.threads && t != u && Descent(s.threads[t].pc).Some? && x in g
    requires var (d, n) := Descent(s.threads[t].pc).value;
             d in g && n in g && (Passed(g, d, n, x) || x == s.threads[t].pc.p)
    ensures Wants(s.threads[u].pc) != Some(x)
  {
    var (d, n) := Descent(s.threads[t].pc).value;
    var p, par := s.threads[t].pc.p, s.threads[t].pc.par;
    assert ThreadOk(s.cells, g, s.threads[t]);
    assert NodeOk(s.cells, g, par) && NodeOk(s.cells, g, p) && NodeOk(s.cells, g, d);
    SplicerExcludes(s, g, t, u, d, p, n);
    ReliesExclude(s, g, t, u, par);
    if Passed(g, d, n, x) { PassedParent(s, g, t, x); }
    if Wants(s.threads[u].pc).Some? && !s.threads[u].pc.Start? {
      var y := WantsChildOfHeld(s, g, u);
    }
  }

  /** A thread only ever waits for a child of a node that it holds. */
  lemma WantsChildOfHeld(s: State, g: Shape, u: Tid) returns (y: Ptr)
    requires Inv(s, g) && u in s.threads && Wants(s.threads[u].pc).Some? && !s.threads[u].pc.Start?
    ensures y in g && y in s.cells && y in Holding(s.threads[u].pc)
    ensures var x := Wants(s.threads[u].pc).value;
            x != NULL && (s.cells[y].left == x || s.cells[y].right == x) && x in g && g[x].parent == y
    ensures forall z :: z in Holding(s.threads[u].pc) ==> z in g && g[z].lo <= g[y].lo && g[y].hi <= g[z].hi
  {
    assert ThreadOk(s.cells, g, s.threads[u]);
    match s.threads[u].pc
    case Lock(cur, nx) => y := cur; assert NodeOk(s.cells, g, cur);
    case RLockN(par, d, n) => y := d; assert NodeOk(s.cells, g, par) && NodeOk(s.cells, g, d);
    case RLockL(par, d, p, n, l) =>
      y := n;
      assert NodeOk(s.cells, g, par) && NodeOk(s.cells, g, d) && NodeOk(s.cells, g, n);
  }

  /** Waiting leads strictly downwards: if u holds what t waits for and waits
      itself, then u waits for a node strictly inside that subtree. No cycle of
      threads waiting for one another can close. */
  lemma WaitsGoDown(s: State, g: Shape, u: Tid, x: Ptr)
    requires Inv(s, g) && u in s.threads && x in Holding(s.threads[u].pc) && Wants(s.threads[u].pc).Some?
    ensures var z := Wants(s.threads[u].pc).value;
            x in g && z in g && x != z && g[x].lo <= g[z].lo && g[z].hi <= g[x].hi
              && g[z].hi - g[z].lo < g[x].hi - g[x].lo
  {
    var y := WantsChildOfHeld(s, g, u);
    assert NodeOk(s.cells, g, y);
  }

  ghost function Inside(g: Shape, x: Ptr): set<Ptr>
    requires x in g
  {
    set y | y in g && g[x].lo <= g[y].lo && g[y].hi <= g[x].hi
  }

  /** A thread that waits for nothing can always step. */
  lemma UnblockedMoves(s: State, g: Shape, t: Tid, c: Choice)
    requires Inv(s, g) && t in s.threads && Wants(s.threads[t].pc) == None
    requires c.node !in s.cells && c.node != NULL
    ensures Next(s, t, c).Moved?
  {
    StepKeepsInv(s, g, t, c);
  }

  /** Whoever blocks t, directly or through a chain, there is a running thread that can step. */
  lemma {:induction false} FindMover(s: State, g: Shape, t: Tid, c: Choice) returns (u: Tid)
    requires Inv(s, g) && t in s.threads && Wants(s.threads[t].pc).Some? && Wants(s.threads[t].pc).value in g
    requires c.node !in s.cells && c.node != NULL
    ensures u in s.threads && s.threads[u].pc != Idle && Next(s, u, c).Moved?
    decreases Inside(g, Wants(s.threads[t].pc).value)
  {
    var x := Wants(s.threads[t].pc).value;
    StepKeepsInv(s, g, t, c);
    if Next(s, t, c).Moved? {
      u := t;
    } else {
      u := Holder(s, g, x);
      if Wants(s.threads[u].pc) == None {
        UnblockedMoves(s, g, u, c);
      } else {
        WaitsGoDown(s, g, u, x);
        assert x in Inside(g, x) && x !in Inside(g, Wants(s.threads[u].pc).value);
        u := FindMover(s, g, u, c);
      }
    }
  }

  lemma Holder(s: State, g: Shape, x: Ptr) returns (u: Tid)
    requires Inv(s, g) && x in s.locks && s.locks[x] != UNLOCKED
    ensures u in s.threads && x in Holding(s.threads[u].pc)
  {
    assert LockOk(s, x);
    if s.locks[x].writer.Some? { u := s.locks[x].writer.value; } else { u :| u in s.locks[x].readers; }
  }

  /** Deadlock freedom: while any operation is under way, some operation can step. */
  lemma NoDeadlock(s: State, g: Shape, t: Tid, c: Choice) returns (u: Tid)
    requires Inv(s, g) && t in s.threads && s.threads[t].pc != Idle
    requires c.node !in s.cells && c.node != NULL
    ensures u in s.threads && s.threads[u].pc != Idle && Next(s, u, c).Moved?
  {
    if Wants(s.threads[t].pc) == None {
      UnblockedMoves(s, g, t, c);
      u := t;
    } else {
      if !s.threads[t].pc.Start? { var y := WantsChildOfHeld(s, g, t); }
      u := FindMover(s, g, t, c);
    }
  }
}
