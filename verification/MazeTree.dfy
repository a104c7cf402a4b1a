/** What the finished walk of `generator.c` has made: a spanning tree of the grid. */
module MazeTree {
  import opened MazeRooms
  import opened MazeGenerator

  /** No side is left open-ended: all are known, outer sides are walls, and
      neighbours agree on the side between them. */
  ghost predicate Complete(g: Grid) {
    && (forall c, d {:trigger GetConnection(g[c], d)} :: c in g ==> GetConnection(g[c], d) != Uninitialized)
    && (forall c, d {:trigger GetConnection(g[c], d)} :: c in g && Neighbor(c, d) !in g ==>
      GetConnection(g[c], d) == Wall)
    && (forall c, d {:trigger GetConnection(g[c], d)} :: c in g && Neighbor(c, d) in g ==>
          GetConnection(g[c], d) == GetConnection(g[Neighbor(c, d)], GetOppositeDir(d)))
  }

  /** The open sides are those between each room but the root and its parent, which
      the side up leads to, and parents come earlier: no cycle, and all connected. */
  ghost predicate SpanningTree(g: Grid, root: Cell, up: map<Cell, Direction>, rank: map<Cell, nat>) {
    && root in g && up.Keys == g.Keys - {root} && rank.Keys == g.Keys
    && (forall c :: c in up ==> Neighbor(c, up[c]) in g && rank[Neighbor(c, up[c])] < rank[c])
    && (forall c, d :: IsOpen(g, c, d) <==> c in g && Neighbor(c, d) in g && Edge(up, c, d))
  }

  /** The walk has reached every room of the grid. */
  lemma {:induction false} Covers(maze: array2<Room>, w: Walk, row: nat, col: nat)
    requires WalkOk(Rooms(maze), w, None, Cell(0, 0)) && w.stack == {} && Cell(0, 0) in w.rank
    requires row < maze.Length0 && col < maze.Length1
    ensures Cell(row, col) in w.rank
    decreases row + col
  {
    hide WalkOk, Rooms;
    RoomAt(maze, Cell(row, col));
    if col > 0 {
      Covers(maze, w, row, col - 1);
      NextDoor(Rooms(maze), w, Cell(0, 0), Cell(row, col - 1), East);
    } else if row > 0 {
      Covers(maze, w, row - 1, col);
      NextDoor(Rooms(maze), w, Cell(0, 0), Cell(row - 1, col), South);
    }
  }

  /** Every neighbour of a room that the walk has finished was reached, too. */
  lemma NextDoor(g: Grid, w: Walk, root: Cell, c: Cell, d: Direction)
    requires WalkOk(g, w, None, root) && w.stack == {} && c in w.rank && Neighbor(c, d) in g
    ensures Neighbor(c, d) in w.rank
  {
    assert Conn(g, c, d) != Uninitialized;
  }

  lemma WalkIsComplete(g: Grid, w: Walk, root: Cell)
    requires WalkOk(g, w, None, root) && w.stack == {} && w.rank.Keys == g.Keys
    ensures Complete(g) && forall c :: c in g ==> g[c].visited
  {
    forall c, d | c in g ensures Conn(g, c, d) != Uninitialized {}
    forall c, d | c in g && Neighbor(c, d) in g
      ensures GetConnection(g[c], d) == GetConnection(g[Neighbor(c, d)], GetOppositeDir(d))
    {
      assert Agree(g, c, d);
      assert Conn(g, c, d) != Uninitialized && Conn(g, Neighbor(c, d), GetOppositeDir(d)) != Uninitialized;
    }
    forall c, d | c in g && Neighbor(c, d) !in g ensures GetConnection(g[c], d) == Wall {
      assert Conn(g, c, d) != Uninitialized;
    }
  }

  lemma WalkIsTree(g: Grid, w: Walk, root: Cell)
    requires WalkOk(g, w, None, root) && w.stack == {} && w.rank.Keys == g.Keys && root in g && Complete(g)
    ensures SpanningTree(g, root, w.up, w.rank)
  {
    forall c | c in w.up ensures Neighbor(c, w.up[c]) in g && w.rank[Neighbor(c, w.up[c])] < w.rank[c] {
      assert Entered(g, w, c);
    }
    forall c, d ensures IsOpen(g, c, d) <==> c in g && Neighbor(c, d) in g && Edge(w.up, c, d) {
      WalkEdge(g, w, root, c, d);
    }
  }

  lemma WalkEdge(g: Grid, w: Walk, root: Cell, c: Cell, d: Direction)
    requires WalkOk(g, w, None, root) && w.rank.Keys == g.Keys && Complete(g)
    ensures IsOpen(g, c, d) <==> c in g && Neighbor(c, d) in g && Edge(w.up, c, d)
  {
    OppositeLeadsBack(c, d);
    if IsOpen(g, c, d) { assert Conn(g, c, d) == Open; }
    if c in g && Neighbor(c, d) in g {
      var n, e := Neighbor(c, d), GetOppositeDir(d);
      if c in w.up && w.up[c] == d {
        assert Entered(g, w, c) && GetConnection(g[c], d) == GetConnection(g[n], e);
      }
      if n in w.up && w.up[n] == e {
        assert Entered(g, w, n) && GetConnection(g[n], e) == GetConnection(g[c], d);
      }
    }
  }

  /** zero_maze. */
  method ZeroMaze(maze: array2<Room>)
    modifies maze
    ensures forall c :: c in Rooms(maze) ==> Rooms(maze)[c] == ZERO_ROOM
  {
    for i := 0 to maze.Length0
      invariant forall r, c :: 0 <= r < i && 0 <= c < maze.Length1 ==> maze[r, c] == ZERO_ROOM
    {
      for k := 0 to maze.Length1
        invariant forall r, c :: 0 <= r < maze.Length0 && 0 <= c < maze.Length1 && (r < i || (r == i && c < k)) ==>
          maze[r, c] == ZERO_ROOM
      {
        maze[i, k] := ZERO_ROOM;
      }
    }
    forall c | c in Rooms(maze) ensures Rooms(maze)[c] == ZERO_ROOM { RoomAt(maze, c); }
  }

  /** The part of the generator's main that makes the maze: whatever the random
      numbers, every room is visited and the open sides form a spanning tree. */
  method Generate(rows: nat, cols: nat)
      returns (maze: array2<Room>, ghost up: map<Cell, Direction>, ghost rank: map<Cell, nat>)
    requires rows > 0 && cols > 0
    ensures fresh(maze) && maze.Length0 == rows && maze.Length1 == cols
    ensures Complete(Rooms(maze)) && SpanningTree(Rooms(maze), Cell(0, 0), up, rank)
    ensures forall c :: c in Rooms(maze) ==> Rooms(maze)[c].visited
  {
    maze := new Room[rows, cols]((i, j) => ZERO_ROOM);
    ZeroMaze(maze);
    RoomAt(maze, Cell(0, 0));
    Untouched(Rooms(maze), Cell(0, 0));
    ghost var w := DrunkenWalk(maze, 0, 0, rows, cols, Walk(map[], map[], {}), Cell(0, 0));
    forall c | c in Rooms(maze) ensures c in w.rank {
      RoomAt(maze, c);
      Covers(maze, w, c.row, c.col);
    }
    RoomAt(maze, Cell(0, 0));
    WalkSays(Rooms(maze), w, None, Cell(0, 0), Cell(0, 0));
    assert w.rank.Keys == Rooms(maze).Keys;
    WalkIsComplete(Rooms(maze), w, Cell(0, 0));
    WalkIsTree(Rooms(maze), w, Cell(0, 0));
    up, rank := w.up, w.rank;
  }

  lemma Untouched(g: Grid, root: Cell)
    requires forall c :: c in g ==> g[c] == ZERO_ROOM
    ensures WalkOk(g, Walk(map[], map[], {}), Some(root), root)
  {
    forall c, d ensures Conn(g, c, d) == Uninitialized {}
  }

  // ---------------------------------------------------------------- what a spanning tree means

  /** Every room is reached from the root, and reaches it. */
  lemma {:induction false} RootReaches(g: Grid, root: Cell, up: map<Cell, Direction>, rank: map<Cell, nat>, c: Cell)
    requires SpanningTree(g, root, up, rank) && Complete(g) && c in g
    ensures Reachable(g, c, root) && Reachable(g, root, c)
    decreases rank[c]
  {
    if c == root {
      ReachableSelf(g, c);
    } else {
      var d := up[c];
      var n := Neighbor(c, d);
      OppositeLeadsBack(c, d);
      assert Edge(up, c, d) && IsOpen(g, c, d);
      assert Edge(up, n, GetOppositeDir(d)) && IsOpen(g, n, GetOppositeDir(d));
      RootReaches(g, root, up, rank, n);
      ReachableStep(g, c, d);
      ReachableStep(g, n, GetOppositeDir(d));
      ReachableTrans(g, c, n, root);
      ReachableTrans(g, root, n, c);
    }
  }

  /** There is a way between any two rooms. */
  lemma AllConnected(g: Grid, root: Cell, up: map<Cell, Direction>, rank: map<Cell, nat>, a: Cell, b: Cell)
    requires SpanningTree(g, root, up, rank) && Complete(g) && a in g && b in g
    ensures Reachable(g, a, b)
  {
    RootReaches(g, root, up, rank, a);
    RootReaches(g, root, up, rank, b);
    ReachableTrans(g, a, root, b);
  }

  /** A closed walk through open sides that visits no room twice. */
  ghost predicate IsCycle(g: Grid, p: seq<Cell>) {
    && |p| >= 3 && IsPath(g, p) && OpenTo(g, p[|p| - 1], p[0])
    && forall i, j :: 0 <= i < j < |p| ==> p[i] != p[j]
  }

  /** Open sides lead to the parent or from it. */
  lemma OpenIsParent(g: Grid, root: Cell, up: map<Cell, Direction>, rank: map<Cell, nat>, a: Cell, b: Cell)
    requires SpanningTree(g, root, up, rank) && (OpenTo(g, a, b) || OpenTo(g, b, a))
    ensures a in g && b in g && rank[a] >= rank[b] ==> a in up && Neighbor(a, up[a]) == b
  {
    if OpenTo(g, a, b) {
      var d :| IsOpen(g, a, d) && Neighbor(a, d) == b;
      OppositeLeadsBack(a, d);
    } else {
      var d :| IsOpen(g, b, d) && Neighbor(b, d) == a;
      OppositeLeadsBack(b, d);
    }
  }

  lemma HighestOf(p: seq<Cell>, rank: map<Cell, nat>) returns (k: nat)
    requires p != [] && forall i :: 0 <= i < |p| ==> p[i] in rank
    ensures k < |p| && forall i :: 0 <= i < |p| ==> rank[p[i]] <= rank[p[k]]
  {
    if |p| == 1 {
      k := 0;
    } else {
      var j := HighestOf(p[..|p| - 1], rank);
      k := if rank[p[|p| - 1]] > rank[p[j]] then |p| - 1 else j;
      forall i | 0 <= i < |p| ensures rank[p[i]] <= rank[p[k]] {
        if i < |p| - 1 { assert p[i] == p[..|p| - 1][i]; }
      }
    }
  }

  /** There is no cycle: the room of a cycle that was visited last would have two parents. */
  lemma NoCycles(g: Grid, root: Cell, up: map<Cell, Direction>, rank: map<Cell, nat>, p: seq<Cell>)
    requires SpanningTree(g, root, up, rank)
    ensures !IsCycle(g, p)
  {
    if IsCycle(g, p) {
      var k := HighestOf(p, rank);
      var before, after := if k == 0 then |p| - 1 else k - 1, if k == |p| - 1 then 0 else k + 1;
      assert before != after;
      assert OpenTo(g, p[before], p[k]) && OpenTo(g, p[k], p[after]);
      OpenIsParent(g, root, up, rank, p[k], p[before]);
      OpenIsParent(g, root, up, rank, p[k], p[after]);
    }
  }
}
