/** The maze generator of `generator.c`: a randomised walk that carves a spanning tree. */
module MazeGenerator {
  import opened MazeRooms

  // ---------------------------------------------------------------- what the walk keeps

  /** The walk so far: from which side each room was entered, the rooms in the
      order of their visits, and those whose sides are still being done. */
  datatype Walk = Walk(up: map<Cell, Direction>, rank: map<Cell, nat>, stack: set<Cell>)

  ghost function Conn(g: Grid, c: Cell, d: Direction): Connection {
    if c in g then GetConnection(g[c], d) else Uninitialized
  }

  /** The side d of c is where c, or its neighbour, was entered. */
  ghost predicate Edge(up: map<Cell, Direction>, c: Cell, d: Direction) {
    || (c in up && up[c] == d)
    || (Neighbor(c, d) in up && up[Neighbor(c, d)] == GetOppositeDir(d))
  }

  ghost predicate RoomsOk(g: Grid, w: Walk) {
    && w.stack <= w.rank.Keys
    && (forall c :: c in g ==> (g[c].visited <==> c in w.rank))
    && (forall c :: c in w.rank ==> c in g && g[c].row == c.row && g[c].col == c.col && w.rank[c] < |w.rank|)
    && (forall c, d :: c in g && c !in w.rank ==> Conn(g, c, d) == Uninitialized)
    && (forall c, d :: c in w.rank && c !in w.stack ==> Conn(g, c, d) != Uninitialized)
  }

  ghost predicate Agree(g: Grid, c: Cell, d: Direction) {
    var here, there := Conn(g, c, d), Conn(g, Neighbor(c, d), GetOppositeDir(d));
    here == Uninitialized || there == Uninitialized || here == there
  }

  /** Outer sides are walls, the others lead to rooms visited or about to be
      visited, and rooms agree on the side between them. */
  ghost predicate SidesOk(g: Grid, w: Walk, next: Option<Cell>) {
    && (forall c, d :: c in g && Conn(g, c, d) != Uninitialized ==>
          if Neighbor(c, d) in g then Neighbor(c, d) in w.rank || next == Some(Neighbor(c, d))
            else Conn(g, c, d) == Wall)
    && (forall c, d {:trigger Agree(g, c, d)} :: Agree(g, c, d))
  }

  /** c was entered from an earlier room, whose side is open. */
  ghost predicate Entered(g: Grid, w: Walk, c: Cell)
    requires c in w.up
  {
    var from := Neighbor(c, w.up[c]);
    && from in w.rank && Conn(g, from, GetOppositeDir(w.up[c])) == Open
    && (c in w.rank ==> w.rank[from] < w.rank[c])
  }

  /** The open sides are those between a room and the earlier room it was entered from. */
  ghost predicate TreeOk(g: Grid, w: Walk, next: Option<Cell>, root: Cell) {
    && (forall c, d :: Conn(g, c, d) == Open ==> Edge(w.up, c, d))
    && (forall c :: c in w.up <==> c != root && (c in w.rank || next == Some(c)))
    && (forall c {:trigger Entered(g, w, c)} :: c in w.up ==> Entered(g, w, c))
  }

  ghost predicate WalkOk(g: Grid, w: Walk, next: Option<Cell>, root: Cell) {
    RoomsOk(g, w) && SidesOk(g, w, next) && TreeOk(g, w, next, root)
  }

  /** What was visited stays as it was. */
  ghost predicate Continues(g: Grid, w: Walk, g': Grid, w': Walk) {
    && (forall c :: c in w.rank ==> c in w'.rank && w'.rank[c] == w.rank[c] && c in g && c in g' && g'[c] == g[c])
    && g'.Keys == g.Keys
  }

  ghost function Updated(g: Grid, c: Cell, d: Direction, x: Connection): Grid
    requires c in g
  {
    g[c := UpdateConnection(g[c], d, x)]
  }

  lemma ConnUpdated(g: Grid, c: Cell, d: Direction, x: Connection)
    requires c in g
    ensures forall b, e :: Conn(Updated(g, c, d, x), b, e) == if b == c && e == d then x else Conn(g, b, e)
  {
    forall e { UpdatedConnection(g[c], d, x, e); }
  }

  lemma Enter(g: Grid, w: Walk, root: Cell, m: Cell, g': Grid, w': Walk)
    requires WalkOk(g, w, Some(m), root) && m in g && m !in w.rank
    requires g' == g[m := g[m].(row := m.row, col := m.col, visited := true)]
    requires w' == Walk(w.up, w.rank[m := |w.rank|], w.stack + {m})
    ensures WalkOk(g', w', None, root) && Continues(g, w, g', w') && forall d :: Conn(g', m, d) == Uninitialized
  {
    SameSides(g, m, g');
    EnterRooms(g, w, m, g', w');
    EnterSides(g, w, m, g', w');
    EnterTree(g, w, root, m, g', w');
  }

  lemma SameSides(g: Grid, m: Cell, g': Grid)
    requires m in g && g' == g[m := g[m].(row := m.row, col := m.col, visited := true)]
    ensures forall c, d {:trigger Conn(g', c, d)} :: Conn(g', c, d) == Conn(g, c, d)
  {
  }

  lemma EnterSides(g: Grid, w: Walk, m: Cell, g': Grid, w': Walk)
    requires SidesOk(g, w, Some(m)) && m !in w.rank && g'.Keys == g.Keys
    requires forall c, d {:trigger Conn(g', c, d)} :: Conn(g', c, d) == Conn(g, c, d)
    requires w' == Walk(w.up, w.rank[m := |w.rank|], w.stack + {m})
    ensures SidesOk(g', w', None)
  {
    hide Conn, Neighbor, GetOppositeDir;
    forall c, d ensures Agree(g', c, d) { assert Agree(g, c, d); }
  }

  lemma EnterTree(g: Grid, w: Walk, root: Cell, m: Cell, g': Grid, w': Walk)
    requires TreeOk(g, w, Some(m), root) && m !in w.rank
    requires forall c, d {:trigger Conn(g', c, d)} :: Conn(g', c, d) == Conn(g, c, d)
    requires forall c :: c in w.rank ==> w.rank[c] < |w.rank|
    requires w' == Walk(w.up, w.rank[m := |w.rank|], w.stack + {m})
    ensures TreeOk(g', w', None, root)
  {
    hide Conn, Neighbor, GetOppositeDir, Edge, Entered;
    forall c | c in w.up ensures Entered(g', w', c) {
      assert Entered(g, w, c);
      EnteredStays(g, w, m, g', w', c);
    }
    assert forall c, d :: Conn(g', c, d) == Open ==> Edge(w'.up, c, d);
  }

  lemma EnteredStays(g: Grid, w: Walk, m: Cell, g': Grid, w': Walk, c: Cell)
    requires c in w.up && Entered(g, w, c) && m !in w.rank && w' == Walk(w.up, w.rank[m := |w.rank|], w.stack + {m})
    requires forall c, d {:trigger Conn(g', c, d)} :: Conn(g', c, d) == Conn(g, c, d)
    requires forall c :: c in w.rank ==> w.rank[c] < |w.rank|
    ensures Entered(g', w', c)
  {
  }

  lemma EnterRooms(g: Grid, w: Walk, m: Cell, g': Grid, w': Walk)
    requires RoomsOk(g, w) && m in g && m !in w.rank
    requires g' == g[m := g[m].(row := m.row, col := m.col, visited := true)]
    requires forall c, d {:trigger Conn(g', c, d)} :: Conn(g', c, d) == Conn(g, c, d)
    requires w' == Walk(w.up, w.rank[m := |w.rank|], w.stack + {m})
    ensures RoomsOk(g', w') && (forall d :: Conn(g, m, d) == Uninitialized) && forall c :: c in w.rank ==>
      c in g && w.rank[c] < |w.rank|
  {
    hide Conn;
    OneMore(w.rank, m, |w.rank|);
  }

  lemma OneMore(rank: map<Cell, nat>, m: Cell, k: nat)
    requires m !in rank
    ensures |rank[m := k]| == |rank| + 1
  {
    var rank' := rank[m := k];
    assert rank'.Keys == rank.Keys + {m};
    assert |rank'.Keys| == |rank'| && |rank.Keys| == |rank|;
  }

  /** What may be written for side d of room m: a wall on an outer side and on a side
      to a visited room that has not done its own, else what the other room has. */
  ghost predicate SideIs(g: Grid, w: Walk, m: Cell, d: Direction, x: Connection) {
    if Neighbor(m, d) !in g then x == Wall
    else
      var there := Conn(g, Neighbor(m, d), GetOppositeDir(d));
      Neighbor(m, d) in w.rank && x == if there == Uninitialized then Wall else there
  }

  lemma Side(g: Grid, w: Walk, root: Cell, m: Cell, d: Direction, x: Connection)
    requires WalkOk(g, w, None, root) && m in w.stack && Conn(g, m, d) == Uninitialized && SideIs(g, w, m, d, x)
    ensures WalkOk(Updated(g, m, d, x), w, None, root)
  {
    var g' := Updated(g, m, d, x);
    ConnUpdated(g, m, d, x);
    OppositeLeadsBack(m, d);
    SideRooms(g, w, m, d, x);
    forall c, e ensures Agree(g', c, e) {
      OppositeLeadsBack(c, e);
      assert Agree(g, c, e);
    }
    if x == Open { assert Conn(g, Neighbor(m, d), GetOppositeDir(d)) == Open; }
    forall c, e | Conn(g', c, e) == Open ensures Edge(w.up, c, e) {
      if c == m && e == d { assert Edge(w.up, Neighbor(m, d), GetOppositeDir(d)); }
    }
    forall c | c in w.up ensures Entered(g', w, c) { assert Entered(g, w, c); }
  }

  lemma SideRooms(g: Grid, w: Walk, m: Cell, d: Direction, x: Connection)
    requires RoomsOk(g, w) && m in w.stack
    ensures RoomsOk(Updated(g, m, d, x), w)
  {
    ConnUpdated(g, m, d, x);
    UpdatedConnection(g[m], d, x, d);
    hide Conn;
  }

  /** The side to an unvisited room is carved. */
  lemma OpenUp(g: Grid, w: Walk, root: Cell, m: Cell, d: Direction, w': Walk)
    requires WalkOk(g, w, None, root) && m in w.stack && Conn(g, m, d) == Uninitialized
    requires Neighbor(m, d) in g && Neighbor(m, d) !in w.rank && root in w.rank
    requires w' == w.(up := w.up[Neighbor(m, d) := GetOppositeDir(d)])
    ensures WalkOk(Updated(g, m, d, Open), w', Some(Neighbor(m, d)), root)
  {
    var g', n := Updated(g, m, d, Open), Neighbor(m, d);
    ConnUpdated(g, m, d, Open);
    OppositeLeadsBack(m, d);
    SideRooms(g, w, m, d, Open);
    forall c, e ensures Agree(g', c, e) {
      OppositeLeadsBack(c, e);
      assert Agree(g, c, e);
    }
    forall c, e | Conn(g', c, e) == Open ensures Edge(w'.up, c, e) {
      if !(c == m && e == d) { assert Edge(w.up, c, e); }
    }
    forall c | c in w'.up ensures Entered(g', w', c) {
      if c != n { assert Entered(g, w, c); }
    }
  }

  lemma Leave(g: Grid, w: Walk, root: Cell, m: Cell)
    requires WalkOk(g, w, None, root) && m in w.stack && forall d :: Conn(g, m, d) != Uninitialized
    ensures WalkOk(g, w.(stack := w.stack - {m}), None, root) && Continues(g, w, g, w.(stack := w.stack - {m}))
  {
    var w' := w.(stack := w.stack - {m});
    forall c | c in w.up ensures Entered(g, w', c) { assert Entered(g, w, c); }
  }

  // ---------------------------------------------------------------- the walk

  const DIRS: nat := 4

  function Swapped(s: seq<Direction>, i: nat, j: nat): (r: seq<Direction>)
    requires i < |s| && j < |s|
    ensures |r| == |s|
  {
    s[i := s[j]][j := s[i]]
  }

  /** What the first n swaps make of s, when the i-th is with place numbers[i]. */
  function Shuffled(s: seq<Direction>, numbers: seq<nat>, n: nat): (r: seq<Direction>)
    requires n <= |numbers| && n <= |s| && forall i :: 0 <= i < |numbers| ==> numbers[i] < |s|
    ensures |r| == |s|
  {
    if n == 0 then s else Swapped(Shuffled(s, numbers, n - 1), n - 1, numbers[n - 1])
  }

  lemma SwapKeeps(s: seq<Direction>, i: nat, j: nat)
    requires i < |s| && j < |s|
    ensures multiset(Swapped(s, i, j)) == multiset(s)
  {
  }

  /** Whatever the random numbers are, the directions are put in some order. */
  lemma {:induction false} ShuffleKeeps(s: seq<Direction>, numbers: seq<nat>, n: nat)
    requires n <= |numbers| && n <= |s| && forall i :: 0 <= i < |numbers| ==> numbers[i] < |s|
    ensures multiset(Shuffled(s, numbers, n)) == multiset(s)
  {
    if n > 0 {
      ShuffleKeeps(s, numbers, n - 1);
      SwapKeeps(Shuffled(s, numbers, n - 1), n - 1, numbers[n - 1]);
    }
  }

  /** Every order can come out: there are random numbers for it. */
  lemma {:induction false} AnyOrderComesOut(s: seq<Direction>, order: seq<Direction>, n: nat)
      returns (numbers: seq<nat>)
    requires multiset(order) == multiset(s) && n <= |s|
    ensures |order| == |s| && |numbers| == n && forall i :: 0 <= i < n ==> numbers[i] < |s|
    ensures Shuffled(s, numbers, n)[..n] == order[..n]
  {
    hide Shuffled, Swapped;
    SameLength(s, order);
    if n == 0 {
      numbers := [];
    } else {
      var before := AnyOrderComesOut(s, order, n - 1);
      var t := Shuffled(s, before, n - 1);
      ShuffleKeeps(s, before, n - 1);
      var k := FindFrom(t, order, n - 1);
      numbers := before + [k];
      ShuffledNext(s, before, k, n - 1);
      PlaceNext(t, order, n - 1, k);
    }
  }

  lemma PlaceNext(t: seq<Direction>, order: seq<Direction>, n: nat, k: nat)
    requires n < |t| == |order| && t[..n] == order[..n] && n <= k < |t| && t[k] == order[n]
    ensures Swapped(t, n, k)[..n + 1] == order[..n + 1]
  {
    var r := Swapped(t, n, k);
    forall i | 0 <= i < n ensures r[i] == order[i] { assert t[..n][i] == order[..n][i]; }
  }

  lemma ShuffledNext(s: seq<Direction>, numbers: seq<nat>, k: nat, n: nat)
    requires n == |numbers| < |s| && k < |s| && forall i :: 0 <= i < |numbers| ==> numbers[i] < |s|
    ensures Shuffled(s, numbers + [k], n + 1) == Swapped(Shuffled(s, numbers, n), n, k)
  {
    PrefixShuffles(s, numbers, k, n);
  }

  lemma SameLength(s: seq<Direction>, order: seq<Direction>)
    requires multiset(order) == multiset(s)
    ensures |order| == |s|
  {
    assert |multiset(order)| == |order| && |multiset(s)| == |s|;
  }

  lemma {:induction false} PrefixShuffles(s: seq<Direction>, numbers: seq<nat>, k: nat, n: nat)
    requires n <= |numbers| && n <= |s| && k < |s| && forall i :: 0 <= i < |numbers| ==> numbers[i] < |s|
    ensures Shuffled(s, numbers + [k], n) == Shuffled(s, numbers, n)
  {
    if n > 0 { PrefixShuffles(s, numbers, k, n - 1); }
  }

  /** The next element of the order is among those not yet placed. */
  lemma FindFrom(t: seq<Direction>, order: seq<Direction>, n: nat) returns (k: nat)
    requires multiset(t) == multiset(order) && n < |order| == |t| && t[..n] == order[..n]
    ensures n <= k < |t| && t[k] == order[n]
  {
    assert t == t[..n] + t[n..] && order == order[..n] + order[n..];
    assert multiset(t) == multiset(t[..n]) + multiset(t[n..]);
    assert multiset(order) == multiset(order[..n]) + multiset(order[n..]);
    assert multiset(t[n..]) == multiset(t) - multiset(t[..n]) == multiset(order) - multiset(order[..n]);
    assert multiset(t[n..]) == multiset(order[n..]);
    assert order[n] == order[n..][0] && order[n] in multiset(order[n..]);
    var j :| 0 <= j < |t[n..]| && t[n..][j] == order[n];
    k := n + j;
  }

  /** Swaps each direction with the one at the place that a random number gives. */
  method ShuffleArray(directions: array<Direction>, numbers: seq<nat>)
    requires directions.Length == DIRS == |numbers| && forall i :: 0 <= i < DIRS ==> numbers[i] < DIRS
    modifies directions
    ensures directions[..] == Shuffled(old(directions[..]), numbers, DIRS)
  {
    ghost var s := directions[..];
    for i := 0 to DIRS
      invariant directions[..] == Shuffled(s, numbers, i)
    {
      var index := numbers[i];
      directions[i], directions[index] := directions[index], directions[i];
    }
  }

  lemma AllDirections(dir: seq<Direction>)
    requires |dir| == DIRS && multiset(dir) == multiset{North, South, East, West}
    ensures forall d: Direction :: d in dir
    ensures forall j, k :: 0 <= j < k < DIRS ==> dir[j] != dir[k]
  {
    forall d: Direction ensures d in dir {
      match d {
        case North => assert multiset(dir)[North] == 1;
        case South => assert multiset(dir)[South] == 1;
        case West => assert multiset(dir)[West] == 1;
        case East => assert multiset(dir)[East] == 1;
      }
    }
    forall j, k | 0 <= j < k < DIRS ensures dir[j] != dir[k] {
      assert multiset(dir)[dir[j]] == 1;
      if dir[j] == dir[k] {
        Twice(dir, j, k);
      }
    }
  }

  lemma Twice(s: seq<Direction>, j: nat, k: nat)
    requires j < k < |s| && s[j] == s[k]
    ensures multiset(s)[s[j]] >= 2
  {
    assert s == s[..k] + [s[k]] + s[k + 1..];
    assert multiset(s) == multiset(s[..k]) + multiset{s[k]} + multiset(s[k + 1..]);
    assert s[j] == s[..k][j];
  }

  /** Side d of room m has been done: m's other sides and the other rooms visited
      before stay as they were. */
  ghost predicate SideDone(g: Grid, w: Walk, g': Grid, w': Walk, m: Cell, d: Direction) {
    && w'.stack == w.stack && w.rank.Keys <= w'.rank.Keys && g'.Keys == g.Keys && w.rank.Keys <= g.Keys
    && (forall c :: c in w.rank && c != m ==> w'.rank[c] == w.rank[c] && g'[c] == g[c])
    && forall e :: if e == d then Conn(g', m, e) != Uninitialized else Conn(g', m, e) == Conn(g, m, e)
  }

  lemma ContinuesPast(g0: Grid, w0: Walk, g: Grid, w: Walk, g': Grid, w': Walk, m: Cell, d: Direction)
    requires Continues(g0, w0, g, w) && m !in w0.rank && SideDone(g, w, g', w', m, d)
    ensures Continues(g0, w0, g', w')
  {
  }

  lemma Finished(g0: Grid, w0: Walk, g: Grid, w: Walk, root: Cell, m: Cell)
    requires WalkOk(g, w, None, root) && Continues(g0, w0, g, w) && w.stack == w0.stack + {m} && m !in w0.stack
    requires forall d :: Conn(g, m, d) != Uninitialized
    ensures WalkOk(g, w.(stack := w0.stack), None, root) && Continues(g0, w0, g, w.(stack := w0.stack))
  {
    Leave(g, w, root, m);
    assert w.stack - {m} == w0.stack;
  }

  lemma Written(g: Grid, w: Walk, root: Cell, m: Cell, d: Direction, x: Connection)
    requires WalkOk(g, w, None, root) && m in w.stack && Conn(g, m, d) == Uninitialized && SideIs(g, w, m, d, x)
    ensures m in g && WalkOk(Updated(g, m, d, x), w, None, root) && SideDone(g, w, Updated(g, m, d, x), w, m, d)
  {
    Side(g, w, root, m, d, x);
    ConnUpdated(g, m, d, x);
  }

  lemma Carved(g: Grid, w: Walk, m: Cell, d: Direction, carved: Walk, g': Grid, w': Walk)
    requires m in g && m in w.rank && w.rank.Keys <= g.Keys && carved.rank == w.rank
    requires carved.stack == w.stack == w'.stack
    requires Continues(Updated(g, m, d, Open), carved, g', w')
    ensures SideDone(g, w, g', w', m, d)
  {
    ConnUpdated(g, m, d, Open);
    assert g'[m] == Updated(g, m, d, Open)[m];
    assert forall e :: Conn(g', m, e) == Conn(Updated(g, m, d, Open), m, e);
  }

  lemma WalkSays(g: Grid, w: Walk, next: Option<Cell>, root: Cell, m: Cell)
    requires WalkOk(g, w, next, root) && m in g
    ensures g[m].visited <==> m in w.rank
    ensures w.stack <= w.rank.Keys <= g.Keys
  {
  }

  /** update_connection on the room in place. */
  method UpdateRoom(maze: array2<Room>, row: int, col: int, d: Direction, c: Connection)
    requires IsInRange(row, col, maze.Length0, maze.Length1)
    modifies maze
    ensures Cell(row, col) in old(Rooms(maze)) && Rooms(maze) == Updated(old(Rooms(maze)), Cell(row, col), d, c)
  {
    maze[row, col] := UpdateConnection(maze[row, col], d, c);
    assert Rooms(maze) == Updated(old(Rooms(maze)), Cell(row, col), d, c);
  }

  method Visit(maze: array2<Room>, row: int, col: int)
    requires IsInRange(row, col, maze.Length0, maze.Length1)
    modifies maze
    ensures Cell(row, col) in old(Rooms(maze))
    ensures var g := old(Rooms(maze));
      Rooms(maze) == g[Cell(row, col) := g[Cell(row, col)].(row := row, col := col, visited := true)]
  {
    maze[row, col] := maze[row, col].(row := row, col := col, visited := true);
    assert var g := old(Rooms(maze));
      Rooms(maze) == g[Cell(row, col) := g[Cell(row, col)].(row := row, col := col, visited := true)];
  }

  /** All four directions, each once. */
  ghost predicate InSomeOrder(dirs: seq<Direction>) {
    |dirs| == DIRS && (forall d: Direction :: d in dirs) && forall j, k :: 0 <= j < k < DIRS ==> dirs[j] != dirs[k]
  }

  method RandomOrder() returns (dirs: seq<Direction>)
    ensures |dirs| == DIRS && InSomeOrder(dirs)
  {
    var dir := new Direction[][North, South, East, West];
    assert dir[..] == [North, South, East, West];
    var a: nat, b: nat, c: nat, d: nat :| a < DIRS && b < DIRS && c < DIRS && d < DIRS;
    var numbers := [a, b, c, d];
    ShuffleArray(dir, numbers);
    ShuffleKeeps([North, South, East, West], numbers, DIRS);
    dirs := dir[..];
    AllDirections(dirs);
  }

  /** How many rooms have not been visited. */
  ghost function Rest(g: Grid, w: Walk): nat {
    |g.Keys - w.rank.Keys|
  }

  lemma RestStays(g: Grid, w: Walk, g': Grid, w': Walk)
    requires g'.Keys == g.Keys && w'.rank == w.rank
    ensures Rest(g', w') == Rest(g, w)
  {
  }

  /** There are fewer rooms to visit once m has been visited. */
  lemma FewerLeft(g: Grid, w0: Walk, g': Grid, w: Walk, m: Cell)
    requires Continues(g, w0, g', w) && m in g && m !in w0.rank && m in w.rank
    ensures Rest(g', w) < Rest(g, w0)
  {
    var a, b := g'.Keys - w.rank.Keys, g.Keys - w0.rank.Keys;
    assert a <= b - {m};
    SubsetSize(a, b - {m});
  }

  lemma SubsetSize(a: set<Cell>, b: set<Cell>)
    requires a <= b
    ensures |a| <= |b|
  {
    if a != {} {
      var x :| x in a;
      SubsetSize(a - {x}, b - {x});
    }
  }

  /** Carves from the room (row, col), which has not been visited: it and the rooms
      first reached from it get their sides, and those visited before keep theirs. */
  method DrunkenWalk(maze: array2<Room>, row: int, col: int, rows: int, cols: int, ghost w0: Walk, ghost root: Cell)
    returns (ghost w: Walk)
    requires maze.Length0 == rows && maze.Length1 == cols && IsInRange(row, col, rows, cols)
    requires Cell(row, col) !in w0.rank && (root == Cell(row, col) || root in w0.rank)
    requires WalkOk(Rooms(maze), w0, Some(Cell(row, col)), root)
    modifies maze
    ensures WalkOk(Rooms(maze), w, None, root) && Continues(old(Rooms(maze)), w0, Rooms(maze), w)
    ensures w.stack == w0.stack && Cell(row, col) in w.rank
    decreases Rest(Rooms(maze), w0), 0
  {
    hide WalkOk, Continues, SideDone, Rooms, Conn, DoneUpTo, InSomeOrder, Rest;
    ghost var m, g0 := Cell(row, col), Rooms(maze);
    var dirs := RandomOrder();
    RoomAt(maze, m);
    WalkSays(g0, w0, Some(m), root, m);
    Visit(maze, row, col);
    ghost var g := Rooms(maze);
    w := Walk(w0.up, w0.rank[m := |w0.rank|], w0.stack + {m});
    Enter(g0, w0, root, m, g, w);
    NoneDone(g, m, dirs);
    for i := 0 to DIRS
      invariant g == Rooms(maze)
      invariant WalkOk(g, w, None, root) && Continues(g0, w0, g, w) && w.stack == w0.stack + {m}
      invariant m in w.rank && root in w.rank
      invariant DoneUpTo(g, m, dirs, i)
    {
      ghost var before := w;
      FewerLeft(g0, w0, g, w, m);
      NotDone(g, m, dirs, i);
      w := DoSide(maze, row, col, rows, cols, dirs[i], w, root);
      SideSays(g, before, Rooms(maze), w, m, dirs, i);
      ContinuesPast(g0, w0, g, before, Rooms(maze), w, m, dirs[i]);
      g := Rooms(maze);
    }
    AllDone(g, m, dirs);
    Finished(g0, w0, g, w, root, m);
    w := w.(stack := w0.stack);
  }

  /** The sides of the first i directions have been done, and only those. */
  ghost predicate DoneUpTo(g: Grid, m: Cell, dirs: seq<Direction>, i: int) {
    |dirs| == DIRS && forall k :: 0 <= k < DIRS ==> (Conn(g, m, dirs[k]) == Uninitialized <==> i <= k)
  }

  lemma NotDone(g: Grid, m: Cell, dirs: seq<Direction>, i: int)
    requires DoneUpTo(g, m, dirs, i) && 0 <= i < DIRS
    ensures Conn(g, m, dirs[i]) == Uninitialized
  {
  }

  lemma AllDone(g: Grid, m: Cell, dirs: seq<Direction>)
    requires DoneUpTo(g, m, dirs, DIRS) && InSomeOrder(dirs)
    ensures forall d :: Conn(g, m, d) != Uninitialized
  {
    forall d ensures Conn(g, m, d) != Uninitialized { assert d in dirs; }
  }

  lemma NoneDone(g: Grid, m: Cell, dirs: seq<Direction>)
    requires |dirs| == DIRS && forall d :: Conn(g, m, d) == Uninitialized
    ensures DoneUpTo(g, m, dirs, 0)
  {
  }

  lemma SideSays(g: Grid, w: Walk, g': Grid, w': Walk, m: Cell, dirs: seq<Direction>, i: nat)
    requires i < DIRS && DoneUpTo(g, m, dirs, i) && SideDone(g, w, g', w', m, dirs[i])
    requires InSomeOrder(dirs)
    ensures w'.stack == w.stack && w.rank.Keys <= w'.rank.Keys && g'.Keys == g.Keys
    ensures DoneUpTo(g', m, dirs, i + 1)
  {
    hide Conn;
    forall k | 0 <= k < DIRS ensures Conn(g', m, dirs[k]) == Uninitialized <==> i + 1 <= k {
      if k < i { assert dirs[k] != dirs[i]; } else if k > i { assert dirs[i] != dirs[k]; }
    }
  }

  /** The body of the walk's loop, for side d. */
  method DoSide(maze: array2<Room>, row: int, col: int, rows: int, cols: int, d: Direction, ghost w: Walk,
      ghost root: Cell)
    returns (ghost w': Walk)
    requires maze.Length0 == rows && maze.Length1 == cols && IsInRange(row, col, rows, cols)
    requires Cell(row, col) in w.stack && root in w.rank && Conn(Rooms(maze), Cell(row, col), d) == Uninitialized
    requires WalkOk(Rooms(maze), w, None, root)
    modifies maze
    ensures WalkOk(Rooms(maze), w', None, root) && SideDone(old(Rooms(maze)), w, Rooms(maze), w', Cell(row, col), d)
    decreases Rest(Rooms(maze), w), 1
  {
    hide Rooms, WalkOk, SideDone, Continues, Rest, CheckBounds, GetNeighbor, GetIndex, Neighbor, Updated;
    ghost var m, g := Cell(row, col), Rooms(maze);
    ghost var n := Neighbor(m, d);
    var neighbor := GetNeighbor(cols, GetIndex(row, col, cols), d);
    NeighborByIndex(row, col, rows, cols, d);
    RoomAt(maze, m);
    RoomAt(maze, n);
    WalkSays(g, w, None, root, m);
    w' := w;
    if !CheckBounds(row, col, rows, cols, d) || !IsInRange(neighbor / cols, neighbor % cols, rows, cols) {
      Written(g, w, root, m, d, Wall);
      UpdateRoom(maze, row, col, d, Wall);
    } else {
      var nr, nc := neighbor / cols, neighbor % cols;
      assert n == Cell(nr, nc);
      WalkSays(g, w, None, root, n);
      if !maze[nr, nc].visited {
        w' := w.(up := w.up[n := GetOppositeDir(d)]);
        OpenUp(g, w, root, m, d, w');
        UpdateRoom(maze, row, col, d, Open);
        ghost var carved := w';
        assert Rooms(maze).Keys == g.Keys by { UpdatedKeys(g, m, d, Open); }
        RestStays(g, w, Rooms(maze), carved);
        w' := DrunkenWalk(maze, nr, nc, rows, cols, carved, root);
        Carved(g, w, m, d, carved, Rooms(maze), w');
      } else {
        var opposite := GetOppositeDir(d);
        var connect := GetConnection(maze[nr, nc], opposite);
        if connect == Wall || connect == Open {
          Written(g, w, root, m, d, connect);
          UpdateRoom(maze, row, col, d, connect);
        } else {
          Written(g, w, root, m, d, Wall);
          UpdateRoom(maze, row, col, d, Wall);
        }
      }
    }
  }

  lemma UpdatedKeys(g: Grid, m: Cell, d: Direction, x: Connection)
    requires m in g
    ensures Updated(g, m, d, x).Keys == g.Keys
  {
  }
}
