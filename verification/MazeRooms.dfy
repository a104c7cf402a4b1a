/** The rooms of `common.c`, their connections and their neighbours. */
module MazeRooms {

  datatype Direction = North | South | West | East

  datatype Connection = Uninitialized | Open | Wall

  datatype Option<+T> = None | Some(value: T)

  /** A place of the grid, or beside it. */
  datatype Cell = Cell(row: int, col: int)

  datatype Room = Room(row: int, col: int, visited: bool, north: Connection, south: Connection,
                       east: Connection, west: Connection, next: Option<Cell>)

  const ZERO_ROOM := Room(0, 0, false, Uninitialized, Uninitialized, Uninitialized, Uninitialized, None)

  function GetIndex(row: int, col: int, cols: int): int { row * cols + col }

  predicate IsInRange(row: int, col: int, rows: int, cols: int) {
    !(row < 0 || row >= rows || col < 0 || col >= cols)
  }

  function Neighbor(m: Cell, d: Direction): Cell {
    match d
    case North => Cell(m.row - 1, m.col)
    case South => Cell(m.row + 1, m.col)
    case West => Cell(m.row, m.col - 1)
    case East => Cell(m.row, m.col + 1)
  }

  /** get_neighbor, which computes with indices: the index of the room it points to. */
  function GetNeighbor(cols: int, index: int, d: Direction): int
    requires cols > 0
  {
    var row, col := index / cols, index % cols;
    match d
    case North => GetIndex(row - 1, col, cols)
    case South => GetIndex(row + 1, col, cols)
    case West => GetIndex(row, col - 1, cols)
    case East => GetIndex(row, col + 1, cols)
  }

  predicate CheckBounds(row: int, col: int, rows: int, cols: int, d: Direction) {
    if col == 0 && d == West then false
    else if col == cols - 1 && d == East then false
    else if row == 0 && d == North then false
    else if row == rows - 1 && d == South then false
    else true
  }

  lemma IndexSplits(row: int, col: int, cols: int)
    requires 0 <= col < cols && 0 <= row
    ensures GetIndex(row, col, cols) / cols == row && GetIndex(row, col, cols) % cols == col
  {
    var i := row * cols + col;
    var q, r := i / cols, i % cols;
    assert i == q * cols + r && 0 <= r < cols;
    SameQuotient(row, q, col, r, cols);
  }

  lemma SameQuotient(a: int, b: int, r: int, s: int, n: int)
    requires a * n + r == b * n + s && 0 <= r < n && 0 <= s < n
    ensures a == b && r == s
  {
    if a > b { Spread(a, b, n); }
    if b > a { Spread(b, a, n); }
  }

  lemma Spread(a: int, b: int, n: int)
    requires a > b && n > 0
    ensures a * n >= b * n + n
    decreases a - b
  {
    if a > b + 1 {
      Spread(a - 1, b, n);
    }
    assert a * n == (a - 1) * n + n;
  }

  /** Where the bounds check passes, the index arithmetic finds the room next door,
      and the room next door is in the grid; elsewhere there is none. */
  lemma NeighborByIndex(row: int, col: int, rows: int, cols: int, d: Direction)
    requires IsInRange(row, col, rows, cols)
    ensures var n := Neighbor(Cell(row, col), d);
      && (CheckBounds(row, col, rows, cols, d) <==> IsInRange(n.row, n.col, rows, cols))
      && (CheckBounds(row, col, rows, cols, d) ==>
            var i := GetNeighbor(cols, GetIndex(row, col, cols), d);
            i == GetIndex(n.row, n.col, cols) && i / cols == n.row && i % cols == n.col)
  {
    IndexSplits(row, col, cols);
    var n := Neighbor(Cell(row, col), d);
    if IsInRange(n.row, n.col, rows, cols) { IndexSplits(n.row, n.col, cols); }
  }

  function UpdateConnection(m: Room, d: Direction, c: Connection): Room {
    match d
    case North => m.(north := c)
    case South => m.(south := c)
    case West => m.(west := c)
    case East => m.(east := c)
  }

  function GetConnection(m: Room, d: Direction): Connection {
    match d
    case North => m.north
    case South => m.south
    case West => m.west
    case East => m.east
  }

  function GetOppositeDir(d: Direction): Direction {
    match d
    case North => South
    case South => North
    case East => West
    case West => East
  }

  lemma OppositeLeadsBack(m: Cell, d: Direction)
    ensures GetOppositeDir(d) != d && GetOppositeDir(GetOppositeDir(d)) == d
    ensures Neighbor(Neighbor(m, d), GetOppositeDir(d)) == m
  {
  }

  lemma UpdatedConnection(m: Room, d: Direction, c: Connection, e: Direction)
    ensures GetConnection(UpdateConnection(m, d, c), e) == if e == d then c else GetConnection(m, e)
    ensures UpdateConnection(m, d, c).visited == m.visited && UpdateConnection(m, d, c).next == m.next
    ensures UpdateConnection(m, d, c).row == m.row && UpdateConnection(m, d, c).col == m.col
  {
  }

  // ---------------------------------------------------------------- grids

  type Grid = map<Cell, Room>

  /** The rooms by their place. */
  ghost function Rooms(maze: array2<Room>): (g: Grid)
    reads maze
  {
    map r: int, c: int | 0 <= r < maze.Length0 && 0 <= c < maze.Length1 :: Cell(r, c) := maze[r, c]
  }

  lemma RoomAt(maze: array2<Room>, c: Cell)
    ensures c in Rooms(maze) <==> IsInRange(c.row, c.col, maze.Length0, maze.Length1)
    ensures c in Rooms(maze) ==>
      IsInRange(c.row, c.col, maze.Length0, maze.Length1) && Rooms(maze)[c] == maze[c.row, c.col]
  {
  }

  ghost predicate IsOpen(g: Grid, a: Cell, d: Direction) {
    a in g && GetConnection(g[a], d) == Open
  }

  /** The outer sides are not open. */
  ghost predicate Walled(g: Grid) {
    forall a, d :: IsOpen(g, a, d) ==> Neighbor(a, d) in g
  }

  /** A walk through open sides. */
  ghost predicate IsPath(g: Grid, p: seq<Cell>) {
    && p != [] && (forall i :: 0 <= i < |p| ==> p[i] in g)
    && forall i :: 0 <= i < |p| - 1 ==> OpenTo(g, p[i], p[i + 1])
  }

  ghost predicate OpenTo(g: Grid, a: Cell, b: Cell) {
    exists d :: IsOpen(g, a, d) && Neighbor(a, d) == b
  }

  ghost predicate Reachable(g: Grid, a: Cell, b: Cell) {
    exists p :: IsPath(g, p) && p[0] == a && p[|p| - 1] == b
  }

  lemma ReachableSelf(g: Grid, a: Cell)
    requires a in g
    ensures Reachable(g, a, a)
  {
    assert IsPath(g, [a]);
  }

  lemma ReachableTrans(g: Grid, a: Cell, b: Cell, c: Cell)
    requires Reachable(g, a, b) && Reachable(g, b, c)
    ensures Reachable(g, a, c)
  {
    var p :| IsPath(g, p) && p[0] == a && p[|p| - 1] == b;
    var q :| IsPath(g, q) && q[0] == b && q[|q| - 1] == c;
    var r := p + q[1..];
    forall i | 0 <= i < |r| - 1 ensures OpenTo(g, r[i], r[i + 1]) {
      if i < |p| - 1 { assert r[i] == p[i] && r[i + 1] == p[i + 1]; }
      else { assert r[i] == q[i - (|p| - 1)] && r[i + 1] == q[i - (|p| - 1) + 1]; }
    }
    assert IsPath(g, r);
    assert r[|r| - 1] == c;
  }

  lemma ReachableStep(g: Grid, a: Cell, d: Direction)
    requires IsOpen(g, a, d) && Neighbor(a, d) in g
    ensures Reachable(g, a, Neighbor(a, d))
  {
    var p := [a, Neighbor(a, d)];
    assert OpenTo(g, p[0], p[1]);
    assert IsPath(g, p);
  }
}
