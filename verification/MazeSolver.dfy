/** Encoding a maze, as `generator.c` does, and the solver of `solver.c`. */
module MazeSolver {
  import opened MazeRooms
  import opened MazeGenerator
  import opened MazeTree

  // ---------------------------------------------------------------- encoding

  /** check_connect, which aborts on an uninitialised side. */
  function CheckConnect(c: Connection): int
    requires c != Uninitialized
  {
    if c == Open then 0 else 1
  }

  predicate Initialized(m: Room) {
    m.north != Uninitialized && m.south != Uninitialized && m.east != Uninitialized && m.west != Uninitialized
  }

  /** Whether the binary digit of that value is set. */
  predicate HasBit(hex: int, value: int)
    requires value > 0
  {
    hex / value % 2 == 1
  }

  /** The digit for a room, or the room for a digit: the bits 1, 2, 4 and 8 stand for
      a wall in the north, south, west and east, and the sides without their bit are open. */
  predicate Shows(hex: int, m: Room) {
    && 0 <= hex < 16 && Initialized(m)
    && (m.north == Wall <==> HasBit(hex, 1))
    && (m.south == Wall <==> HasBit(hex, 2))
    && (m.west == Wall <==> HasBit(hex, 4))
    && (m.east == Wall <==> HasBit(hex, 8))
  }

  /** The documented digit: 0xb has walls on all sides but the west. */
  lemma ShowsDocumented(m: Room)
    ensures Shows(0xb, m) <==> m.north == m.south == m.east == Wall && m.west == Open
  {
  }

  function EncodeRoom(m: Room): (hex: int)
    requires Initialized(m)
    ensures Shows(hex, m)
  {
    CheckConnect(m.east) * 8 + CheckConnect(m.west) * 4 + CheckConnect(m.south) * 2 + CheckConnect(m.north)
  }

  /** hex_to_dir, for the one-bit masks that it is used with. */
  predicate HexToDir(dir: int, hex: int)
    requires dir > 0
  {
    (hex / dir) % 2 != 0
  }

  /** Sets the four sides from a hexadecimal digit. */
  method CreateRoomConnections(room: Room, hex: int) returns (m: Room)
    requires 0 <= hex < 16
    ensures Shows(hex, m)
    ensures m == room.(north := m.north, south := m.south, east := m.east, west := m.west)
  {
    var dirvs := [1, 2, 8, 4];
    var dirs := [North, South, East, West];
    m := room;
    for i := 0 to DIRS
      invariant forall k :: 0 <= k < i ==> GetConnection(m, dirs[k]) == if HexToDir(dirvs[k], hex) then Wall else Open
      invariant m == room.(north := m.north, south := m.south, east := m.east, west := m.west)
    {
      if HexToDir(dirvs[i], hex) {
        m := UpdateConnection(m, dirs[i], Wall);
      } else {
        m := UpdateConnection(m, dirs[i], Open);
      }
    }
    assert GetConnection(m, dirs[0]) == m.north && GetConnection(m, dirs[1]) == m.south
      && GetConnection(m, dirs[2]) == m.east && GetConnection(m, dirs[3]) == m.west;
  }

  /** A digit is for one combination of sides, and a combination has one digit, so
      decoding restores what was encoded. */
  lemma DecodeRestores(a: int, b: int, m: Room, m': Room)
    requires Shows(a, m) && Shows(b, m')
    ensures a == b <==> forall d :: GetConnection(m, d) == GetConnection(m', d)
  {
    BitsMakeDigit(a);
    BitsMakeDigit(b);
    SidesByName(m);
    SidesByName(m');
    hide HasBit;
  }

  lemma BitsMakeDigit(hex: int)
    requires 0 <= hex < 16
    ensures hex == (if HasBit(hex, 1) then 1 else 0) + (if HasBit(hex, 2) then 2 else 0)
      + (if HasBit(hex, 4) then 4 else 0) + (if HasBit(hex, 8) then 8 else 0)
  {
  }

  lemma SidesByName(m: Room)
    ensures GetConnection(m, North) == m.north && GetConnection(m, South) == m.south
    ensures GetConnection(m, East) == m.east && GetConnection(m, West) == m.west
  {
  }

  method EncodeMaze(maze: array2<Room>, result: array2<int>)
    requires result.Length0 == maze.Length0 && result.Length1 == maze.Length1
    requires forall c :: c in Rooms(maze) ==> Initialized(Rooms(maze)[c])
    modifies result
    ensures forall r, c :: 0 <= r < maze.Length0 && 0 <= c < maze.Length1 ==>
      Shows(result[r, c], maze[r, c])
  {
    forall r, c | 0 <= r < maze.Length0 && 0 <= c < maze.Length1
      ensures Initialized(maze[r, c])
    {
      RoomAt(maze, Cell(r, c));
    }
    for i := 0 to maze.Length0
      invariant forall r, c :: 0 <= r < i && 0 <= c < maze.Length1 ==> Shows(result[r, c], maze[r, c])
    {
      for k := 0 to maze.Length1
        invariant forall r, c :: 0 <= r < maze.Length0 && 0 <= c < maze.Length1 && (r < i || (r == i && c < k)) ==>
          Shows(result[r, c], maze[r, c])
      {
        result[i, k] := EncodeRoom(maze[i, k]);
      }
    }
  }

  /** A room read from a digit, at its place, neither marked nor linked. */
  predicate IsRead(hex: int, row: int, col: int, m: Room) {
    Shows(hex, m) && m.row == row && m.col == col && !m.visited && m.next == None
  }

  /** The part of the solver's main that builds its maze from the digits read. */
  method ReadMaze(digits: array2<int>) returns (maze: array2<Room>)
    requires forall r, c :: 0 <= r < digits.Length0 && 0 <= c < digits.Length1 ==> 0 <= digits[r, c] < 16
    ensures fresh(maze) && maze.Length0 == digits.Length0 && maze.Length1 == digits.Length1
    ensures forall r, c :: 0 <= r < digits.Length0 && 0 <= c < digits.Length1 ==>
      IsRead(digits[r, c], r, c, maze[r, c])
  {
    maze := new Room[digits.Length0, digits.Length1]((i, j) => ZERO_ROOM);
    for i := 0 to digits.Length0
      invariant forall r, c :: 0 <= r < i && 0 <= c < digits.Length1 ==>
        IsRead(digits[r, c], r, c, maze[r, c])
      invariant forall r, c :: i <= r < digits.Length0 && 0 <= c < digits.Length1 ==> maze[r, c] == ZERO_ROOM
    {
      for k := 0 to digits.Length1
        invariant forall r, c :: 0 <= r < digits.Length0 && 0 <= c < digits.Length1 && (r < i || (r == i && c < k)) ==>
          IsRead(digits[r, c], r, c, maze[r, c])
        invariant forall r, c :: 0 <= r < digits.Length0 && 0 <= c < digits.Length1 && (r > i || (r == i && c >= k)) ==>
          maze[r, c] == ZERO_ROOM
      {
        var room := CreateRoomConnections(maze[i, k], digits[i, k]);
        maze[i, k] := room.(row := i, col := k, visited := false);
      }
    }
  }

  // ---------------------------------------------------------------- depth-first search

  /** Rooms know their places, and outer sides are not open. */
  ghost predicate Searchable(g: Grid) {
    Walled(g) && forall c :: c in g ==> g[c].row == c.row && g[c].col == c.col
  }

  ghost function Visited(g: Grid): (s: set<Cell>)
    ensures forall c :: c in s <==> c in g && g[c].visited
  {
    set c | c in g && g[c].visited
  }

  /** Only marks and links have changed, and marks have only been added. */
  ghost predicate Searched(g: Grid, g': Grid) {
    && g'.Keys == g.Keys && Visited(g) <= Visited(g')
    && forall c :: c in g ==> g'[c] == g[c].(visited := g'[c].visited, next := g'[c].next)
  }

  /** Every room marked since g has marked neighbours only, and is not the goal. */
  ghost predicate Closed(g: Grid, g': Grid, goal: Cell) {
    && goal !in Visited(g') - Visited(g)
    && forall c, d :: c in Visited(g') - Visited(g) && IsOpen(g', c, d) ==> Neighbor(c, d) in Visited(g')
  }

  /** The links from m on are an open path to the goal, and no other link has changed. */
  ghost predicate Linked(g: Grid, g': Grid, path: seq<Cell>, m: Cell, goal: Cell) {
    && IsPath(g', path) && path[0] == m && path[|path| - 1] == goal
    && (forall i :: 0 <= i < |path| - 1 ==>
      path[i] in g' && g'[path[i]].next == Some(path[i + 1]) && path[i] in Visited(g') - Visited(g))
    && (forall i, j :: 0 <= i < j < |path| ==> path[i] != path[j])
    && (forall c :: c in g && c !in path[..|path| - 1] ==> c in g' && g'[c].next == g[c].next)
  }

  /** What dfs has done to the maze when it returns. */
  ghost predicate Explored(g: Grid, g': Grid, found: bool, path: seq<Cell>, m: Cell, goal: Cell) {
    && Searched(g, g')
    && (found ==> Linked(g, g', path, m, goal))
    && (!found ==> m in Visited(g') && Closed(g, g', goal) && forall c :: c in g ==> c in g' && g'[c].next == g[c].next)
  }

  /** Inside the loop at m: as Closed, but of m only the first i sides count. */
  ghost predicate Closing(g: Grid, g': Grid, m: Cell, goal: Cell, i: int) {
    && Searched(g, g') && 0 <= i <= DIRS && m in g && m in Visited(g') - Visited(g) && goal !in Visited(g') - Visited(g)
    && (forall c, d :: c in Visited(g') - Visited(g) && c != m && IsOpen(g, c, d) ==> Neighbor(c, d) in Visited(g'))
    && (forall k :: 0 <= k < i ==> IsOpen(g, m, Order(k)) ==> Neighbor(m, Order(k)) in Visited(g'))
    && (forall c :: c in g ==> c in g' && g'[c].next == g[c].next)
  }

  /** The order in which dfs tries the sides. */
  function Order(k: int): Direction {
    if k == 0 then North else if k == 1 then South else if k == 2 then East else West
  }

  lemma SameSides(g: Grid, g': Grid)
    requires Searched(g, g')
    ensures forall c, d :: IsOpen(g', c, d) <==> IsOpen(g, c, d)
    ensures forall a, b :: OpenTo(g', a, b) <==> OpenTo(g, a, b)
    ensures Searchable(g) ==> Searchable(g')
  {
    forall c, d ensures IsOpen(g', c, d) <==> IsOpen(g, c, d) {}
    forall a, b ensures OpenTo(g', a, b) <==> OpenTo(g, a, b) {
      if OpenTo(g, a, b) { var d :| IsOpen(g, a, d) && Neighbor(a, d) == b; assert IsOpen(g', a, d); }
      if OpenTo(g', a, b) { var d :| IsOpen(g', a, d) && Neighbor(a, d) == b; assert IsOpen(g, a, d); }
    }
  }

  lemma Marked(g: Grid, m: Cell, goal: Cell, g': Grid)
    requires m in g && !g[m].visited && m != goal && g' == g[m := g[m].(visited := true)]
    ensures Closing(g, g', m, goal, 0) && Visited(g') == Visited(g) + {m}
  {
    assert Visited(g') == Visited(g) + {m};
  }

  /** Side i needs no search, or its search has failed. */
  lemma Passed(g: Grid, g1: Grid, m: Cell, goal: Cell, i: int, g2: Grid)
    requires Closing(g, g1, m, goal, i) && i < DIRS && Searched(g1, g2) && Closed(g1, g2, goal)
    requires forall c :: c in g1 ==> c in g2 && g2[c].next == g1[c].next
    requires IsOpen(g, m, Order(i)) ==> Neighbor(m, Order(i)) in Visited(g2)
    ensures Closing(g, g2, m, goal, i + 1)
  {
    SameSides(g, g1);
    SameSides(g1, g2);
    forall c, d | c in Visited(g2) - Visited(g) && c != m && IsOpen(g, c, d) ensures Neighbor(c, d) in Visited(g2) {
      if c in Visited(g1) { assert Neighbor(c, d) in Visited(g1); } else { assert IsOpen(g2, c, d); }
    }
  }

  lemma AllPassed(g: Grid, g': Grid, m: Cell, goal: Cell)
    requires Closing(g, g', m, goal, DIRS)
    ensures Explored(g, g', false, [], m, goal)
  {
    SameSides(g, g');
    forall c, d | c in Visited(g') - Visited(g) && IsOpen(g', c, d) ensures Neighbor(c, d) in Visited(g') {
      assert IsOpen(g, c, d);
      if c == m {
        var k := match d case North => 0 case South => 1 case East => 2 case West => 3;
        assert Order(k) == d;
      }
    }
  }

  /** The search through side i has succeeded. */
  lemma Succeeded(g: Grid, g1: Grid, m: Cell, goal: Cell, i: int, g2: Grid, path: seq<Cell>, g3: Grid)
    requires Closing(g, g1, m, goal, i) && i < DIRS && m != goal && IsOpen(g, m, Order(i))
    requires Neighbor(m, Order(i)) !in Visited(g1)
    requires Searched(g1, g2) && Linked(g1, g2, path, Neighbor(m, Order(i)), goal)
    requires m in g2 && g3 == g2[m := g2[m].(next := Some(Neighbor(m, Order(i))))]
    ensures Explored(g, g3, true, [m] + path, m, goal)
  {
    var n, p := Neighbor(m, Order(i)), [m] + path;
    SearchedOn(g, g1, g2, m, n, g3);
    forall j | 0 <= j < |path| ensures path[j] != m {
      if j < |path| - 1 { assert path[j] in Visited(g2) - Visited(g1); }
    }
    PathGrows(g, g2, m, Order(i), path, g3);
    hide IsPath, OpenTo, IsOpen, Searched;
    forall j | 0 <= j < |p| - 1
      ensures p[j] in g3 && g3[p[j]].next == Some(p[j + 1]) && p[j] in Visited(g3) - Visited(g)
    {
      if j > 0 { assert p[j] == path[j - 1] && p[j + 1] == path[j]; }
    }
    assert p[..|p| - 1] == [m] + path[..|path| - 1];
  }

  lemma SearchedOn(g: Grid, g1: Grid, g2: Grid, m: Cell, n: Cell, g3: Grid)
    requires Searched(g, g1) && Searched(g1, g2) && m in Visited(g1) && m in g2
    requires g3 == g2[m := g2[m].(next := Some(n))]
    ensures Visited(g3) == Visited(g2) && Searched(g, g3) && forall a, b :: OpenTo(g2, a, b) <==> OpenTo(g, a, b)
  {
    assert Visited(g3) == Visited(g2);
    SameSides(g1, g2);
    SameSides(g, g1);
  }

  lemma PathGrows(g: Grid, g2: Grid, m: Cell, d: Direction, path: seq<Cell>, g3: Grid)
    requires IsPath(g2, path) && IsOpen(g, m, d) && path[0] == Neighbor(m, d) && m in g3
    requires Searched(g, g3) && g3.Keys == g2.Keys && forall a, b :: OpenTo(g2, a, b) <==> OpenTo(g, a, b)
    ensures IsPath(g3, [m] + path)
  {
    var p := [m] + path;
    SameSides(g, g3);
    assert OpenTo(g, m, path[0]);
    forall j | 0 <= j < |p| - 1 ensures OpenTo(g3, p[j], p[j + 1]) {
      if j > 0 {
        assert p[j] == path[j - 1] && p[j + 1] == path[j];
        assert OpenTo(g2, path[j - 1], path[j - 1 + 1]);
      } else {
        assert p[0] == m && p[1] == path[0];
      }
    }
    forall j | 0 <= j < |p| ensures p[j] in g3 { if j > 0 { assert p[j] == path[j - 1]; } }
  }

  lemma FewerUnmarked(g: Grid, g': Grid, m: Cell, goal: Cell, i: int)
    requires Closing(g, g', m, goal, i)
    ensures |g'.Keys - Visited(g')| < |g.Keys - Visited(g)|
  {
    var a, b := g'.Keys - Visited(g'), g.Keys - Visited(g);
    assert a <= b - {m};
    SubsetSize(a, b - {m});
  }

  lemma ClosingSays(g: Grid, g': Grid, m: Cell, goal: Cell, i: int, d: Direction)
    requires Searchable(g) && Closing(g, g', m, goal, i)
    ensures Searchable(g') && (IsOpen(g', m, d) <==> IsOpen(g, m, d)) && m in g'
    ensures IsOpen(g', m, d) ==> Neighbor(m, d) in g'
  {
    SameSides(g, g');
  }

  /** Nothing was searched, or the search of a neighbour failed. */
  lemma NothingNew(g: Grid, goal: Cell)
    ensures Searched(g, g) && Closed(g, g, goal)
  {
  }

  lemma ExploredSays(g: Grid, g': Grid, path: seq<Cell>, n: Cell, goal: Cell, found: bool)
    requires Explored(g, g', found, path, n, goal)
    ensures Searched(g, g') && g'.Keys == g.Keys
    ensures found ==> Linked(g, g', path, n, goal)
    ensures !found ==> n in Visited(g') && Closed(g, g', goal) && forall c :: c in g ==>
      c in g' && g'[c].next == g[c].next
  {
  }

  lemma AtGoal(g: Grid, m: Cell)
    requires m in g
    ensures Explored(g, g, true, [m], m, m)
  {
    assert IsPath(g, [m]);
  }

  /** Searches from (row, col), which is not marked. */
  method Dfs(row: int, col: int, goal: Cell, rows: int, cols: int, maze: array2<Room>)
      returns (found: bool, ghost path: seq<Cell>)
    requires maze.Length0 == rows && maze.Length1 == cols && IsInRange(row, col, rows, cols)
    requires Searchable(Rooms(maze)) && !maze[row, col].visited
    modifies maze
    ensures Explored(old(Rooms(maze)), Rooms(maze), found, path, Cell(row, col), goal)
    decreases |Rooms(maze).Keys - Visited(Rooms(maze))|
  {
    hide Rooms, Searchable, Visited, Searched, Closed, Linked, Explored, Closing, IsOpen, Order, GetNeighbor, GetIndex,
      Neighbor, CheckBounds;
    ghost var m, g := Cell(row, col), Rooms(maze);
    RoomAt(maze, m);
    if row == goal.row && col == goal.col {
      AtGoal(g, m);
      return true, [m];
    }
    SetVisited(maze, row, col);
    var dirs := [North, South, East, West];
    ghost var g1 := Rooms(maze);
    Marked(g, m, goal, g1);
    for i := 0 to DIRS
      invariant g1 == Rooms(maze) && Closing(g, g1, m, goal, i)
    {
      assert dirs[i] == Order(i) by { OrderIs(); }
      ghost var n := Neighbor(m, dirs[i]);
      var neighbor := GetNeighbor(cols, GetIndex(row, col, cols), dirs[i]);
      NeighborByIndex(row, col, rows, cols, dirs[i]);
      ClosingSays(g, g1, m, goal, i, dirs[i]);
      NothingNew(g1, goal);
      RoomAt(maze, m);
      RoomAt(maze, n);
      OpenIs(g1, m, dirs[i]);
      if GetConnection(maze[row, col], dirs[i]) == Open {
        VisitedIs(g1, n);
        PlaceIs(g1, n);
      }
      if GetConnection(maze[row, col], dirs[i]) == Open && !maze[neighbor / cols, neighbor % cols].visited {
        var next := maze[neighbor / cols, neighbor % cols];
        FewerUnmarked(g, g1, m, goal, i);
        ghost var rest;
        found, rest := Dfs(next.row, next.col, goal, rows, cols, maze);
        ghost var g2 := Rooms(maze);
        ExploredSays(g1, g2, rest, n, goal, found);
        if found {
          SetNext(maze, row, col, Cell(next.row, next.col));
          Succeeded(g, g1, m, goal, i, g2, rest, Rooms(maze));
          return true, [m] + rest;
        }
        Passed(g, g1, m, goal, i, g2);
        g1 := g2;
      } else {
        Passed(g, g1, m, goal, i, g1);
      }
    }
    AllPassed(g, g1, m, goal);
    return false, [];
  }

  lemma OrderIs()
    ensures Order(0) == North && Order(1) == South && Order(2) == East && Order(3) == West
  {
  }

  lemma OpenIs(g: Grid, m: Cell, d: Direction)
    requires m in g
    ensures IsOpen(g, m, d) <==> GetConnection(g[m], d) == Open
  {
  }

  lemma VisitedIs(g: Grid, n: Cell)
    ensures n in Visited(g) <==> n in g && g[n].visited
  {
  }

  lemma PlaceIs(g: Grid, n: Cell)
    requires Searchable(g) && n in g
    ensures g[n].row == n.row && g[n].col == n.col
  {
  }

  method SetVisited(maze: array2<Room>, row: int, col: int)
    requires IsInRange(row, col, maze.Length0, maze.Length1)
    modifies maze
    ensures Cell(row, col) in old(Rooms(maze))
    ensures var g := old(Rooms(maze)); Rooms(maze) == g[Cell(row, col) := g[Cell(row, col)].(visited := true)]
  {
    maze[row, col] := maze[row, col].(visited := true);
    assert var g := old(Rooms(maze)); Rooms(maze) == g[Cell(row, col) := g[Cell(row, col)].(visited := true)];
  }

  method SetNext(maze: array2<Room>, row: int, col: int, next: Cell)
    requires IsInRange(row, col, maze.Length0, maze.Length1)
    modifies maze
    ensures Cell(row, col) in old(Rooms(maze))
    ensures var g := old(Rooms(maze)); Rooms(maze) == g[Cell(row, col) := g[Cell(row, col)].(next := Some(next))]
  {
    maze[row, col] := maze[row, col].(next := Some(next));
    assert var g := old(Rooms(maze)); Rooms(maze) == g[Cell(row, col) := g[Cell(row, col)].(next := Some(next))];
  }

  // ---------------------------------------------------------------- what the search tells

  /** From an unmarked maze, the search succeeds exactly when the goal can be reached. */
  lemma FoundIffReachable(g: Grid, g': Grid, found: bool, path: seq<Cell>, m: Cell, goal: Cell)
    requires Explored(g, g', found, path, m, goal) && Visited(g) == {} && m in g
    ensures found <==> Reachable(g, m, goal)
  {
    SameSides(g, g');
    if found {
      assert IsPath(g, path);
    } else if Reachable(g, m, goal) {
      var p :| IsPath(g, p) && p[0] == m && p[|p| - 1] == goal;
      StaysClosed(g, g', goal, p, |p| - 1);
    }
  }

  lemma {:induction false} StaysClosed(g: Grid, g': Grid, goal: Cell, p: seq<Cell>, i: nat)
    requires Searched(g, g') && Closed(g, g', goal) && Visited(g) == {} && IsPath(g, p) && i < |p|
    requires p[0] in Visited(g')
    ensures p[i] in Visited(g')
  {
    if i > 0 {
      StaysClosed(g, g', goal, p, i - 1);
      SameSides(g, g');
      assert OpenTo(g, p[i - 1], p[i - 1 + 1]);
      var d :| IsOpen(g, p[i - 1], d) && Neighbor(p[i - 1], d) == p[i];
      assert IsOpen(g', p[i - 1], d);
    }
  }

  /** traverse: the rooms that the links lead to from m; in a maze that had no
      links they are the path that was found, and end. */
  lemma {:induction false} TraverseIsPath(g: Grid, g': Grid, path: seq<Cell>, m: Cell, goal: Cell, i: nat)
    requires Linked(g, g', path, m, goal) && i < |path| && g'.Keys == g.Keys && forall c :: c in g ==> g[c].next == None
    ensures Follows(g', path[i..])
    decreases |path| - i
  {
    assert path[i..][1..] == path[i + 1..];
    if i < |path| - 1 {
      TraverseIsPath(g, g', path, m, goal, i + 1);
    } else {
      assert path[i] !in path[..|path| - 1];
    }
  }

  /** The links lead through p and end there. */
  ghost predicate Follows(g: Grid, p: seq<Cell>)
    decreases |p|
  {
    p != [] && p[0] in g &&
    if |p| == 1 then g[p[0]].next == None else g[p[0]].next == Some(p[1]) && Follows(g, p[1..])
  }

  // ---------------------------------------------------------------- generator and solver together

  /** The solver's maze has the walls of the generator's. */
  ghost predicate SameWalls(g: Grid, g': Grid) {
    && g'.Keys == g.Keys
    && forall c, d {:trigger GetConnection(g'[c], d)} :: c in g ==> GetConnection(g'[c], d) == GetConnection(g[c], d)
  }

  lemma ReachableAlike(g: Grid, g': Grid, a: Cell, b: Cell)
    requires SameWalls(g, g') && Reachable(g, a, b)
    ensures Reachable(g', a, b)
  {
    var p :| IsPath(g, p) && p[0] == a && p[|p| - 1] == b;
    forall i | 0 <= i < |p| - 1 ensures OpenTo(g', p[i], p[i + 1]) {
      assert OpenTo(g, p[i], p[i + 1]);
      var d :| IsOpen(g, p[i], d) && Neighbor(p[i], d) == p[i + 1];
      assert IsOpen(g', p[i], d);
    }
    assert IsPath(g', p);
  }

  /** m' was read from the digit that m was written as. */
  ghost predicate ReadBack(c: Cell, m: Room, m': Room) {
    exists hex :: Shows(hex, m) && IsRead(hex, c.row, c.col, m')
  }

  /** What the solver reads of an encoded complete maze: the same walls, every room
      in its place, nothing marked or linked. */
  lemma ReadIsSearchable(g: Grid, g': Grid)
    requires Complete(g) && g'.Keys == g.Keys
    requires forall c :: c in g ==> ReadBack(c, g[c], g'[c])
    ensures SameWalls(g, g') && Searchable(g') && Visited(g') == {} && forall c :: c in g' ==> g'[c].next == None
  {
    forall c, d | c in g ensures GetConnection(g'[c], d) == GetConnection(g[c], d) {
      var hex :| Shows(hex, g[c]) && IsRead(hex, c.row, c.col, g'[c]);
      DecodeRestores(hex, hex, g[c], g'[c]);
    }
    forall c, d | IsOpen(g', c, d) ensures Neighbor(c, d) in g' {
      assert GetConnection(g'[c], d) == GetConnection(g[c], d);
    }
  }

  lemma CompleteIsInitialized(g: Grid)
    requires Complete(g)
    ensures forall c :: c in g ==> Initialized(g[c])
  {
    forall c | c in g ensures Initialized(g[c]) {
      assert GetConnection(g[c], North) != Uninitialized && GetConnection(g[c], South) != Uninitialized;
      assert GetConnection(g[c], East) != Uninitialized && GetConnection(g[c], West) != Uninitialized;
    }
  }

  /** Writes a complete maze out and reads it back. */
  method WriteAndRead(made: array2<Room>) returns (maze: array2<Room>)
    requires Complete(Rooms(made))
    ensures fresh(maze) && maze.Length0 == made.Length0 && maze.Length1 == made.Length1
    ensures SameWalls(Rooms(made), Rooms(maze)) && Searchable(Rooms(maze)) && Visited(Rooms(maze)) == {}
    ensures forall c :: c in Rooms(maze) ==> Rooms(maze)[c].next == None
  {
    hide Complete, SameWalls, Searchable, Visited;
    ghost var g := Rooms(made);
    CompleteIsInitialized(g);
    var digits := new int[made.Length0, made.Length1]((i, j) => 0);
    EncodeMaze(made, digits);
    assert Rooms(made) == g;
    maze := ReadMaze(digits);
    ghost var g' := Rooms(maze);
    forall c ensures c in g <==> c in g' {
      RoomAt(made, c);
      RoomAt(maze, c);
    }
    forall c | c in g
      ensures ReadBack(c, g[c], g'[c])
    {
      RoomAt(made, c);
      RoomAt(maze, c);
      assert IsRead(digits[c.row, c.col], c.row, c.col, g'[c]);
    }
    ReadIsSearchable(g, g');
  }

  lemma SolvedMaze(g: Grid, g': Grid, found: bool, path: seq<Cell>, start: Cell, goal: Cell)
    requires Explored(g, g', found, path, start, goal) && Visited(g) == {} && start in g && Reachable(g, start, goal)
    requires forall c :: c in g ==> g[c].next == None
    ensures found && Follows(g', path) && IsPath(g', path) && path[0] == start && path[|path| - 1] == goal
  {
    FoundIffReachable(g, g', found, path, start, goal);
    TraverseIsPath(g, g', path, start, goal, 0);
    assert path[0..] == path;
  }

  /** A generated maze, written out and read back, is solved between any two rooms,
      and the links lead along open sides from the start to the goal. */
  method GenerateAndSolve(rows: nat, cols: nat, start: Cell, goal: Cell)
    returns (maze: array2<Room>, found: bool, ghost path: seq<Cell>)
    requires IsInRange(start.row, start.col, rows, cols) && IsInRange(goal.row, goal.col, rows, cols)
    ensures found && Follows(Rooms(maze), path) && IsPath(Rooms(maze), path) && path[0] == start
    ensures path[|path| - 1] == goal
  {
    hide Complete, SpanningTree, SameWalls, Searchable, Visited, Reachable, Rooms;
    var made, up, rank := Generate(rows, cols);
    RoomAt(made, start);
    RoomAt(made, goal);
    AllConnected(Rooms(made), Cell(0, 0), up, rank, start, goal);
    maze := WriteAndRead(made);
    ghost var g := Rooms(maze);
    ReachableAlike(Rooms(made), g, start, goal);
    RoomAt(maze, start);
    VisitedIs(g, start);
    found, path := Dfs(start.row, start.col, goal, rows, cols, maze);
    SolvedMaze(g, Rooms(maze), found, path, start, goal);
  }
}
