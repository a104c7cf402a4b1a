/** The maze file as a whole: what the generator writes and what the solver finds
    in it, told by the digits alone. */
module MazeFiles {
  import opened MazeRooms
  import opened MazeGenerator
  import opened MazeTree
  import opened MazeSolver

  /** One step from a to b: the bit for that side of a's digit is clear. North is
      the row before, bit 1; south 2; west is the column before, bit 4; east 8. */
  ghost predicate Doorway(digits: array2<int>, a: Cell, b: Cell)
    reads digits
  {
    && IsRoom(digits, a) && IsRoom(digits, b)
    && var hex := digits[a.row, a.col];
       || (b == Cell(a.row - 1, a.col) && !HasBit(hex, 1))
       || (b == Cell(a.row + 1, a.col) && !HasBit(hex, 2))
       || (b == Cell(a.row, a.col - 1) && !HasBit(hex, 4))
       || (b == Cell(a.row, a.col + 1) && !HasBit(hex, 8))
  }

  predicate IsRoom(digits: array2<int>, c: Cell) {
    0 <= c.row < digits.Length0 && 0 <= c.col < digits.Length1
  }

  /** A walk along open sides. */
  ghost predicate Way(digits: array2<int>, p: seq<Cell>)
    reads digits
  {
    && p != [] && (forall i :: 0 <= i < |p| ==> IsRoom(digits, p[i]))
    && forall i :: 0 <= i < |p| - 1 ==> Doorway(digits, p[i], p[i + 1])
  }

  /** A walk that comes back to where it began without using a side twice. */
  ghost predicate Round(digits: array2<int>, p: seq<Cell>)
    reads digits
  {
    && |p| >= 3 && Way(digits, p) && Doorway(digits, p[|p| - 1], p[0])
    && forall i, j :: 0 <= i < j < |p| ==> p[i] != p[j]
  }

  ghost predicate Connects(digits: array2<int>, p: seq<Cell>, a: Cell, b: Cell)
    reads digits
  {
    Way(digits, p) && p[0] == a && p[|p| - 1] == b
  }

  /** Digits, with walls all round. */
  ghost predicate Bordered(digits: array2<int>)
    reads digits
  {
    forall r, c :: 0 <= r < digits.Length0 && 0 <= c < digits.Length1 ==>
      var hex := digits[r, c];
      && 0 <= hex < 16
      && (r == 0 ==> HasBit(hex, 1)) && (r == digits.Length0 - 1 ==> HasBit(hex, 2))
      && (c == 0 ==> HasBit(hex, 4)) && (c == digits.Length1 - 1 ==> HasBit(hex, 8))
  }

  /** Rooms side by side say the same of the side between them. */
  ghost predicate SidesMatch(digits: array2<int>)
    reads digits
  {
    && (forall r, c :: 0 < r < digits.Length0 && 0 <= c < digits.Length1 ==>
          (HasBit(digits[r, c], 1) <==> HasBit(digits[r - 1, c], 2)))
    && (forall r, c :: 0 <= r < digits.Length0 && 0 < c < digits.Length1 ==>
          (HasBit(digits[r, c], 4) <==> HasBit(digits[r, c - 1], 8)))
  }

  /** The rooms that the digits show. */
  ghost predicate ShownBy(digits: array2<int>, g: Grid)
    reads digits
  {
    && (forall c :: c in g <==> IsRoom(digits, c))
    && (forall c :: c in g ==> Shows(digits[c.row, c.col], g[c]))
  }

  lemma DoorwayIsOpening(digits: array2<int>, g: Grid, a: Cell, b: Cell)
    requires ShownBy(digits, g)
    ensures Doorway(digits, a, b) <==> a in g && b in g && OpenTo(g, a, b)
  {
    if a in g && b in g {
      var m := g[a];
      SidesByName(m);
      assert Neighbor(a, North) == Cell(a.row - 1, a.col) && Neighbor(a, South) == Cell(a.row + 1, a.col);
      assert Neighbor(a, West) == Cell(a.row, a.col - 1) && Neighbor(a, East) == Cell(a.row, a.col + 1);
      if Doorway(digits, a, b) {
        var d :| Neighbor(a, d) == b;
        assert IsOpen(g, a, d);
      }
    }
  }

  lemma WayIsPath(digits: array2<int>, g: Grid, p: seq<Cell>)
    requires ShownBy(digits, g)
    ensures Way(digits, p) <==> IsPath(g, p)
  {
    forall i | 0 <= i < |p| - 1
      ensures Doorway(digits, p[i], p[i + 1]) <==> p[i] in g && p[i + 1] in g && OpenTo(g, p[i], p[i + 1])
    {
      DoorwayIsOpening(digits, g, p[i], p[i + 1]);
    }
  }

  /** What a complete maze makes of the digit of room c, side by side. */
  ghost predicate DigitFits(digits: array2<int>, g: Grid, c: Cell)
    reads digits
    requires IsRoom(digits, c)
  {
    var hex, above, before := digits[c.row, c.col], Cell(c.row - 1, c.col), Cell(c.row, c.col - 1);
    && 0 <= hex < 16
    && (HasBit(hex, 1) <==> (IsRoom(digits, above) ==> HasBit(digits[above.row, above.col], 2)))
    && (HasBit(hex, 4) <==> (IsRoom(digits, before) ==> HasBit(digits[before.row, before.col], 8)))
    && (!IsRoom(digits, Cell(c.row + 1, c.col)) ==> HasBit(hex, 2))
    && (!IsRoom(digits, Cell(c.row, c.col + 1)) ==> HasBit(hex, 8))
  }

  lemma DigitOf(digits: array2<int>, g: Grid, c: Cell)
    requires ShownBy(digits, g) && Complete(g) && c in g
    ensures DigitFits(digits, g, c)
  {
    var above, before := Cell(c.row - 1, c.col), Cell(c.row, c.col - 1);
    RoomSides(g, c);
    if above in g { assert Shows(digits[above.row, above.col], g[above]); }
    if before in g { assert Shows(digits[before.row, before.col], g[before]); }
    assert Shows(digits[c.row, c.col], g[c]);
    hide Complete;
  }

  /** The sides of a room of a complete maze. */
  lemma RoomSides(g: Grid, c: Cell)
    requires Complete(g) && c in g
    ensures var m, above, before := g[c], Cell(c.row - 1, c.col), Cell(c.row, c.col - 1);
      && (m.north == if above in g then g[above].south else Wall)
      && (m.west == if before in g then g[before].east else Wall)
      && (Cell(c.row + 1, c.col) !in g ==> m.south == Wall)
      && (Cell(c.row, c.col + 1) !in g ==> m.east == Wall)
  {
    var above, before := Neighbor(c, North), Neighbor(c, West);
    assert above == Cell(c.row - 1, c.col) && before == Cell(c.row, c.col - 1);
    assert Neighbor(c, South) == Cell(c.row + 1, c.col) && Neighbor(c, East) == Cell(c.row, c.col + 1);
    SidesByName(g[c]);
    if above in g { SidesByName(g[above]); }
    if before in g { SidesByName(g[before]); }
  }

  lemma CompleteDigits(digits: array2<int>, g: Grid)
    requires ShownBy(digits, g) && Complete(g)
    ensures Bordered(digits) && SidesMatch(digits)
  {
    hide Complete, Shows, HasBit;
    forall r, c | 0 <= r < digits.Length0 && 0 <= c < digits.Length1
      ensures var hex := digits[r, c];
        && 0 <= hex < 16
        && (r == 0 ==> HasBit(hex, 1)) && (r == digits.Length0 - 1 ==> HasBit(hex, 2))
        && (c == 0 ==> HasBit(hex, 4)) && (c == digits.Length1 - 1 ==> HasBit(hex, 8))
    {
      assert Cell(r, c) in g;
      DigitOf(digits, g, Cell(r, c));
    }
    forall r, c | 0 < r < digits.Length0 && 0 <= c < digits.Length1
      ensures HasBit(digits[r, c], 1) <==> HasBit(digits[r - 1, c], 2)
    {
      assert Cell(r, c) in g && Cell(r - 1, c) in g;
      DigitOf(digits, g, Cell(r, c));
    }
    forall r, c | 0 <= r < digits.Length0 && 0 < c < digits.Length1
      ensures HasBit(digits[r, c], 4) <==> HasBit(digits[r, c - 1], 8)
    {
      assert Cell(r, c) in g && Cell(r, c - 1) in g;
      DigitOf(digits, g, Cell(r, c));
    }
  }

  lemma BorderedIsSearchable(digits: array2<int>, g: Grid)
    requires ShownBy(digits, g) && Bordered(digits)
    ensures Walled(g)
  {
    forall a, d | IsOpen(g, a, d) ensures Neighbor(a, d) in g {
      var m, hex := g[a], digits[a.row, a.col];
      SidesByName(m);
      assert Shows(hex, m);
    }
  }

  /** The generator's main: whatever the random numbers, the file has walls all round,
      the sides match, and there is a way between any two rooms and no way round. */
  method WriteMaze(rows: nat, cols: nat) returns (digits: array2<int>)
    requires rows > 0 && cols > 0
    ensures fresh(digits) && digits.Length0 == rows && digits.Length1 == cols
    ensures Bordered(digits) && SidesMatch(digits)
    ensures forall a, b :: IsRoom(digits, a) && IsRoom(digits, b) ==> exists p :: Connects(digits, p, a, b)
    ensures forall p :: !Round(digits, p)
  {
    hide Complete, SpanningTree, Shows, Bordered, SidesMatch, IsPath, Way, Reachable, Rooms, IsCycle, Round, Connects;
    var maze, up, rank := Generate(rows, cols);
    ghost var g := Rooms(maze);
    CompleteIsInitialized(g);
    digits := new int[rows, cols]((i, j) => 0);
    EncodeMaze(maze, digits);
    assert Rooms(maze) == g;
    forall c ensures c in g <==> IsRoom(digits, c) { RoomAt(maze, c); }
    forall c | c in g ensures Shows(digits[c.row, c.col], g[c]) { RoomAt(maze, c); }
    CompleteDigits(digits, g);
    forall a, b | IsRoom(digits, a) && IsRoom(digits, b) ensures exists p :: Connects(digits, p, a, b) {
      AllConnected(g, Cell(0, 0), up, rank, a, b);
      WayFromPath(digits, g, a, b);
    }
    forall p ensures !Round(digits, p) {
      NoCycles(g, Cell(0, 0), up, rank, p);
      RoundIsCycle(digits, g, p);
    }
  }

  lemma RoundIsCycle(digits: array2<int>, g: Grid, p: seq<Cell>)
    requires ShownBy(digits, g)
    ensures Round(digits, p) ==> IsCycle(g, p)
  {
    WayIsPath(digits, g, p);
    if p != [] { DoorwayIsOpening(digits, g, p[|p| - 1], p[0]); }
  }

  lemma WayFromPath(digits: array2<int>, g: Grid, a: Cell, b: Cell)
    requires ShownBy(digits, g) && Reachable(g, a, b)
    ensures exists p :: Connects(digits, p, a, b)
  {
    var p :| IsPath(g, p) && p[0] == a && p[|p| - 1] == b;
    WayIsPath(digits, g, p);
    assert Connects(digits, p, a, b);
  }

  /** The solver's main, from the digits to the path: it finds one just when the
      digits leave a way open, and what it finds is such a way. */
  method SolveMaze(digits: array2<int>, start: Cell, goal: Cell) returns (found: bool, ghost path: seq<Cell>)
    requires Bordered(digits) && IsRoom(digits, start) && IsRoom(digits, goal)
    ensures found <==> exists p :: Connects(digits, p, start, goal)
    ensures found ==> Connects(digits, path, start, goal)
  {
    hide Shows, HasBit, IsPath, Way, Reachable, Rooms, Visited, Walled, Explored;
    assert forall r, c :: 0 <= r < digits.Length0 && 0 <= c < digits.Length1 ==> 0 <= digits[r, c] < 16;
    var maze := ReadMaze(digits);
    ghost var g := Rooms(maze);
    ReadIsShown(digits, maze);
    BorderedIsSearchable(digits, g);
    RoomAt(maze, start);
    found, path := Dfs(start.row, start.col, goal, digits.Length0, digits.Length1, maze);
    FoundIffReachable(g, Rooms(maze), found, path, start, goal);
    FoundIsWay(digits, g, Rooms(maze), found, path, start, goal);
  }

  lemma ReadIsShown(digits: array2<int>, maze: array2<Room>)
    requires maze.Length0 == digits.Length0 && maze.Length1 == digits.Length1
    requires forall r, c :: 0 <= r < digits.Length0 && 0 <= c < digits.Length1 ==>
      IsRead(digits[r, c], r, c, maze[r, c])
    ensures ShownBy(digits, Rooms(maze)) && Visited(Rooms(maze)) == {}
    ensures forall c :: c in Rooms(maze) ==>
      Rooms(maze)[c].row == c.row && Rooms(maze)[c].col == c.col && !Rooms(maze)[c].visited
  {
    hide Shows;
    forall c ensures c in Rooms(maze) <==> IsRoom(digits, c) { RoomAt(maze, c); }
    forall c | c in Rooms(maze) ensures IsRead(digits[c.row, c.col], c.row, c.col, Rooms(maze)[c]) { RoomAt(maze, c); }
  }

  lemma FoundIsWay(digits: array2<int>, g: Grid, g': Grid, found: bool, path: seq<Cell>, start: Cell, goal: Cell)
    requires ShownBy(digits, g) && Explored(g, g', found, path, start, goal) && (found <==> Reachable(g, start, goal))
    ensures found <==> exists p :: Connects(digits, p, start, goal)
    ensures found ==> Connects(digits, path, start, goal)
  {
    hide Shows;
    if found {
      MazeSolver.SameSides(g, g');
      assert IsPath(g', path);
      assert forall i :: 0 <= i < |path| - 1 ==> OpenTo(g', path[i], path[i + 1]);
      WayIsPath(digits, g, path);
      assert Connects(digits, path, start, goal);
    }
    if p :| Connects(digits, p, start, goal) {
      WayIsPath(digits, g, p);
      assert Reachable(g, start, goal);
    }
  }
}
