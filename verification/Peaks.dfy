/** Finding a peak of a matrix by divide and conquer, as `algorithms.py` and `peak.py` do. */
module Peaks {

  datatype Option<+T> = None | Some(value: T)

  datatype Loc = Loc(r: int, c: int)

  datatype Bounds = Bounds(row: int, col: int, rows: int, cols: int)

  /** A matrix and the part of it that is looked at. */
  datatype Problem = Problem(values: seq<seq<int>>, bounds: Bounds)

  predicate InBounds(b: Bounds, l: Loc) {
    b.row <= l.r < b.row + b.rows && b.col <= l.c < b.col + b.cols
  }

  /** The bounds lie inside the matrix. */
  ghost predicate Valid(p: Problem) {
    && 0 <= p.bounds.row && 0 <= p.bounds.rows && |p.values| >= p.bounds.row + p.bounds.rows
    && 0 <= p.bounds.col && 0 <= p.bounds.cols
    && forall r :: p.bounds.row <= r < p.bounds.row + p.bounds.rows ==> |p.values[r]| >= p.bounds.col + p.bounds.cols
  }

  predicate Empty(p: Problem) { p.bounds.rows <= 0 || p.bounds.cols <= 0 }

  predicate Inside(p: Problem, l: Loc) {
    0 <= l.r < p.bounds.rows && 0 <= l.c < p.bounds.cols
  }

  function Get(p: Problem, l: Loc): int
    requires Valid(p)
  {
    if !(0 <= l.r < p.bounds.rows) then 0
    else if !(0 <= l.c < p.bounds.cols) then 0
    else p.values[p.bounds.row + l.r][p.bounds.col + l.c]
  }

  function GetBetterNeighbor(p: Problem, l: Loc): (best: Loc)
    requires Valid(p)
    ensures Get(p, best) >= Get(p, l) && (best != l ==> Get(p, best) > Get(p, l))
    ensures best != l ==> Adjacent(l, best)
    ensures Inside(p, l) ==> Inside(p, best)
  {
    var best := l;
    var best := if l.r - 1 >= 0 && Get(p, Loc(l.r - 1, l.c)) > Get(p, best) then Loc(l.r - 1, l.c) else best;
    var best := if l.c - 1 >= 0 && Get(p, Loc(l.r, l.c - 1)) > Get(p, best) then Loc(l.r, l.c - 1) else best;
    var best := if l.r + 1 < p.bounds.rows && Get(p, Loc(l.r + 1, l.c)) > Get(p, best) then Loc(l.r + 1, l.c) else best;
    var best := if l.c + 1 < p.bounds.cols && Get(p, Loc(l.r, l.c + 1)) > Get(p, best) then Loc(l.r, l.c + 1) else best;
    best
  }

  predicate Adjacent(a: Loc, b: Loc) {
    (a.r == b.r && (a.c == b.c + 1 || b.c == a.c + 1)) || (a.c == b.c && (a.r == b.r + 1 || b.r == a.r + 1))
  }

  /** A place in p that no neighbour inside p exceeds. */
  ghost predicate IsPeak(p: Problem, l: Loc)
    requires Valid(p)
  {
    Inside(p, l) && forall n :: Inside(p, n) && Adjacent(l, n) ==> Get(p, n) <= Get(p, l)
  }

  /** A place is a peak just when there is no better neighbour. */
  lemma PeakHasNoBetterNeighbor(p: Problem, l: Loc)
    requires Valid(p) && Inside(p, l)
    ensures GetBetterNeighbor(p, l) == l <==> IsPeak(p, l)
  {
    var b := GetBetterNeighbor(p, l);
    if b != l {
      assert Inside(p, b) && Adjacent(l, b) && Get(p, b) > Get(p, l);
    }
  }

  /** The first place with the greatest value. */
  method GetMaximum(p: Problem, locations: seq<Loc>) returns (bestLoc: Option<Loc>)
    requires Valid(p)
    ensures bestLoc.None? <==> locations == []
    ensures bestLoc.Some? ==> bestLoc.value in locations && forall l :: l in locations ==>
      Get(p, l) <= Get(p, bestLoc.value)
  {
    bestLoc := None;
    var bestVal := 0;
    for i := 0 to |locations|
      invariant bestLoc.None? <==> i == 0
      invariant bestLoc.Some? ==> bestLoc.value in locations[..i] && bestVal == Get(p, bestLoc.value)
      invariant forall l :: l in locations[..i] ==> Get(p, l) <= bestVal
    {
      var loc := locations[i];
      assert locations[..i + 1] == locations[..i] + [loc];
      if bestLoc.None? || Get(p, loc) > bestVal {
        bestLoc, bestVal := Some(loc), Get(p, loc);
      }
    }
    assert locations[..|locations|] == locations;
  }

  method CrossProduct(list1: seq<int>, list2: seq<int>) returns (answer: seq<Loc>)
    ensures forall l :: l in answer <==> l.r in list1 && l.c in list2
  {
    answer := [];
    for i := 0 to |list1|
      invariant forall l :: l in answer <==> l.r in list1[..i] && l.c in list2
    {
      ghost var done := answer;
      assert list1[..i + 1] == list1[..i] + [list1[i]];
      for j := 0 to |list2|
        invariant forall l :: l in answer <==> l in done || (l.r == list1[i] && l.c in list2[..j])
      {
        assert list2[..j + 1] == list2[..j] + [list2[j]];
        answer := answer + [Loc(list1[i], list2[j])];
      }
      assert list2[..|list2|] == list2;
    }
    assert list1[..|list1|] == list1;
  }

  function Range(n: nat): (s: seq<int>)
    ensures forall i :: i in s <==> 0 <= i < n
  {
    if n == 0 then [] else Range(n - 1) + [n - 1]
  }

  function GetSubproblem(p: Problem, b: Bounds): Problem {
    Problem(p.values, Bounds(p.bounds.row + b.row, p.bounds.col + b.col, b.rows, b.cols))
  }

  /** The first of the parts that contains the place, or p when none does. */
  method GetSubproblemContaining(p: Problem, boundList: seq<Bounds>, l: Loc) returns (sub: Problem)
    ensures (exists k :: 0 <= k < |boundList| && InBounds(boundList[k], l)) ==>
      exists k :: 0 <= k < |boundList| && InBounds(boundList[k], l) && sub == GetSubproblem(p, boundList[k])
    ensures (forall k :: 0 <= k < |boundList| ==> !InBounds(boundList[k], l)) ==> sub == p
  {
    for i := 0 to |boundList|
      invariant forall k :: 0 <= k < i ==> !InBounds(boundList[k], l)
    {
      if InBounds(boundList[i], l) {
        return GetSubproblem(p, boundList[i]);
      }
    }
    return p;
  }

  /** A place of p, as a place of self. */
  function GetLocationInSelf(self: Problem, p: Problem, l: Loc): Loc {
    Loc(l.r + p.bounds.row - self.bounds.row, l.c + p.bounds.col - self.bounds.col)
  }

  // ---------------------------------------------------------------- parts of a problem

  /** p is a part of whole. */
  ghost predicate PartOf(p: Problem, whole: Problem) {
    && Valid(p) && Valid(whole) && p.values == whole.values
    && whole.bounds.row <= p.bounds.row && p.bounds.row + p.bounds.rows <= whole.bounds.row + whole.bounds.rows
    && whole.bounds.col <= p.bounds.col && p.bounds.col + p.bounds.cols <= whole.bounds.col + whole.bounds.cols
  }

  /** A peak of a part is a peak of the whole when it is as high as what borders on
      it outside the part. */
  lemma PeakOfPart(p: Problem, whole: Problem, l: Loc)
    requires PartOf(p, whole) && IsPeak(p, l)
    requires forall n ::
      Inside(whole, n) && !Inside(p, GetLocationInSelf(p, whole, n)) && Adjacent(l, GetLocationInSelf(p, whole, n)) ==>
      Get(whole, n) <= Get(p, l)
    ensures IsPeak(whole, GetLocationInSelf(whole, p, l))
  {
    var m := GetLocationInSelf(whole, p, l);
    forall n | Inside(whole, n) && Adjacent(m, n) ensures Get(whole, n) <= Get(whole, m) {
      var q := GetLocationInSelf(p, whole, n);
      assert Adjacent(l, q);
      if Inside(p, q) { assert Get(p, q) == Get(whole, n); }
    }
  }

  /** Mapping a place of a part out in two steps or in one is the same. */
  lemma Remap(whole: Problem, p: Problem, sub: Problem, l: Loc)
    requires PartOf(sub, p) && Inside(sub, l)
    ensures Inside(p, GetLocationInSelf(p, sub, l))
    ensures GetLocationInSelf(whole, p, GetLocationInSelf(p, sub, l)) == GetLocationInSelf(whole, sub, l)
  {
  }

  // ---------------------------------------------------------------- algorithm1

  /** Some place in column c of whole is higher than every place in column d. */
  ghost predicate Towers(whole: Problem, c: int, d: int)
    requires Valid(whole)
  {
    exists r :: 0 <= r < whole.bounds.rows && forall s :: 0 <= s < whole.bounds.rows ==>
      Get(whole, Loc(s, d)) < Get(whole, Loc(r, c))
  }

  ghost predicate StripBorders(p: Problem, whole: Problem, lo: int)
    requires Valid(whole)
  {
    && (lo > 0 ==> Towers(whole, lo, lo - 1))
    && (lo + p.bounds.cols < whole.bounds.cols ==> Towers(whole, lo + p.bounds.cols - 1, lo + p.bounds.cols))
  }

  /** The part is made of whole columns, and its outer columns tower over those they border on. */
  ghost predicate Strip(p: Problem, whole: Problem) {
    && PartOf(p, whole) && p.bounds.row == whole.bounds.row && p.bounds.rows == whole.bounds.rows
    && StripBorders(p, whole, p.bounds.col - whole.bounds.col)
  }

  /** Halving on the middle column. The ghost whole is what the search began with. */
  method Algorithm1(problem: Problem, ghost whole: Problem) returns (result: Option<Loc>)
    requires PartOf(problem, whole) && (!Empty(problem) ==> Strip(problem, whole))
    ensures result.None? <==> Empty(problem)
    ensures result.Some? ==>
      Inside(problem, result.value) && IsPeak(whole, GetLocationInSelf(whole, problem, result.value))
    decreases problem.bounds.cols
  {
    if problem.bounds.rows <= 0 || problem.bounds.cols <= 0 {
      return None;
    }
    hide Get, GetBetterNeighbor, IsPeak, StripBorders, Valid, Tops, GetSubproblem, InBounds, Adjacent, Half, Inside,
      GetLocationInSelf, PartOf;
    var rows, cols := problem.bounds.rows, problem.bounds.cols;
    var mid := cols / 2;
    var subproblems := [Bounds(0, 0, rows, mid), Bounds(0, mid + 1, rows, cols - (mid + 1))];
    var divider := CrossProduct(Range(rows), [mid]);
    assert Loc(0, mid) in divider;
    var max := GetMaximum(problem, divider);
    var bestLoc := max.value;
    DividerTops(problem, divider, false, mid, bestLoc);
    var neighbor := GetBetterNeighbor(problem, bestLoc);
    if neighbor == bestLoc {
      StripPeak(problem, whole, bestLoc);
      return Some(bestLoc);
    }
    var sub := GetSubproblemContaining(problem, subproblems, neighbor);
    ChosenHalf(problem, subproblems, false, mid, bestLoc, neighbor, sub);
    SubStrip(problem, whole, bestLoc, neighbor, sub);
    var found := Algorithm1(sub, whole);
    Remap(whole, problem, sub, found.value);
    return Some(GetLocationInSelf(problem, sub, found.value));
  }

  /** best is as high as every place of p in the column or row mid. */
  ghost predicate Tops(p: Problem, best: Loc, rowSplit: bool, mid: int)
    requires Valid(p)
  {
    forall l :: Inside(p, l) && (if rowSplit then l.r else l.c) == mid ==> Get(p, l) <= Get(p, best)
  }

  lemma DividerTops(p: Problem, divider: seq<Loc>, rowSplit: bool, mid: int, best: Loc)
    requires Valid(p) && 0 <= mid < if rowSplit then p.bounds.rows else p.bounds.cols
    requires forall l :: l in divider <==>
      if rowSplit then l.r == mid && 0 <= l.c < p.bounds.cols else 0 <= l.r < p.bounds.rows && l.c == mid
    requires best in divider && forall l :: l in divider ==> Get(p, l) <= Get(p, best)
    ensures Tops(p, best, rowSplit, mid) && Inside(p, best) && (if rowSplit then best.r else best.c) == mid
  {
  }

  /** The half of p on l's side of the divider. */
  function Half(p: Problem, rowSplit: bool, mid: int, l: Loc): Bounds {
    var rows, cols := p.bounds.rows, p.bounds.cols;
    if rowSplit then
      if l.r < mid then Bounds(0, 0, mid, cols) else Bounds(mid + 1, 0, rows - (mid + 1), cols)
    else
      if l.c < mid then Bounds(0, 0, rows, mid) else Bounds(0, mid + 1, rows, cols - (mid + 1))
  }

  /** A place higher than the divider lies in one of the halves, so the search for
      the part that contains it never falls through. */
  lemma ChosenHalf(p: Problem, halves: seq<Bounds>, rowSplit: bool, mid: int, best: Loc, l: Loc, sub: Problem)
    requires Valid(p) && Inside(p, l) && 0 <= mid < if rowSplit then p.bounds.rows else p.bounds.cols
    requires Tops(p, best, rowSplit, mid) && Get(p, l) > Get(p, best)
    requires halves == [
      if rowSplit then Bounds(0, 0, mid, p.bounds.cols) else Bounds(0, 0, p.bounds.rows, mid),
      if rowSplit then Bounds(mid + 1, 0, p.bounds.rows - (mid + 1), p.bounds.cols)
        else Bounds(0, mid + 1, p.bounds.rows, p.bounds.cols - (mid + 1))]
    requires (exists k :: 0 <= k < |halves| && InBounds(halves[k], l)) ==>
      exists k :: 0 <= k < |halves| && InBounds(halves[k], l) && sub == GetSubproblem(p, halves[k])
    ensures (if rowSplit then l.r else l.c) != mid && sub == GetSubproblem(p, Half(p, rowSplit, mid, l))
    ensures PartOf(sub, p) && !Empty(sub)
    ensures sub.bounds.rows + sub.bounds.cols < p.bounds.rows + p.bounds.cols
    ensures !rowSplit ==> sub.bounds.cols < p.bounds.cols
  {
    var k := if (if rowSplit then l.r < mid else l.c < mid) then 0 else 1;
    assert InBounds(halves[k], l);
  }

  lemma StripPeak(p: Problem, whole: Problem, best: Loc)
    requires Strip(p, whole) && Inside(p, best) && GetBetterNeighbor(p, best) == best && Tops(p, best, false, best.c)
    ensures IsPeak(whole, GetLocationInSelf(whole, p, best))
  {
    hide GetBetterNeighbor;
    PeakHasNoBetterNeighbor(p, best);
    forall n | Inside(whole, n) && !Inside(p, GetLocationInSelf(p, whole, n))
      && Adjacent(best, GetLocationInSelf(p, whole, n))
      ensures Get(whole, n) <= Get(p, best)
    {
      BesideStrip(p, whole, best, n);
    }
    hide Get, Strip;
    PeakOfPart(p, whole, best);
  }

  lemma BesideStrip(p: Problem, whole: Problem, best: Loc, n: Loc)
    requires Strip(p, whole) && Inside(p, best) && Tops(p, best, false, best.c)
    requires Inside(whole, n) && !Inside(p, GetLocationInSelf(p, whole, n))
    requires Adjacent(best, GetLocationInSelf(p, whole, n))
    ensures Get(whole, n) < Get(p, best)
  {
    var c := p.bounds.col - whole.bounds.col + best.c;
    assert Towers(whole, c, n.c);
    var r :| 0 <= r < whole.bounds.rows && forall s :: 0 <= s < whole.bounds.rows ==>
      Get(whole, Loc(s, n.c)) < Get(whole, Loc(r, c));
    assert n == Loc(n.r, n.c);
    assert Inside(p, Loc(r, best.c)) && Get(p, Loc(r, best.c)) == Get(whole, Loc(r, c));
  }

  /** The half that holds a better neighbour of the middle column's maximum is a
      strip again. */
  lemma SubStrip(p: Problem, whole: Problem, best: Loc, neighbor: Loc, sub: Problem)
    requires Strip(p, whole) && Inside(p, best) && Inside(p, neighbor) && Get(p, neighbor) > Get(p, best)
    requires Tops(p, best, false, best.c)
    requires Adjacent(best, neighbor)
    requires sub == GetSubproblem(p, Half(p, false, best.c, neighbor))
    ensures Strip(sub, whole) && Inside(sub, GetLocationInSelf(sub, p, neighbor))
  {
    NeighborTowers(p, whole, best, neighbor);
    HalfIsPart(p, whole, best.c, neighbor, sub);
    HalfBorders(p, whole, sub, best.c, neighbor.c);
    hide Towers, Get, Tops, PartOf, StripBorders, Half, GetSubproblem, GetLocationInSelf;
  }

  /** Beside the divider d the half has the column c, which towers over the divider. */
  lemma HalfBorders(p: Problem, whole: Problem, sub: Problem, d: int, c: int)
    requires Strip(p, whole) && 0 <= d < p.bounds.cols && (c == d - 1 || c == d + 1)
    requires Towers(whole, p.bounds.col - whole.bounds.col + c, p.bounds.col - whole.bounds.col + d)
    requires if c < d then sub.bounds.col == p.bounds.col && sub.bounds.cols == d
             else sub.bounds.col == p.bounds.col + d + 1 && sub.bounds.cols == p.bounds.cols - d - 1
    ensures StripBorders(sub, whole, sub.bounds.col - whole.bounds.col)
  {
    hide Towers, PartOf;
  }

  lemma HalfIsPart(p: Problem, whole: Problem, mid: int, l: Loc, sub: Problem)
    requires PartOf(p, whole) && Inside(p, l) && 0 <= mid < p.bounds.cols && l.c != mid
    requires sub == GetSubproblem(p, Half(p, false, mid, l))
    ensures PartOf(sub, whole) && Inside(sub, GetLocationInSelf(sub, p, l))
    ensures sub.bounds.row == p.bounds.row && sub.bounds.rows == p.bounds.rows
    ensures if l.c < mid then sub.bounds.col == p.bounds.col && sub.bounds.cols == mid
            else sub.bounds.col == p.bounds.col + mid + 1 && sub.bounds.cols == p.bounds.cols - mid - 1
  {
  }

  lemma NeighborTowers(p: Problem, whole: Problem, best: Loc, neighbor: Loc)
    requires Strip(p, whole) && Inside(p, best) && Inside(p, neighbor) && Get(p, neighbor) > Get(p, best)
    requires Tops(p, best, false, best.c) && Adjacent(best, neighbor)
    ensures Towers(whole, p.bounds.col - whole.bounds.col + neighbor.c, p.bounds.col - whole.bounds.col + best.c)
    ensures neighbor.c != best.c
  {
    var lo := p.bounds.col - whole.bounds.col;
    var d := lo + best.c;
    assert Get(whole, Loc(neighbor.r, lo + neighbor.c)) == Get(p, neighbor);
    forall s | 0 <= s < whole.bounds.rows ensures Get(whole, Loc(s, d)) < Get(whole, Loc(neighbor.r, lo + neighbor.c)) {
      assert Inside(p, Loc(s, best.c)) && Get(whole, Loc(s, d)) == Get(p, Loc(s, best.c));
    }
  }

  // ---------------------------------------------------------------- algorithm4

  /** A place of whole just outside the part p, corners included. */
  ghost predicate Ring(p: Problem, whole: Problem, n: Loc) {
    var q := GetLocationInSelf(p, whole, n);
    Inside(whole, n) && !Inside(p, q) && -1 <= q.r <= p.bounds.rows && -1 <= q.c <= p.bounds.cols
  }

  /** What has been seen at best lies in the part and is higher than all around the part. */
  ghost predicate Seen(p: Problem, whole: Problem, bestSeen: Option<Loc>) {
    PartOf(p, whole) &&
    match bestSeen
    case None => p == whole
    case Some(b) => Inside(p, b) && forall n :: Ring(p, whole, n) ==> Get(whole, n) < Get(p, b)
  }

  lemma SeenSays(p: Problem, whole: Problem, bestSeen: Option<Loc>)
    requires Seen(p, whole, bestSeen)
    ensures PartOf(p, whole) && Valid(p) && Valid(whole)
    ensures bestSeen.None? ==> forall n :: !Ring(p, whole, n)
    ensures bestSeen.Some? ==> Inside(p, bestSeen.value) && forall n :: Ring(p, whole, n) ==>
      Get(whole, n) < Get(p, bestSeen.value)
  {
  }

  /** The two parts and the dividing row or column between them. */
  method Divide(p: Problem, rowSplit: bool) returns (subproblems: seq<Bounds>, divider: seq<Loc>, mid: int)
    requires Valid(p) && !Empty(p)
    ensures 0 <= mid < (if rowSplit then p.bounds.rows else p.bounds.cols) && divider != []
    ensures forall l :: l in divider <==>
      if rowSplit then l.r == mid && 0 <= l.c < p.bounds.cols else 0 <= l.r < p.bounds.rows && l.c == mid
    ensures subproblems == [
      if rowSplit then Bounds(0, 0, mid, p.bounds.cols) else Bounds(0, 0, p.bounds.rows, mid),
      if rowSplit then Bounds(mid + 1, 0, p.bounds.rows - (mid + 1), p.bounds.cols)
        else Bounds(0, mid + 1, p.bounds.rows, p.bounds.cols - (mid + 1))]
  {
    var rows, cols := p.bounds.rows, p.bounds.cols;
    if rowSplit {
      mid := rows / 2;
      subproblems := [Bounds(0, 0, mid, cols), Bounds(mid + 1, 0, rows - (mid + 1), cols)];
      divider := CrossProduct([mid], Range(cols));
    } else {
      mid := cols / 2;
      subproblems := [Bounds(0, 0, rows, mid), Bounds(0, mid + 1, rows, cols - (mid + 1))];
      divider := CrossProduct(Range(rows), [mid]);
    }
    assert (if rowSplit then Loc(mid, 0) else Loc(0, mid)) in divider;
  }

  /** Halving on the middle row and the middle column in turn, towards the best seen. */
  method Algorithm4(problem: Problem, bestSeen0: Option<Loc>, rowSplit: bool, ghost whole: Problem)
      returns (result: Option<Loc>)
    requires Seen(problem, whole, bestSeen0)
    ensures result.None? <==> Empty(problem)
    ensures result.Some? ==>
      Inside(problem, result.value) && IsPeak(whole, GetLocationInSelf(whole, problem, result.value))
    decreases problem.bounds.rows + problem.bounds.cols
  {
    if problem.bounds.rows <= 0 || problem.bounds.cols <= 0 {
      return None;
    }
    hide Get, GetBetterNeighbor, IsPeak, Valid, Tops, GetSubproblem, InBounds, Adjacent, Half, Inside,
      GetLocationInSelf, PartOf;
    hide Ring, Seen;
    SeenSays(problem, whole, bestSeen0);
    var subproblems, divider, mid := Divide(problem, rowSplit);
    var max := GetMaximum(problem, divider);
    var bestLoc := max.value;
    DividerTops(problem, divider, rowSplit, mid, bestLoc);
    var neighbor := GetBetterNeighbor(problem, bestLoc);
    var bestSeen := bestSeen0;
    if bestSeen.None? || Get(problem, neighbor) > Get(problem, bestSeen.value) {
      bestSeen := Some(neighbor);
    }
    if neighbor == bestLoc && Get(problem, bestLoc) >= Get(problem, bestSeen.value) {
      SeenPeak(problem, whole, bestLoc);
      return Some(bestLoc);
    }
    var sub := GetSubproblemContaining(problem, subproblems, bestSeen.value);
    ChosenHalf(problem, subproblems, rowSplit, mid, bestLoc, bestSeen.value, sub);
    var newBest := GetLocationInSelf(sub, problem, bestSeen.value);
    SubSeen(problem, whole, rowSplit, mid, bestLoc, bestSeen.value, sub);
    var found := Algorithm4(sub, Some(newBest), !rowSplit, whole);
    Remap(whole, problem, sub, found.value);
    return Some(GetLocationInSelf(problem, sub, found.value));
  }

  lemma SeenPeak(p: Problem, whole: Problem, best: Loc)
    requires PartOf(p, whole) && Inside(p, best) && GetBetterNeighbor(p, best) == best
    requires forall n :: Ring(p, whole, n) ==> Get(whole, n) <= Get(p, best)
    ensures IsPeak(whole, GetLocationInSelf(whole, p, best))
  {
    PeakHasNoBetterNeighbor(p, best);
    forall n | Inside(whole, n) && !Inside(p, GetLocationInSelf(p, whole, n))
      && Adjacent(best, GetLocationInSelf(p, whole, n))
      ensures Get(whole, n) <= Get(p, best)
    {
      assert Ring(p, whole, n);
    }
    PeakOfPart(p, whole, best);
  }

  /** The half that holds the best seen is surrounded by lower places only. */
  lemma SubSeen(p: Problem, whole: Problem, rowSplit: bool, mid: int, best: Loc, seen: Loc, sub: Problem)
    requires PartOf(p, whole) && Inside(p, seen) && 0 <= mid < if rowSplit then p.bounds.rows else p.bounds.cols
    requires forall n :: Ring(p, whole, n) ==> Get(whole, n) < Get(p, seen)
    requires Tops(p, best, rowSplit, mid) && Get(p, best) < Get(p, seen)
    requires sub == GetSubproblem(p, Half(p, rowSplit, mid, seen))
    ensures Seen(sub, whole, Some(GetLocationInSelf(sub, p, seen)))
  {
    var b := GetLocationInSelf(sub, p, seen);
    assert Get(sub, b) == Get(p, seen);
    forall n | Ring(sub, whole, n) ensures Get(whole, n) < Get(sub, b) {
      var l := GetLocationInSelf(p, whole, n);
      if Inside(p, l) {
        assert Get(p, l) == Get(whole, n);
      } else {
        assert Ring(p, whole, n);
      }
    }
  }

  // ---------------------------------------------------------------- algorithm2

  /** The places higher than v. */
  ghost function Higher(p: Problem, v: int): (s: set<Loc>)
    requires Valid(p)
    ensures forall l :: l in s <==> Inside(p, l) && Get(p, l) > v
  {
    set r, c | 0 <= r < p.bounds.rows && 0 <= c < p.bounds.cols && Get(p, Loc(r, c)) > v :: Loc(r, c)
  }

  /** Climbing from neighbour to neighbour ends on a peak. */
  method Algorithm2(problem: Problem, location: Loc) returns (result: Option<Loc>)
    requires Valid(problem) && (!Empty(problem) ==> Inside(problem, location))
    ensures result.None? <==> Empty(problem)
    ensures result.Some? ==> IsPeak(problem, result.value) && Get(problem, result.value) >= Get(problem, location)
    decreases |Higher(problem, Get(problem, location))|
  {
    if problem.bounds.rows <= 0 || problem.bounds.cols <= 0 {
      return None;
    }
    var nextLocation := GetBetterNeighbor(problem, location);
    PeakHasNoBetterNeighbor(problem, location);
    if nextLocation == location {
      return Some(location);
    }
    FewerHigher(Higher(problem, Get(problem, nextLocation)), Higher(problem, Get(problem, location)), nextLocation);
    result := Algorithm2(problem, nextLocation);
  }

  lemma FewerHigher(a: set<Loc>, b: set<Loc>, l: Loc)
    requires a <= b && l in b && l !in a
    ensures |a| < |b|
  {
    if |a| == |b| {
      assert a < b;
    }
    Subset(a, b - {l});
  }

  lemma Subset(a: set<Loc>, b: set<Loc>)
    requires a <= b
    ensures |a| <= |b|
  {
    if a != {} {
      var x :| x in a;
      Subset(a - {x}, b - {x});
    }
  }

  // ---------------------------------------------------------------- whole matrices

  /** The number of rows, and the length of the longest row. */
  method GetDimensions(values: seq<seq<int>>) returns (rows: nat, cols: nat)
    ensures rows == |values| && forall r :: 0 <= r < |values| ==> |values[r]| <= cols
    ensures cols > 0 ==> exists r :: 0 <= r < |values| && |values[r]| == cols
  {
    rows, cols := |values|, 0;
    for i := 0 to |values|
      invariant rows == |values| && forall r :: 0 <= r < i ==> |values[r]| <= cols
      invariant cols > 0 ==> exists r :: 0 <= r < i && |values[r]| == cols
    {
      if |values[i]| > cols {
        cols := |values[i]|;
      }
    }
  }

  method CreateProblem(values: seq<seq<int>>) returns (p: Problem)
    ensures p.values == values && p.bounds.row == 0 && p.bounds.col == 0 && p.bounds.rows == |values|
    ensures Valid(p) <==> Rectangular(values)
    ensures Rectangular(values) && values != [] ==> p.bounds.cols == |values[0]|
  {
    var rows, cols := GetDimensions(values);
    p := Problem(values, Bounds(0, 0, rows, cols));
  }

  ghost predicate Rectangular(values: seq<seq<int>>) {
    forall r, s :: 0 <= r < |values| && 0 <= s < |values| ==> |values[r]| == |values[s]|
  }

  /** No entry next to entry (r, c) is larger. */
  ghost predicate PeakOfMatrix(values: seq<seq<int>>, r: int, c: int)
    requires Rectangular(values)
  {
    && 0 <= r < |values| && 0 <= c < |values[r]|
    && (r > 0 ==> values[r - 1][c] <= values[r][c]) && (r + 1 < |values| ==> values[r + 1][c] <= values[r][c])
    && (c > 0 ==> values[r][c - 1] <= values[r][c]) && (c + 1 < |values[r]| ==> values[r][c + 1] <= values[r][c])
  }

  lemma PeakIsPeakOfMatrix(p: Problem, l: Loc)
    requires Valid(p) && Rectangular(p.values) && p.bounds == Bounds(0, 0, |p.values|, p.bounds.cols)
    requires |p.values| > 0 ==> p.bounds.cols == |p.values[0]|
    requires IsPeak(p, l)
    ensures PeakOfMatrix(p.values, l.r, l.c)
  {
    var v := p.values;
    if l.r > 0 { assert Get(p, Loc(l.r - 1, l.c)) == v[l.r - 1][l.c] && Adjacent(l, Loc(l.r - 1, l.c)); }
    if l.r + 1 < |v| { assert Get(p, Loc(l.r + 1, l.c)) == v[l.r + 1][l.c] && Adjacent(l, Loc(l.r + 1, l.c)); }
    if l.c > 0 { assert Get(p, Loc(l.r, l.c - 1)) == v[l.r][l.c - 1] && Adjacent(l, Loc(l.r, l.c - 1)); }
    if l.c + 1 < |v[l.r]| { assert Get(p, Loc(l.r, l.c + 1)) == v[l.r][l.c + 1] && Adjacent(l, Loc(l.r, l.c + 1)); }
  }

  /** Both searches find a peak of the whole of every non-empty rectangular matrix. */
  method FindPeaks(values: seq<seq<int>>) returns (one: Option<Loc>, four: Option<Loc>)
    requires Rectangular(values)
    ensures one.None? <==> values == [] || values[0] == []
    ensures four.None? <==> values == [] || values[0] == []
    ensures one.Some? ==> PeakOfMatrix(values, one.value.r, one.value.c)
    ensures four.Some? ==> PeakOfMatrix(values, four.value.r, four.value.c)
  {
    var p := CreateProblem(values);
    one := Algorithm1(p, p);
    four := Algorithm4(p, None, true, p);
    if one.Some? { PeakIsPeakOfMatrix(p, one.value); }
    if four.Some? { PeakIsPeakOfMatrix(p, four.value); }
  }
}
