/** Edit distance in the storage layouts of `EditDistance.java` and `editdistance.py`. */
module EditDistance {

  function Min1(c1: int, c2: int, c3: int): int {
    if c1 <= c2 && c1 <= c3 then c1 else if c2 <= c3 then c2 else c3
  }

  // ---------------------------------------------------------------- edit scripts

  datatype Edit = Keep | Substitute(c: char) | Insert(c: char) | Delete

  /** The script, read along both strings, turns a into b. */
  predicate Turns(script: seq<Edit>, a: string, b: string) {
    if script == [] then a == [] && b == [] else
    match script[0]
    case Keep => a != [] && b != [] && a[0] == b[0] && Turns(script[1..], a[1..], b[1..])
    case Substitute(c) => a != [] && b != [] && b[0] == c && Turns(script[1..], a[1..], b[1..])
    case Insert(c) => b != [] && b[0] == c && Turns(script[1..], a, b[1..])
    case Delete => a != [] && Turns(script[1..], a[1..], b)
  }

  function Cost(script: seq<Edit>): nat {
    if script == [] then 0 else (if script[0].Keep? then 0 else 1) + Cost(script[1..])
  }

  /** n is what the cheapest scripts from a to b cost. */
  ghost predicate IsDistance(a: string, b: string, n: int) {
    && (exists s :: Turns(s, a, b) && Cost(s) == n)
    && (forall s :: Turns(s, a, b) ==> n <= Cost(s))
  }

  lemma DistanceIsUnique(a: string, b: string, m: int, n: int)
    requires IsDistance(a, b, m) && IsDistance(a, b, n)
    ensures m == n
  {
  }

  // ---------------------------------------------------------------- recurrences

  /** edit_recursive: the distance between the suffixes from i and j. */
  function EditRecursive(a: string, b: string, i: nat, j: nat): (n: nat)
    requires i <= |a| && j <= |b|
    decreases |a| - i + |b| - j
  {
    if i >= |a| then |b| - j
    else if j >= |b| then |a| - i
    else Min1((if a[i] != b[j] then 1 else 0) + EditRecursive(a, b, i + 1, j + 1),
              1 + EditRecursive(a, b, i + 1, j), 1 + EditRecursive(a, b, i, j + 1))
  }

  /** The cell (i, j) of the table of edit_dynamic: a full minimum. */
  function Cell(a: string, b: string, i: nat, j: nat): (n: nat)
    requires i <= |a| && j <= |b|
  {
    if i == 0 then j
    else if j == 0 then i
    else Min1((if a[i - 1] != b[j - 1] then 1 else 0) + Cell(a, b, i - 1, j - 1), 1 + Cell(a, b, i, j - 1),
      1 + Cell(a, b, i - 1, j))
  }

  /** The cell (i, j) of the table of dist0: the diagonal is taken on a match. */
  function Greedy(a: string, b: string, i: nat, j: nat): (n: nat)
    requires i <= |a| && j <= |b|
  {
    if i == 0 then j
    else if j == 0 then i
    else if a[i - 1] == b[j - 1] then Greedy(a, b, i - 1, j - 1)
    else 1 + Min1(Greedy(a, b, i - 1, j), Greedy(a, b, i, j - 1), Greedy(a, b, i - 1, j - 1))
  }

  lemma CellIs(a: string, b: string, i: nat, j: nat)
    requires i <= |a| && j <= |b|
    ensures i == 0 || j == 0 ==> Cell(a, b, i, j) == i + j
    ensures i > 0 && j > 0 ==>
      Cell(a, b, i, j) == Min1((if a[i - 1] != b[j - 1] then 1 else 0) + Cell(a, b, i - 1, j - 1),
        1 + Cell(a, b, i, j - 1), 1 + Cell(a, b, i - 1, j))
  {
  }

  lemma GreedyIs(a: string, b: string, i: nat, j: nat)
    requires i <= |a| && j <= |b|
    ensures i == 0 || j == 0 ==> Greedy(a, b, i, j) == i + j
    ensures i > 0 && j > 0 ==>
      Greedy(a, b, i, j) == if a[i - 1] == b[j - 1] then Greedy(a, b, i - 1, j - 1)
                            else 1 + Min1(Greedy(a, b, i - 1, j), Greedy(a, b, i, j - 1), Greedy(a, b, i - 1, j - 1))
  {
  }

  /** Neighbouring cells differ by at most one. */
  lemma {:induction false} CellsAreClose(a: string, b: string, i: nat, j: nat)
    requires i <= |a| && j <= |b|
    ensures i < |a| ==> -1 <= Cell(a, b, i, j) - Cell(a, b, i + 1, j) <= 1
    ensures j < |b| ==> -1 <= Cell(a, b, i, j) - Cell(a, b, i, j + 1) <= 1
    decreases i + j
  {
    hide Cell;
    CellIs(a, b, i, j);
    if i < |a| { CellIs(a, b, i + 1, j); }
    if j < |b| { CellIs(a, b, i, j + 1); }
    if i > 0 { CellsAreClose(a, b, i - 1, j); }
    if j > 0 { CellsAreClose(a, b, i, j - 1); }
  }

  /** Taking the diagonal on a match loses nothing. */
  lemma {:induction false} GreedyIsMinimal(a: string, b: string, i: nat, j: nat)
    requires i <= |a| && j <= |b|
    ensures Greedy(a, b, i, j) == Cell(a, b, i, j)
  {
    hide Cell, Greedy;
    CellIs(a, b, i, j);
    GreedyIs(a, b, i, j);
    if i > 0 && j > 0 {
      GreedyIsMinimal(a, b, i - 1, j - 1);
      GreedyIsMinimal(a, b, i - 1, j);
      GreedyIsMinimal(a, b, i, j - 1);
      CellsAreClose(a, b, i - 1, j - 1);
    }
  }

  // ---------------------------------------------------------------- optimality, from the front

  lemma {:induction false} CostAtLeastRecursive(a: string, b: string, i: nat, j: nat, s: seq<Edit>)
    requires i <= |a| && j <= |b| && Turns(s, a[i..], b[j..])
    ensures EditRecursive(a, b, i, j) <= Cost(s)
    decreases |s|
  {
    RecursiveIsClose(a, b, i, j);
    if s != [] {
      match s[0] {
        case Insert(_) => CostAtLeastRecursive(a, b, i, j + 1, s[1..]);
        case Delete => CostAtLeastRecursive(a, b, i + 1, j, s[1..]);
        case _ => CostAtLeastRecursive(a, b, i + 1, j + 1, s[1..]);
      }
    }
  }

  lemma RecursiveIsClose(a: string, b: string, i: nat, j: nat)
    requires i <= |a| && j <= |b|
    ensures i < |a| ==> EditRecursive(a, b, i, j) <= 1 + EditRecursive(a, b, i + 1, j)
    ensures j < |b| ==> EditRecursive(a, b, i, j) <= 1 + EditRecursive(a, b, i, j + 1)
  {
  }

  lemma {:induction false} RecursiveIsAttained(a: string, b: string, i: nat, j: nat) returns (s: seq<Edit>)
    requires i <= |a| && j <= |b|
    ensures Turns(s, a[i..], b[j..]) && Cost(s) == EditRecursive(a, b, i, j)
    decreases |a| - i + |b| - j
  {
    if i == |a| && j == |b| {
      s := [];
    } else if i < |a| && EditRecursive(a, b, i, j) == 1 + EditRecursive(a, b, i + 1, j) {
      var rest := RecursiveIsAttained(a, b, i + 1, j);
      s := [Delete] + rest;
      assert s[1..] == rest && a[i..][1..] == a[i + 1..];
    } else if j < |b| && EditRecursive(a, b, i, j) == 1 + EditRecursive(a, b, i, j + 1) {
      var rest := RecursiveIsAttained(a, b, i, j + 1);
      s := [Insert(b[j])] + rest;
      assert s[1..] == rest && b[j..][1..] == b[j + 1..];
    } else {
      var rest := RecursiveIsAttained(a, b, i + 1, j + 1);
      s := [if a[i] == b[j] then Keep else Substitute(b[j])] + rest;
      assert s[1..] == rest && a[i..][1..] == a[i + 1..] && b[j..][1..] == b[j + 1..];
    }
  }

  // ---------------------------------------------------------------- optimality, from the back

  /** Scripts can be read from the back. */
  lemma {:induction false} TurnsFromBack(s: seq<Edit>, e: Edit, a: string, b: string)
    ensures Turns(s + [e], a, b) <==>
      match e
      case Keep => a != [] && b != [] && a[|a| - 1] == b[|b| - 1] && Turns(s, a[..|a| - 1], b[..|b| - 1])
      case Substitute(c) => a != [] && b != [] && b[|b| - 1] == c && Turns(s, a[..|a| - 1], b[..|b| - 1])
      case Insert(c) => b != [] && b[|b| - 1] == c && Turns(s, a, b[..|b| - 1])
      case Delete => a != [] && Turns(s, a[..|a| - 1], b)
  {
    if s == [] {
      assert s + [e] == [e];
    } else {
      assert (s + [e])[1..] == s[1..] + [e];
      var a', b' := if s[0].Insert? || a == [] then a else a[1..], if s[0].Delete? || b == [] then b else b[1..];
      TurnsFromBack(s[1..], e, a', b');
      if a != [] && !e.Insert? && a' != [] { assert a'[..|a'| - 1] == a[..|a| - 1][if s[0].Insert? then 0 else 1..]; }
      if b != [] && !e.Delete? && b' != [] { assert b'[..|b'| - 1] == b[..|b| - 1][if s[0].Delete? then 0 else 1..]; }
    }
  }

  /** The prefixes that are left when the last edit e has been taken off. */
  function Before(e: Edit, i: nat, j: nat): (int, int) {
    (if e.Insert? then i else i - 1, if e.Delete? then j else j - 1)
  }

  lemma TurnsPrefixes(s: seq<Edit>, e: Edit, a: string, b: string, i: nat, j: nat)
    requires i <= |a| && j <= |b|
    ensures var (i', j') := Before(e, i, j);
      Turns(s + [e], a[..i], b[..j]) <==>
        && i' >= 0 && j' >= 0 && Turns(s, a[..i'], b[..j'])
        && (e.Keep? ==> a[i - 1] == b[j - 1]) && (e.Substitute? || e.Insert? ==> e.c == b[j - 1])
  {
    TurnsFromBack(s, e, a[..i], b[..j]);
    if i > 0 { assert a[..i][..i - 1] == a[..i - 1]; }
    if j > 0 { assert b[..j][..j - 1] == b[..j - 1]; }
  }

  lemma {:induction false} CostAtLeastCell(a: string, b: string, i: nat, j: nat, s: seq<Edit>)
    requires i <= |a| && j <= |b| && Turns(s, a[..i], b[..j])
    ensures Cell(a, b, i, j) <= Cost(s)
    decreases |s|
  {
    CellIs(a, b, i, j);
    if s != [] {
      hide Cell, Turns;
      var rest, e := s[..|s| - 1], s[|s| - 1];
      assert s == rest + [e];
      CostOfLast(rest, e);
      TurnsPrefixes(rest, e, a, b, i, j);
      var (i', j') := Before(e, i, j);
      CostAtLeastCell(a, b, i', j', rest);
      CellsAreClose(a, b, i', j');
    }
  }

  lemma {:induction false} CostOfLast(s: seq<Edit>, e: Edit)
    ensures Cost(s + [e]) == Cost(s) + if e.Keep? then 0 else 1
  {
    if s == [] {
      assert s + [e] == [e];
    } else {
      assert (s + [e])[1..] == s[1..] + [e];
      CostOfLast(s[1..], e);
    }
  }

  lemma {:induction false} CellIsAttained(a: string, b: string, i: nat, j: nat) returns (s: seq<Edit>)
    requires i <= |a| && j <= |b|
    ensures Turns(s, a[..i], b[..j]) && Cost(s) == Cell(a, b, i, j)
    decreases i + j
  {
    CellIs(a, b, i, j);
    if i == 0 && j == 0 {
      s := [];
    } else {
      hide Cell, Turns;
      if i == 0 { CellIs(a, b, i, j - 1); }
      if j == 0 { CellIs(a, b, i - 1, j); }
      var e := if i > 0 && Cell(a, b, i, j) == 1 + Cell(a, b, i - 1, j) then Delete
               else if j > 0 && Cell(a, b, i, j) == 1 + Cell(a, b, i, j - 1) then Insert(b[j - 1])
               else if a[i - 1] == b[j - 1] then Keep else Substitute(b[j - 1]);
      var (i', j') := Before(e, i, j);
      var rest := CellIsAttained(a, b, i', j');
      s := rest + [e];
      CostOfLast(rest, e);
      TurnsPrefixes(rest, e, a, b, i, j);
    }
  }

  // ---------------------------------------------------------------- the three recurrences agree

  /** The suffix recursion gives the cost of the cheapest scripts. */
  lemma RecursiveIsDistance(a: string, b: string)
    ensures IsDistance(a, b, EditRecursive(a, b, 0, 0))
  {
    assert a[0..] == a && b[0..] == b;
    var s := RecursiveIsAttained(a, b, 0, 0);
    forall s | Turns(s, a, b) ensures EditRecursive(a, b, 0, 0) <= Cost(s) { CostAtLeastRecursive(a, b, 0, 0, s); }
  }

  /** Both tables give, in every cell, the cost of the cheapest scripts between prefixes. */
  lemma TablesHoldDistances(a: string, b: string, i: nat, j: nat)
    requires i <= |a| && j <= |b|
    ensures IsDistance(a[..i], b[..j], Cell(a, b, i, j)) && Greedy(a, b, i, j) == Cell(a, b, i, j)
  {
    GreedyIsMinimal(a, b, i, j);
    var s := CellIsAttained(a, b, i, j);
    forall s | Turns(s, a[..i], b[..j]) ensures Cell(a, b, i, j) <= Cost(s) { CostAtLeastCell(a, b, i, j, s); }
  }

  /** What the recursion from the front and the tables from the back end with is the same. */
  lemma AllAgree(a: string, b: string)
    ensures Greedy(a, b, |a|, |b|) == Cell(a, b, |a|, |b|) == EditRecursive(a, b, 0, 0)
    ensures IsDistance(a, b, Greedy(a, b, |a|, |b|))
  {
    RecursiveIsDistance(a, b);
    TablesHoldDistances(a, b, |a|, |b|);
    assert a[..|a|] == a && b[..|b|] == b;
    DistanceIsUnique(a, b, Cell(a, b, |a|, |b|), EditRecursive(a, b, 0, 0));
  }

  // ---------------------------------------------------------------- EditDistance.java

  /** The full table. */
  method Dist0(s1: string, s2: string) returns (d: int)
    ensures IsDistance(s1, s2, d)
  {
    hide Greedy, IsDistance, Cell, EditRecursive;
    var table := new int[|s1| + 1, |s2| + 1];
    for i := 0 to |s1| + 1
      invariant forall k :: 0 <= k < i ==> table[k, 0] == Greedy(s1, s2, k, 0)
    {
      GreedyIs(s1, s2, i, 0);
      table[i, 0] := i;
    }
    for j := 0 to |s2| + 1
      invariant forall k :: 0 <= k <= |s1| ==> table[k, 0] == Greedy(s1, s2, k, 0)
      invariant forall k :: 0 <= k < j ==> table[0, k] == Greedy(s1, s2, 0, k)
    {
      GreedyIs(s1, s2, 0, j);
      table[0, j] := j;
    }
    for i := 1 to |s1| + 1
      invariant forall k, l :: 0 <= k <= |s1| && 0 <= l <= |s2| && (k < i || l == 0) ==>
        table[k, l] == Greedy(s1, s2, k, l)
    {
      for j := 1 to |s2| + 1
        invariant forall k, l :: 0 <= k <= |s1| && 0 <= l <= |s2| && (k < i || l == 0 || (k == i && l < j)) ==>
          table[k, l] == Greedy(s1, s2, k, l)
      {
        GreedyIs(s1, s2, i, j);
        if s1[i - 1] == s2[j - 1] {
          table[i, j] := table[i - 1, j - 1];
        } else {
          table[i, j] := 1 + Min1(table[i - 1, j], table[i, j - 1], table[i - 1, j - 1]);
        }
      }
    }
    AllAgree(s1, s2);
    return table[|s1|, |s2|];
  }

  /** Two rows. */
  method Dist1(s1: string, s2: string) returns (d: int)
    requires |s1| == |s2|
    ensures IsDistance(s1, s2, d)
  {
    var len := |s1|;
    var r1 := new int[len + 1];
    var r2 := new int[len + 1];
    for j := 0 to len + 1
      invariant forall k :: 0 <= k < j ==> r1[k] == k
    {
      r1[j] := j;
    }
    r2[0] := 1;
    hide Greedy, IsDistance, Cell, EditRecursive;
    forall l | 0 <= l <= len ensures Greedy(s1, s2, 0, l) == l { GreedyIs(s1, s2, 0, l); }
    for i := 1 to len + 1
      invariant r1.Length == r2.Length == len + 1 && r1 != r2 && fresh(r1) && fresh(r2)
      invariant r2[0] == i && forall l :: 0 <= l <= len ==> r1[l] == Greedy(s1, s2, i - 1, l)
    {
      GreedyIs(s1, s2, i, 0);
      for j := 1 to len + 1
        invariant forall l :: 0 <= l <= len ==> r1[l] == Greedy(s1, s2, i - 1, l)
        invariant forall l :: 0 <= l < j ==> r2[l] == Greedy(s1, s2, i, l)
      {
        GreedyIs(s1, s2, i, j);
        if s1[i - 1] == s2[j - 1] {
          r2[j] := r1[j - 1];
        } else {
          r2[j] := 1 + Min1(r1[j], r1[j - 1], r2[j - 1]);
        }
      }
      r1, r2 := r2, r1;
      r2[0] := i + 1;
    }
    AllAgree(s1, s2);
    return r1[len];
  }

  /** One array, indexed by diagonal: before row t it holds the cells of row t - 1
      from index len - t + 1 on, and below them the first column. */
  method Dist3(s1: string, s2: string) returns (d: int)
    requires |s1| == |s2|
    ensures IsDistance(s1, s2, d)
  {
    var len := |s1|;
    hide Greedy, IsDistance, Cell, EditRecursive, HoldsRow;
    var r := new int[len + len + 1];
    for j := 0 to len
      invariant forall k :: 0 <= k < j ==> r[k] == len - k
    {
      r[j] := len - j;
    }
    for i := len to len + len + 1
      invariant forall k :: 0 <= k < len ==> r[k] == len - k
      invariant forall k :: len <= k < i ==> r[k] == k - len
    {
      r[i] := i - len;
    }
    var i := len;
    ghost var q := r[..];
    FirstRow(q, s1, s2);
    while i > 0
      invariant 0 <= i <= len && q == r[..]
      invariant forall k :: 0 <= k < i ==> r[k] == len - k
      invariant HoldsRow(q, s1, s2, len - i, i, 0, len + 1)
    {
      ghost var t := len - i;
      RowBegins(q, s1, s2, t + 1, i - 1);
      for j := 0 to len
        invariant q == r[..]
        invariant forall k :: 0 <= k < i ==> r[k] == len - k
        invariant HoldsRow(q, s1, s2, t + 1, i - 1, 0, j + 1)
        invariant HoldsRow(q, s1, s2, t, i, j, len + 1)
      {
        RowStep(q, s1, s2, t, i, j);
        ghost var v := Greedy(s1, s2, t + 1, j + 1);
        ghost var before := q;
        q := q[i + j := v];
        if s1[len - i] == s2[j] {
          assert q == before;
          continue;
        } else {
          r[i + j] := 1 + Min1(r[i + j - 1], r[i + j], r[i + j + 1]);
          assert r[..] == before[i + j := v];
        }
      }
      i := i - 1;
    }
    RowHas(q, s1, s2, len, 0, 0, len + 1, len);
    AllAgree(s1, s2);
    return r[len];
  }

  /** From index from + lo on, r holds the cells lo to hi of row t. */
  ghost predicate HoldsRow(r: seq<int>, s1: string, s2: string, t: int, from: int, lo: int, hi: int) {
    && 0 <= t <= |s1| && 0 <= lo <= hi <= |s2| + 1 && 0 <= from && from + hi <= |r|
    && forall k :: from + lo <= k < from + hi ==> r[k] == Greedy(s1, s2, t, k - from)
  }

  lemma FirstRow(r: seq<int>, s1: string, s2: string)
    requires |s1| == |s2| && |r| == |s2| + |s2| + 1
    requires forall k :: |s2| <= k < |r| ==> r[k] == k - |s2|
    ensures HoldsRow(r, s1, s2, 0, |s2|, 0, |s2| + 1)
  {
    forall l | 0 <= l <= |s2| ensures Greedy(s1, s2, 0, l) == l { GreedyIs(s1, s2, 0, l); }
  }

  lemma RowBegins(r: seq<int>, s1: string, s2: string, t: int, from: int)
    requires 0 <= t <= |s1| && 0 <= from < |r| && r[from] == t
    ensures HoldsRow(r, s1, s2, t, from, 0, 1)
  {
  }

  lemma RowHas(r: seq<int>, s1: string, s2: string, t: int, from: int, lo: int, hi: int, l: int)
    requires HoldsRow(r, s1, s2, t, from, lo, hi) && lo <= l < hi
    ensures 0 <= t <= |s1| && 0 <= l <= |s2| && 0 <= from + l < |r|
    ensures r[from + l] == Greedy(s1, s2, t, l)
  {
    var k := from + l;
  }

  /** Cell (t + 1, j + 1) is made of its three neighbours and replaces cell (t, j). */
  lemma RowStep(r: seq<int>, s1: string, s2: string, t: int, from: int, j: int)
    requires 0 <= t < |s1| && from > 0 && 0 <= j < |s2|
    requires HoldsRow(r, s1, s2, t + 1, from - 1, 0, j + 1) && HoldsRow(r, s1, s2, t, from, j, |s2| + 1)
    ensures from + j + 1 < |r|
    ensures var v := Greedy(s1, s2, t + 1, j + 1);
      && v == (if s1[t] == s2[j] then r[from + j] else 1 + Min1(r[from + j - 1], r[from + j], r[from + j + 1]))
      && HoldsRow(r[from + j := v], s1, s2, t + 1, from - 1, 0, j + 2)
      && HoldsRow(r[from + j := v], s1, s2, t, from, j + 1, |s2| + 1)
  {
    GreedyIs(s1, s2, t + 1, j + 1);
    RowHas(r, s1, s2, t + 1, from - 1, 0, j + 1, j);
    RowHas(r, s1, s2, t, from, j, |s2| + 1, j);
    RowHas(r, s1, s2, t, from, j, |s2| + 1, j + 1);
    RowMoves(r, s1, s2, t, from, j, Greedy(s1, s2, t + 1, j + 1));
  }

  lemma RowMoves(r: seq<int>, s1: string, s2: string, t: int, from: int, j: int, v: int)
    requires from > 0 && 0 <= j < |s2| && HoldsRow(r, s1, s2, t + 1, from - 1, 0, j + 1)
    requires HoldsRow(r, s1, s2, t, from, j, |s2| + 1)
    requires v == Greedy(s1, s2, t + 1, j + 1)
    ensures HoldsRow(r[from + j := v], s1, s2, t + 1, from - 1, 0, j + 2)
    ensures HoldsRow(r[from + j := v], s1, s2, t, from, j + 1, |s2| + 1)
  {
  }

  /** r holds the cells (d - j, j) of anti-diagonal d at index j, from lo on. */
  ghost predicate Diagonal(r: seq<int>, s1: string, s2: string, d: int, lo: int) {
    |s1| == |s2| && |r| == |s1| + 1 &&
    forall j :: 0 <= j <= |s1| && lo <= j && 0 <= d - j <= |s1| ==> r[j] == Greedy(s1, s2, d - j, j)
  }

  lemma FirstDiagonals(r1: seq<int>, r2: seq<int>, s1: string, s2: string)
    requires |s1| == |s2| >= 1 && |r1| == |r2| == |s1| + 1 && r1[0] == 0 && r2[0] == 1 && r2[1] == 1
    ensures Diagonal(r1, s1, s2, 0, 0) && Diagonal(r2, s1, s2, 1, 0)
  {
  }

  lemma DiagonalBegins(r: seq<int>, s1: string, s2: string, d: int)
    requires |s1| == |s2| && 0 < d <= |s1| && |r| == |s1| + 1 && r[d] == d
    ensures Diagonal(r, s1, s2, d, d)
  {
  }

  lemma DiagonalEnds(r: seq<int>, s1: string, s2: string, d: int)
    requires |s1| == |s2| && 0 < d <= |s1| && Diagonal(r, s1, s2, d, 1) && r[0] == d
    ensures Diagonal(r, s1, s2, d, 0)
  {
    GreedyIs(s1, s2, d, 0);
  }

  lemma ShortDiagonal(r: seq<int>, s1: string, s2: string, d: int, lo: int)
    requires |s1| == |s2| && |r| == |s1| + 1 && d >= |s1|
    ensures Diagonal(r, s1, s2, d, d - |s1|) ==> Diagonal(r, s1, s2, d, 0)
    ensures d > |s1| ==> (lo > |s1| ==> Diagonal(r, s1, s2, d, lo))
  {
  }

  lemma DiagonalHas(r: seq<int>, s1: string, s2: string, d: int, j: int)
    requires Diagonal(r, s1, s2, d, 0) && 0 <= j <= |s1| && 0 <= d - j <= |s1|
    ensures |s1| == |s2| && |r| == |s1| + 1 && r[j] == Greedy(s1, s2, d - j, j)
  {
  }

  /** Cell (d - j, j) is made of cells of the two diagonals before. */
  lemma DiagonalStep(r1: seq<int>, r2: seq<int>, r3: seq<int>, s1: string, s2: string, d: int, j: int)
    requires Diagonal(r1, s1, s2, d - 2, 0) && Diagonal(r2, s1, s2, d - 1, 0) && Diagonal(r3, s1, s2, d, j + 1)
    requires 1 <= j <= |s1| && 1 <= d - j <= |s1|
    ensures |s1| == |s2| && |r1| == |r2| == |r3| == |s1| + 1
    ensures var v := if s1[d - j - 1] == s2[j - 1] then r1[j - 1] else 1 + Min1(r1[j - 1], r2[j - 1], r2[j]);
      Diagonal(r3[j := v], s1, s2, d, j)
  {
    hide Greedy;
    GreedyIs(s1, s2, d - j, j);
    DiagonalHas(r1, s1, s2, d - 2, j - 1);
    DiagonalHas(r2, s1, s2, d - 1, j - 1);
    DiagonalHas(r2, s1, s2, d - 1, j);
  }

  /** Three anti-diagonals. The source assumes equal lengths; on empty strings it
      would leave its arrays. */
  method Dist6(s1: string, s2: string) returns (d: int)
    requires |s1| == |s2| >= 1
    ensures IsDistance(s1, s2, d)
  {
    hide Greedy, IsDistance, Cell, EditRecursive, Diagonal, Min1;
    var len := |s1|;
    var r1 := new int[len + 1];
    var r2 := new int[len + 1];
    var r3 := new int[len + 1];
    r1[0] := 0;
    r2[0] := 1;
    r2[1] := 1;
    ghost var p, q := r1[..], r2[..];
    FirstDiagonals(p, q, s1, s2);
    for i := 1 to len
      invariant fresh(r1) && fresh(r2) && fresh(r3) && r1 != r2 && r2 != r3 && r1 != r3
      invariant r1.Length == r2.Length == r3.Length == len + 1 && r1[..] == p && r2[..] == q
      invariant Diagonal(p, s1, s2, i - 1, 0) && Diagonal(q, s1, s2, i, 0)
    {
      r3[0] := i + 1;
      r3[i + 1] := i + 1;
      ghost var x := r3[..];
      DiagonalBegins(x, s1, s2, i + 1);
      var j, k := i, 1;
      while j > 0
        invariant 0 <= j <= i && j + k == i + 1
        invariant r1[..] == p && r2[..] == q && r3[..] == x && x[0] == i + 1
        invariant Diagonal(x, s1, s2, i + 1, j + 1)
      {
        DiagonalStep(p, q, x, s1, s2, i + 1, j);
        if s1[k - 1] == s2[j - 1] {
          r3[j] := r1[j - 1];
        } else {
          r3[j] := 1 + Min1(r1[j - 1], r2[j - 1], r2[j]);
        }
        x := x[j := r3[j]];
        j, k := j - 1, k + 1;
      }
      DiagonalEnds(x, s1, s2, i + 1);
      r1, r2, r3 := r2, r3, r1;
      p, q := q, x;
    }
    for i := 1 to len + 1
      invariant fresh(r1) && fresh(r2) && fresh(r3) && r1 != r2 && r2 != r3 && r1 != r3
      invariant r1.Length == r2.Length == r3.Length == len + 1 && r1[..] == p && r2[..] == q
      invariant Diagonal(p, s1, s2, len + i - 2, 0) && Diagonal(q, s1, s2, len + i - 1, 0)
    {
      ghost var x := r3[..];
      ShortDiagonal(x, s1, s2, len + i, len + 1);
      var j, k := len, i;
      while j >= i
        invariant i - 1 <= j <= len && j + k == len + i
        invariant r1[..] == p && r2[..] == q && r3[..] == x
        invariant Diagonal(x, s1, s2, len + i, j + 1)
      {
        DiagonalStep(p, q, x, s1, s2, len + i, j);
        if s1[k - 1] == s2[j - 1] {
          r3[j] := r1[j - 1];
        } else {
          r3[j] := 1 + Min1(r1[j - 1], r2[j - 1], r2[j]);
        }
        x := x[j := r3[j]];
        j, k := j - 1, k + 1;
      }
      ShortDiagonal(x, s1, s2, len + i, i);
      r1, r2, r3 := r2, r3, r1;
      p, q := q, x;
    }
    DiagonalHas(q, s1, s2, len + len, len);
    AllAgree(s1, s2);
    return r2[len];
  }

  // ---------------------------------------------------------------- editdistance.py

  /** The first row and column, the rows before i, and row i up to j are filled in. */
  ghost predicate Filled(table: seq<seq<int>>, a: string, b: string, i: int, j: int) {
    && |table| == |a| + 1 && (forall k :: 0 <= k <= |a| ==> |table[k]| == |b| + 1)
    && forall k, l :: 0 <= k <= |a| && 0 <= l <= |b| && (k < i || l == 0 || (k == i && l < j)) ==>
      table[k][l] == Cell(a, b, k, l)
  }

  lemma FillBegins(table: seq<seq<int>>, a: string, b: string)
    requires |table| == |a| + 1 && (forall k :: 0 <= k <= |a| ==> |table[k]| == |b| + 1)
    requires (forall k :: 0 <= k <= |a| ==> table[k][0] == k) && (forall l :: 0 <= l <= |b| ==> table[0][l] == l)
    ensures Filled(table, a, b, 1, 1)
  {
    forall k, l | 0 <= k <= |a| && 0 <= l <= |b| && (k == 0 || l == 0)
      ensures table[k][l] == Cell(a, b, k, l)
    {
      CellIs(a, b, k, l);
    }
  }

  lemma FillRow(table: seq<seq<int>>, a: string, b: string, i: int)
    requires Filled(table, a, b, i, |b| + 1) && 0 <= i
    ensures Filled(table, a, b, i + 1, 1)
  {
  }

  lemma FillShape(table: seq<seq<int>>, a: string, b: string, i: int, j: int)
    requires Filled(table, a, b, i, j)
    ensures |table| == |a| + 1 && (forall k :: 0 <= k <= |a| ==> |table[k]| == |b| + 1)
    ensures i > |a| ==> table[|a|][|b|] == Cell(a, b, |a|, |b|)
  {
  }

  lemma FillStep(table: seq<seq<int>>, a: string, b: string, i: int, j: int)
    requires 0 < i <= |a| && 0 < j <= |b| && Filled(table, a, b, i, j)
    ensures |table| == |a| + 1 && |table[i]| == |table[i - 1]| == |b| + 1
    ensures var v := Min1((if a[i - 1] != b[j - 1] then 1 else 0) + table[i - 1][j - 1], 1 + table[i][j - 1],
      1 + table[i - 1][j]);
      Filled(table[i := table[i][j := v]], a, b, i, j + 1)
  {
    hide Cell;
    CellIs(a, b, i, j);
  }

  /** A list of rows, filled with a full minimum in every cell. */
  method EditDynamic(a: string, b: string) returns (d: int)
    ensures IsDistance(a, b, d)
  {
    hide Cell, Greedy, EditRecursive, IsDistance, Filled, Min1;
    var table: seq<seq<int>> := [];
    for i := 0 to |a| + 1
      invariant |table| == i && forall k :: 0 <= k < i ==> |table[k]| == |b| + 1 && table[k][0] == k
      invariant i > 0 ==> forall l :: 0 <= l <= |b| ==> table[0][l] == l
    {
      var row := [];
      for j := 0 to |b| + 1
        invariant |row| == j && (j > 0 ==> row[0] == i) && (i == 0 ==> forall l :: 0 <= l < j ==> row[l] == l)
      {
        if i == 0 {
          row := row + [j];
        } else if j == 0 {
          row := row + [i];
        } else {
          row := row + [0];
        }
      }
      table := table + [row];
    }
    FillBegins(table, a, b);
    for i := 1 to |a| + 1
      invariant Filled(table, a, b, i, 1)
    {
      for j := 1 to |b| + 1
        invariant Filled(table, a, b, i, j)
      {
        FillStep(table, a, b, i, j);
        table := table[i := table[i][j :=
          Min1((if a[i - 1] != b[j - 1] then 1 else 0) + table[i - 1][j - 1], 1 + table[i][j - 1],
          1 + table[i - 1][j])]];
      }
      FillRow(table, a, b, i);
    }
    FillShape(table, a, b, |a| + 1, 1);
    AllAgree(a, b);
    return table[|a|][|b|];
  }
}
