/** What it means for the cells of the database to form an ordered tree, said
    node by node and pair by pair, and the three ways the code reshapes it.

    A Shape gives every node of the tree the open interval of names that its
    subtree may hold. It is proof data: no step of the program reads it. */
module DatabaseTree {
  import opened Database

  datatype Slot = Slot(lo: real, hi: real, name: real, value: Value, parent: Ptr)

  type Shape = map<Ptr, Slot>

  /** The subtree intervals of the head's own (imaginary) name lies below every name. */
  const HEAD_SLOT := Slot(-1.0, 1.0, -0.5, "", NULL)

  ghost predicate InLeft(g: Shape, y: Ptr, x: Ptr)
    requires x in g && y in g
  {
    g[x].lo <= g[y].lo && g[y].hi <= g[x].name
  }

  ghost predicate InRight(g: Shape, y: Ptr, x: Ptr)
    requires x in g && y in g
  {
    g[x].name <= g[y].lo && g[y].hi <= g[x].hi
  }

  ghost predicate Apart(g: Shape, x: Ptr, y: Ptr)
    requires x in g && y in g
  {
    g[x].hi <= g[y].lo || g[y].hi <= g[x].lo
  }

  /** Two subtrees are disjoint, or one lies within a child interval of the other;
      and an interval that holds a subtree hangs below a child pointer. */
  ghost predicate Laminar(cells: map<Ptr, Cell>, g: Shape, x: Ptr, y: Ptr)
    requires x in g && y in g && x in cells
  {
    && (InLeft(g, y, x) || InRight(g, y, x) || InLeft(g, x, y) || InRight(g, x, y) || Apart(g, x, y))
    && (InLeft(g, y, x) ==> cells[x].left != NULL)
    && (InRight(g, y, x) ==> cells[x].right != NULL)
  }

  ghost predicate ChildOk(g: Shape, x: Ptr, c: Ptr, lo: real, hi: real) {
    c != NULL ==> c in g && c != HEAD && g[c].lo == lo && g[c].hi == hi && g[c].parent == x
  }

  ghost predicate NodeOk(cells: map<Ptr, Cell>, g: Shape, x: Ptr)
    requires x in g && x in cells
  {
    && g[x].lo < g[x].name < g[x].hi
    && ChildOk(g, x, cells[x].left, g[x].lo, g[x].name)
    && ChildOk(g, x, cells[x].right, g[x].name, g[x].hi)
    && (x != HEAD ==>
          && 0.0 <= g[x].name < 1.0
          && g[x].parent in g && g[x].parent in cells
          && (cells[g[x].parent].left == x || cells[g[x].parent].right == x))
  }

  ghost predicate Tree(cells: map<Ptr, Cell>, g: Shape) {
    && HEAD in g && g[HEAD] == HEAD_SLOT
    && g.Keys <= cells.Keys && NULL !in cells
    && (forall x {:trigger NodeOk(cells, g, x)} :: x in g ==> NodeOk(cells, g, x))
    && (forall x, y {:trigger Laminar(cells, g, x, y)} :: x in g && y in g && x != y ==> Laminar(cells, g, x, y))
  }

  /** A search for k may still find it below x, and x itself is not k. */
  ghost predicate At(g: Shape, x: Ptr, k: Name) {
    x in g && g[x].lo < k < g[x].hi && k != g[x].name
  }

  function ChildOf(cells: map<Ptr, Cell>, g: Shape, x: Ptr, k: Name): Ptr
    requires x in g && x in cells
  {
    if k < g[x].name then cells[x].left else cells[x].right
  }

  /** The map from names to values that a tree stands for. */
  ghost predicate Represents(g: Shape, m: map<Name, Value>) {
    && (forall x :: x in g && x != HEAD ==> 0.0 <= g[x].name < 1.0 && g[x].name in m && m[g[x].name] == g[x].value)
    && (forall k :: k in m ==> exists x :: x in g && x != HEAD && g[x].name == k)
  }

  lemma NamesDiffer(cells: map<Ptr, Cell>, g: Shape, x: Ptr, y: Ptr)
    requires Tree(cells, g) && x in g && y in g && x != y
    ensures g[x].name != g[y].name
  {
    assert Laminar(cells, g, x, y) && NodeOk(cells, g, x) && NodeOk(cells, g, y);
  }

  /** The search's verdict is right: an empty slot means the name is nowhere in the tree. */
  lemma EmptySlotMeansAbsent(cells: map<Ptr, Cell>, g: Shape, cur: Ptr, k: Name, m: map<Name, Value>)
    requires Tree(cells, g) && At(g, cur, k) && ChildOf(cells, g, cur, k) == NULL && Represents(g, m)
    ensures k !in m
  {
    assert NodeOk(cells, g, cur);
    forall y | y in g && y != HEAD
      ensures g[y].name != k
    {
      assert NodeOk(cells, g, y);
      assert y == cur || Laminar(cells, g, cur, y);
    }
  }

  // ---------------------------------------------------------------- insertion

  ghost function Inserted(g: Shape, cur: Ptr, k: Name, v: Value, f: Ptr): Shape
    requires cur in g
  {
    g[f := if k < g[cur].name then Slot(g[cur].lo, g[cur].name, k, v, cur)
                              else Slot(g[cur].name, g[cur].hi, k, v, cur)]
  }

  /** cells' is cells with a fresh leaf f linked at cur. */
  ghost predicate Links(cells: map<Ptr, Cell>, cells': map<Ptr, Cell>, g: Shape, cur: Ptr, k: Name, v: Value, f: Ptr)
    requires cur in g && cur in cells
  {
    && f !in cells && f != NULL && f != cur
    && cells'.Keys == cells.Keys + {f}
    && cells'[f] == Cell(k, v, NULL, NULL)
    && cells'[cur] == (if k < g[cur].name then cells[cur].(left := f) else cells[cur].(right := f))
    && forall x :: x in cells && x != cur ==> cells'[x] == cells[x]
  }

  lemma InsertKeepsTree(cells: map<Ptr, Cell>, cells': map<Ptr, Cell>, g: Shape, cur: Ptr, k: Name, v: Value, f: Ptr)
    requires Tree(cells, g) && At(g, cur, k) && ChildOf(cells, g, cur, k) == NULL
    requires Links(cells, cells', g, cur, k, v, f)
    ensures Tree(cells', Inserted(g, cur, k, v, f))
  {
    var g' := Inserted(g, cur, k, v, f);
    assert NodeOk(cells, g, cur);
    forall x | x in g'
      ensures NodeOk(cells', g', x)
    {
      if x != f { assert NodeOk(cells, g, x); }
    }
    forall x, y | x in g' && y in g' && x != y
      ensures Laminar(cells', g', x, y)
    {
      if x != f && y != f {
        assert Laminar(cells, g, x, y);
      } else {
        NewLeafIsLaminar(cells, cells', g, cur, k, v, f, if x == f then y else x);
      }
    }
  }

  lemma NewLeafIsLaminar(cells: map<Ptr, Cell>, cells': map<Ptr, Cell>, g: Shape, cur: Ptr, k: Name, v: Value, f: Ptr,
      z: Ptr)
    requires Tree(cells, g) && At(g, cur, k) && ChildOf(cells, g, cur, k) == NULL
    requires Links(cells, cells', g, cur, k, v, f)
    requires z in g
    ensures Laminar(cells', Inserted(g, cur, k, v, f), f, z) && Laminar(cells', Inserted(g, cur, k, v, f), z, f)
  {
    assert NodeOk(cells, g, cur) && NodeOk(cells, g, z);
    assert z == cur || (Laminar(cells, g, cur, z) && Laminar(cells, g, z, cur));
  }

  // ---------------------------------------------------------------- bypassing a node with one child

  ghost function Moved1(v: real, from: real, to: real): real {
    if v == from then to else v
  }

  /** d leaves the tree: the interval ends at d's name widen to d's own, and
      d's child hangs below par. */
  ghost function Bypassed(cells: map<Ptr, Cell>, g: Shape, par: Ptr, d: Ptr): Shape
    requires d in g && d in cells
  {
    map x | x in g && x != d ::
      Slot(if cells[d].right == NULL then g[x].lo else Moved1(g[x].lo, g[d].name, g[d].lo),
           if cells[d].right == NULL then Moved1(g[x].hi, g[d].name, g[d].hi) else g[x].hi,
           g[x].name, g[x].value, if g[x].parent == d then par else g[x].parent)
  }

  ghost predicate Pinned(cells: map<Ptr, Cell>, g: Shape, par: Ptr, d: Ptr, k: Name) {
    && At(g, par, k) && par in cells && d == ChildOf(cells, g, par, k) && d != NULL
    && d in g && g[d].name == k
  }

  /** cells' is cells with the child slot of cur on k's side set to p. */
  ghost predicate Relinks(cells: map<Ptr, Cell>, cells': map<Ptr, Cell>, g: Shape, cur: Ptr, k: Name, p: Ptr)
    requires cur in g && cur in cells
  {
    && cells'.Keys == cells.Keys
    && cells'[cur] == (if k < g[cur].name then cells[cur].(left := p) else cells[cur].(right := p))
    && forall x :: x in cells && x != cur ==> cells'[x] == cells[x]
  }

  lemma BypassKeepsTree(cells: map<Ptr, Cell>, cells': map<Ptr, Cell>, g: Shape, par: Ptr, d: Ptr, k: Name)
    requires Tree(cells, g) && Pinned(cells, g, par, d, k)
    requires cells[d].right == NULL || cells[d].left == NULL
    requires Relinks(cells, cells', g, par, k, if cells[d].right == NULL then cells[d].left else cells[d].right)
    ensures Tree(cells', Bypassed(cells, g, par, d))
  {
    var g' := Bypassed(cells, g, par, d);
    assert NodeOk(cells, g, d) && NodeOk(cells, g, par) && Laminar(cells, g, par, d);
    forall x | x in g'
      ensures NodeOk(cells', g', x)
    {
      assert NodeOk(cells, g, x) && Laminar(cells, g, d, x) && Laminar(cells, g, x, d);
      var l, r := cells[x].left, cells[x].right;
      assert l != NULL && l != d ==> Laminar(cells, g, d, l);
      assert r != NULL && r != d ==> Laminar(cells, g, d, r);
    }
    forall x, y | x in g' && y in g' && x != y
      ensures Laminar(cells', g', x, y)
    {
      BypassKeepsLaminar(cells, cells', g, par, d, k, x, y);
    }
  }

  lemma BypassKeepsLaminar(cells: map<Ptr, Cell>, cells': map<Ptr, Cell>, g: Shape, par: Ptr, d: Ptr, k: Name, x: Ptr,
      y: Ptr)
    requires Tree(cells, g) && Pinned(cells, g, par, d, k)
    requires cells[d].right == NULL || cells[d].left == NULL
    requires Relinks(cells, cells', g, par, k, if cells[d].right == NULL then cells[d].left else cells[d].right)
    requires x in g && y in g && x != y && x != d && y != d
    ensures Laminar(cells', Bypassed(cells, g, par, d), x, y)
  {
    assert NodeOk(cells, g, d) && NodeOk(cells, g, x) && NodeOk(cells, g, y) && NodeOk(cells, g, par);
    assert Laminar(cells, g, x, y);
    assert Laminar(cells, g, x, d) && Laminar(cells, g, d, x);
    assert Laminar(cells, g, y, d) && Laminar(cells, g, d, y);
    assert Laminar(cells, g, par, d);
  }

  // ---------------------------------------------------------------- replacing a node by its successor

  /** n is on the left spine of d's right subtree, and p holds the pointer to it. */
  ghost predicate Spine(cells: map<Ptr, Cell>, g: Shape, d: Ptr, p: Ptr, n: Ptr)
    requires d in g && d in cells
  {
    && n in g && n != HEAD && n in cells && p in g && p in cells
    && g[n].lo == g[d].name && g[n].hi <= g[d].hi
    && (if p == d then cells[d].right == n
        else cells[p].left == n && g[p].lo == g[d].name && g[p].hi <= g[d].hi)
  }

  /** n leaves the tree, d takes its name and value, and p adopts n's right child. */
  ghost function Spliced(g: Shape, d: Ptr, p: Ptr, n: Ptr): Shape
    requires d in g && n in g
  {
    map x | x in g && x != n ::
      Slot(Moved1(g[x].lo, g[d].name, g[n].name), Moved1(g[x].hi, g[d].name, g[n].name),
           if x == d then g[n].name else g[x].name, if x == d then g[n].value else g[x].value,
           if g[x].parent == n then p else g[x].parent)
  }

  /** cells' is cells after *pnext = n->rchild. */
  ghost predicate Splices(cells: map<Ptr, Cell>, cells': map<Ptr, Cell>, d: Ptr, p: Ptr, n: Ptr)
    requires p in cells && n in cells
  {
    && cells'.Keys == cells.Keys
    && cells'[p] == (if p == d then cells[p].(right := cells[n].right) else cells[p].(left := cells[n].right))
    && forall x :: x in cells && x != p ==> cells'[x] == cells[x]
  }

  lemma SpliceKeepsTree(cells: map<Ptr, Cell>, cells': map<Ptr, Cell>, g: Shape, d: Ptr, p: Ptr, n: Ptr)
    requires Tree(cells, g) && d in g && d != HEAD && Spine(cells, g, d, p, n) && cells[n].left == NULL
    requires cells[d].left != NULL
    requires Splices(cells, cells', d, p, n)
    ensures Tree(cells', Spliced(g, d, p, n))
  {
    var g' := Spliced(g, d, p, n);
    assert NodeOk(cells, g, d) && NodeOk(cells, g, p) && NodeOk(cells, g, n) && Laminar(cells, g, d, n);
    forall x | x in g'
      ensures NodeOk(cells', g', x)
    {
      assert NodeOk(cells, g, x);
      if x != d { assert Laminar(cells, g, d, x) && Laminar(cells, g, n, x) && Laminar(cells, g, x, n); }
    }
    forall x, y | x in g' && y in g' && x != y
      ensures Laminar(cells', g', x, y)
    {
      SpliceKeepsLaminar(cells, cells', g, d, p, n, x, y);
    }
  }

  /** No name or interval end of the remaining nodes falls between d and its successor n. */
  lemma NothingBetween(cells: map<Ptr, Cell>, g: Shape, d: Ptr, p: Ptr, n: Ptr, z: Ptr)
    requires Tree(cells, g) && d in g && d != HEAD && Spine(cells, g, d, p, n) && cells[n].left == NULL
    requires z in g && z != n && z != d
    ensures g[d].name < g[n].name
    ensures g[z].name < g[d].name || g[n].name < g[z].name
    ensures g[z].lo <= g[d].name || g[n].name <= g[z].lo
    ensures g[z].hi <= g[d].name || g[n].name < g[z].hi
  {
    assert NodeOk(cells, g, z) && NodeOk(cells, g, n) && NodeOk(cells, g, d);
    assert Laminar(cells, g, n, z) && Laminar(cells, g, d, z);
  }

  /** Moving the interval ends from d's name to n's creates no new nesting. */
  lemma SpliceReflectsNesting(cells: map<Ptr, Cell>, g: Shape, d: Ptr, p: Ptr, n: Ptr, x: Ptr, y: Ptr)
    requires Tree(cells, g) && d in g && d != HEAD && Spine(cells, g, d, p, n) && cells[n].left == NULL
    requires x in g && y in g && x != y && x != n && y != n
    ensures InLeft(Spliced(g, d, p, n), y, x) ==> InLeft(g, y, x)
    ensures InRight(Spliced(g, d, p, n), y, x) ==> InRight(g, y, x)
  {
    assert NodeOk(cells, g, x) && NodeOk(cells, g, y) && NodeOk(cells, g, n) && NodeOk(cells, g, d);
    assert Laminar(cells, g, n, y) && Laminar(cells, g, n, x);
    if x != d { NothingBetween(cells, g, d, p, n, x); }
    if y != d { NothingBetween(cells, g, d, p, n, y); }
  }

  lemma SpliceKeepsNesting(cells: map<Ptr, Cell>, g: Shape, d: Ptr, p: Ptr, n: Ptr, x: Ptr, y: Ptr)
    requires Tree(cells, g) && d in g && d != HEAD && Spine(cells, g, d, p, n) && cells[n].left == NULL
    requires x in g && y in g && x != y && x != n && y != n
    ensures InLeft(g, y, x) ==> InLeft(Spliced(g, d, p, n), y, x)
    ensures InRight(g, y, x) ==> InRight(Spliced(g, d, p, n), y, x)
    ensures Apart(g, y, x) ==> Apart(Spliced(g, d, p, n), y, x)
  {
    assert NodeOk(cells, g, x) && NodeOk(cells, g, y) && NodeOk(cells, g, d);
    if x != d { NothingBetween(cells, g, d, p, n, x); }
    if y != d { NothingBetween(cells, g, d, p, n, y); }
  }

  lemma SpliceKeepsLaminar(cells: map<Ptr, Cell>, cells': map<Ptr, Cell>, g: Shape, d: Ptr, p: Ptr, n: Ptr, x: Ptr,
      y: Ptr)
    requires Tree(cells, g) && d in g && d != HEAD && Spine(cells, g, d, p, n) && cells[n].left == NULL
    requires cells[d].left != NULL
    requires Splices(cells, cells', d, p, n)
    requires x in g && y in g && x != y && x != n && y != n
    ensures Laminar(cells', Spliced(g, d, p, n), x, y)
  {
    assert Laminar(cells, g, x, y);
    SpliceKeepsNesting(cells, g, d, p, n, x, y);
    SpliceKeepsNesting(cells, g, d, p, n, y, x);
    SpliceReflectsNesting(cells, g, d, p, n, x, y);
    if x == p {
      assert Laminar(cells, g, n, y) && NodeOk(cells, g, n) && NodeOk(cells, g, p) && NodeOk(cells, g, y);
    }
  }
}
