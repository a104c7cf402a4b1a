/** The order of the names that are stored, while they are being moved. */
module DatabaseOrder {
  import opened Database
  import opened DatabaseTree
  import opened DatabaseSafety
  import opened DatabaseSteps
  import opened DatabaseProgress
  import opened DatabaseRuns

  /** A two-child delete has copied n's name into d and not yet unlinked n. */
  ghost predicate BeingCopied(s: State, n: Ptr, d: Ptr) {
    exists t :: t in s.threads && (s.threads[t].pc.RVal? || s.threads[t].pc.RPtr?) && s.threads[t].pc.d == d
      && s.threads[t].pc.n == n
  }

  /** The stored name is the tree's, or the successor's that is being copied there. */
  lemma StoredName(s: State, g: Shape, x: Ptr) returns (n: Ptr)
    requires Inv(s, g) && x in g && x != HEAD
    ensures x in s.cells && (n != x ==> BeingCopied(s, n, x))
    ensures n in g && s.cells[x].name == g[n].name && g[x].name <= g[n].name
    ensures n != x ==> forall y :: y in g && g[x].name < g[y].name ==>
      g[n].name <= g[y].name && (g[y].name == g[n].name ==> y == n)
    ensures n == x ==> s.cells[x].name == g[x].name
  {
    assert TextOk(s, g, x);
    if s.cells[x].name == g[x].name {
      n := x;
    } else {
      var t :| t in s.threads && ((s.threads[t].pc.RVal? || s.threads[t].pc.RPtr?) && s.threads[t].pc.d == x);
      n := s.threads[t].pc.n;
      assert ThreadOk(s.cells, g, s.threads[t]);
      IsSuccessor(s, g, t, n);
    }
  }

  /** While n's name is copied into d, both store it, and n's own is the tree's. */
  lemma CopiedNames(s: State, g: Shape, n: Ptr, d: Ptr)
    requires Inv(s, g) && BeingCopied(s, n, d)
    ensures d in g && n in g && d in s.cells && n in s.cells && g[d].name < g[n].name
    ensures s.cells[d].name == g[n].name == s.cells[n].name && g[n].name < g[d].hi
  {
    var t :| t in s.threads && (s.threads[t].pc.RVal? || s.threads[t].pc.RPtr?) && s.threads[t].pc.d == d
      && s.threads[t].pc.n == n;
    assert ThreadOk(s.cells, g, s.threads[t]);
    SourceIsTrue(s, g, t, n);
    assert NodeOk(s.cells, g, n);
  }

  /** The stored names are in the tree's order, strictly, except that a name being
      copied is stored in two neighbouring nodes. */
  lemma StoredOrder(s: State, g: Shape, x: Ptr, y: Ptr)
    requires Inv(s, g) && x in g && y in g && x != HEAD && y != HEAD && g[x].name < g[y].name
    ensures x in s.cells && y in s.cells && s.cells[x].name <= s.cells[y].name
    ensures s.cells[x].name == s.cells[y].name <==> BeingCopied(s, y, x)
  {
    var n := StoredName(s, g, x);
    var m := StoredName(s, g, y);
    if BeingCopied(s, y, x) { CopiedNames(s, g, y, x); }
    if s.cells[x].name == s.cells[y].name && n == y && n != x { assert BeingCopied(s, y, x); }
  }

  /** At every state of every run the stored names are in search order: what is
      reached through a node's left child has a smaller name, what is reached
      through its right child a larger one, or an equal one just when it is the
      successor whose name a two-child delete has copied and not yet unlinked. */
  lemma TreeIsOrdered(states: seq<State>, acts: seq<Action>, i: nat, y: Ptr, path: seq<Ptr>, x: Ptr)
    requires IsRun(states, acts) && i < |states| && y != HEAD && Reachable(states[i].cells, y)
    requires Under(states[i].cells, path, x)
    ensures y in states[i].cells && x in states[i].cells && path[0] in states[i].cells
    ensures var c := states[i].cells; path[0] == c[y].left ==> c[x].name < c[y].name
    ensures var c := states[i].cells;
            path[0] == c[y].right ==>
              c[y].name <= c[x].name && (c[y].name == c[x].name <==> BeingCopied(states[i], x, y))
  {
    var s := states[i];
    var auxs := Annotate(states, acts);
    assert AuxOk(s, auxs[i]);
    var g := auxs[i].g;
    var above :| IsPath(s.cells, above, y);
    ReachableIsTree(s.cells, g, above, y);
    assert NodeOk(s.cells, g, y);
    if |path| > 1 { assert Edge(s.cells, path[|path| - 2], path[|path| - 1]); }
    if path[0] == s.cells[y].left {
      SubtreeInside(s.cells, g, path, x);
      assert NodeOk(s.cells, g, x);
      StoredOrder(s, g, x, y);
      if BeingCopied(s, y, x) { CopiedNames(s, g, y, x); }
    }
    if path[0] == s.cells[y].right {
      SubtreeInside(s.cells, g, path, x);
      assert NodeOk(s.cells, g, x);
      StoredOrder(s, g, y, x);
    }
  }

  /** Two nodes in reach store the same name just when one's is being copied into the other. */
  lemma StoredNamesDiffer(states: seq<State>, acts: seq<Action>, i: nat, x: Ptr, y: Ptr)
    requires IsRun(states, acts) && i < |states| && x != y && x != HEAD && y != HEAD
    requires Reachable(states[i].cells, x) && Reachable(states[i].cells, y)
    ensures x in states[i].cells && y in states[i].cells
    ensures states[i].cells[x].name == states[i].cells[y].name <==>
      BeingCopied(states[i], x, y) || BeingCopied(states[i], y, x)
  {
    var s := states[i];
    var auxs := Annotate(states, acts);
    assert AuxOk(s, auxs[i]);
    var g := auxs[i].g;
    var px :| IsPath(s.cells, px, x);
    var py :| IsPath(s.cells, py, y);
    ReachableIsTree(s.cells, g, px, x);
    ReachableIsTree(s.cells, g, py, y);
    NamesDiffer(s.cells, g, x, y);
    if BeingCopied(s, x, y) { CopiedNames(s, g, x, y); }
    if BeingCopied(s, y, x) { CopiedNames(s, g, y, x); }
    if g[x].name < g[y].name { StoredOrder(s, g, x, y); } else { StoredOrder(s, g, y, x); }
  }
}
