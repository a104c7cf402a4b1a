/** The circular doubly linked free list threaded through the payloads of free
    blocks, and the contents of the live payloads. */
module FreeList {
  import opened HeapLayout

  function Succ(n: nat, i: nat): nat
    requires i < n
  {
    if i + 1 < n then i + 1 else 0
  }

  function Pred(n: nat, i: nat): nat
    requires i < n
  {
    if i > 0 then i - 1 else n - 1
  }

  /** payload[0] of the i-th listed block points to the next one, payload[1] to the previous one. */
  ghost predicate LinkOk(m: Memory, fl: seq<nat>, i: nat)
    requires i < |fl|
  {
    && 0 < fl[i] && fl[i] + 2 < |m|
    && m[fl[i] + 1] == 8 * fl[Succ(|fl|, i)]
    && m[fl[i] + 2] == 8 * fl[Pred(|fl|, i)]
  }

  ghost predicate Linked(m: Memory, fl: seq<nat>) {
    forall i {:trigger LinkOk(m, fl, i)} :: 0 <= i < |fl| ==> LinkOk(m, fl, i)
  }

  ghost predicate Apart4(fl: seq<nat>, i: nat, j: nat)
    requires i < |fl| && j < |fl|
  {
    fl[i] + 4 <= fl[j] || fl[j] + 4 <= fl[i]
  }

  /** Listed blocks are different blocks of at least four words. */
  ghost predicate Spread(fl: seq<nat>) {
    forall i, j :: 0 <= i < |fl| && 0 <= j < |fl| && i != j ==> Apart4(fl, i, j)
  }

  /** The list holds exactly the free blocks outside L, each once. */
  ghost predicate Listed(H: Blocks, fl: seq<nat>, L: set<nat>) {
    && (forall i, j :: 0 <= i < j < |fl| ==> fl[i] != fl[j])
    && (forall b :: b in fl <==> b in H && H[b].flag == 0 && b !in L)
  }

  function Head(fl: seq<nat>): nat {
    if fl == [] then NULL else fl[0]
  }

  function Without(fl: seq<nat>, k: nat): seq<nat>
    requires k < |fl|
  {
    fl[..k] + fl[k + 1..]
  }

  ghost predicate LinkWord(fl: seq<nat>, w: int) {
    exists b :: b in fl && (w == b + 1 || w == b + 2)
  }

  // ---------------------------------------------------------------- unlinking and linking

  function Unlink(m: Memory, p: nat, q: nat): Memory
    requires p + 1 < |m| && q + 2 < |m|
  {
    m[p + 1 := 8 * q][q + 2 := 8 * p]
  }

  /** Where the neighbours of the i-th remaining block are in the old list. */
  lemma WithoutNeighbours(fl: seq<nat>, k: nat, i: nat)
    requires k < |fl| && i < |fl| - 1
    ensures var n, j := |fl|, if i < k then i else i + 1;
            && Without(fl, k)[i] == fl[j]
            && Without(fl, k)[Succ(n - 1, i)] == (if Succ(n, j) == k then fl[Succ(n, k)] else fl[Succ(n, j)])
            && Without(fl, k)[Pred(n - 1, i)] == (if Pred(n, j) == k then fl[Pred(n, k)] else fl[Pred(n, j)])
  {
  }

  lemma UnlinkKeepsLinked(m: Memory, fl: seq<nat>, k: nat)
    requires Linked(m, fl) && Spread(fl) && k < |fl| && 2 <= |fl|
    requires LinkOk(m, fl, Pred(|fl|, k)) && LinkOk(m, fl, Succ(|fl|, k))
    ensures Linked(Unlink(m, fl[Pred(|fl|, k)], fl[Succ(|fl|, k)]), Without(fl, k))
  {
    var n := |fl|;
    var m' := Unlink(m, fl[Pred(n, k)], fl[Succ(n, k)]);
    var fl' := Without(fl, k);
    forall i | 0 <= i < |fl'|
      ensures LinkOk(m', fl', i)
    {
      var j := if i < k then i else i + 1;
      WithoutNeighbours(fl, k, i);
      UnlinkAt(m, fl, k, j);
    }
  }

  lemma UnlinkAt(m: Memory, fl: seq<nat>, k: nat, j: nat)
    requires Linked(m, fl) && Spread(fl) && k < |fl| && 2 <= |fl| && j < |fl| && j != k
    requires LinkOk(m, fl, Pred(|fl|, k)) && LinkOk(m, fl, Succ(|fl|, k))
    ensures var n := |fl|;
            var m' := Unlink(m, fl[Pred(n, k)], fl[Succ(n, k)]);
            && 0 < fl[j] && fl[j] + 2 < |m'|
            && m'[fl[j] + 1] == 8 * (if Succ(n, j) == k then fl[Succ(n, k)] else fl[Succ(n, j)])
            && m'[fl[j] + 2] == 8 * (if Pred(n, j) == k then fl[Pred(n, k)] else fl[Pred(n, j)])
  {
    var n := |fl|;
    assert LinkOk(m, fl, j);
    assert (j != Pred(n, k) ==> Apart4(fl, j, Pred(n, k))) && (j != Succ(n, k) ==> Apart4(fl, j, Succ(n, k)));
    assert Pred(n, k) != Succ(n, k) ==> Apart4(fl, Pred(n, k), Succ(n, k));
  }

  function Link(m: Memory, fb: nat, first: nat, last: nat): Memory
    requires fb + 2 < |m| && last + 1 < |m| && first + 2 < |m|
  {
    m[fb + 1 := 8 * first][fb + 2 := 8 * last][last + 1 := 8 * fb][first + 2 := 8 * fb]
  }

  lemma LinkKeepsLinked(m: Memory, fl: seq<nat>, fb: nat)
    requires Linked(m, fl) && Spread([fb] + fl) && fl != [] && 0 < fb && fb + 2 < |m|
    requires LinkOk(m, fl, 0) && LinkOk(m, fl, |fl| - 1)
    ensures Linked(Link(m, fb, fl[0], fl[|fl| - 1]), [fb] + fl)
  {
    var n := |fl|;
    var m', fl' := Link(m, fb, fl[0], fl[n - 1]), [fb] + fl;
    forall i | 0 <= i < |fl'|
      ensures LinkOk(m', fl', i)
    {
      if i == 0 {
        assert fl'[0] == fb && fl'[1] == fl[0] && fl'[n] == fl[n - 1];
        assert Apart4(fl', 0, 1) && Apart4(fl', 0, n);
      } else {
        LinkAt(m, fl, fb, i - 1);
        assert fl'[i] == fl[i - 1];
        assert fl'[Succ(n + 1, i)] == if i < n then fl[i] else fb;
        assert fl'[Pred(n + 1, i)] == if i > 1 then fl[i - 2] else fb;
      }
    }
  }

  lemma LinkAt(m: Memory, fl: seq<nat>, fb: nat, j: nat)
    requires Linked(m, fl) && Spread([fb] + fl) && j < |fl| && fb + 2 < |m|
    requires LinkOk(m, fl, 0) && LinkOk(m, fl, |fl| - 1)
    ensures var n := |fl|;
            var m' := Link(m, fb, fl[0], fl[n - 1]);
            && 0 < fl[j] && fl[j] + 2 < |m'|
            && m'[fl[j] + 1] == 8 * (if j + 1 < n then fl[j + 1] else fb)
            && m'[fl[j] + 2] == 8 * (if j > 0 then fl[j - 1] else fb)
  {
    var fl', n := [fb] + fl, |fl|;
    assert LinkOk(m, fl, j) && fl'[j + 1] == fl[j] && fl'[1] == fl[0] && fl'[n] == fl[n - 1] && fl'[0] == fb;
    assert Apart4(fl', j + 1, 0) && (j != 0 ==> Apart4(fl', j + 1, 1)) && (j != n - 1 ==> Apart4(fl', j + 1, n));
  }

  /** Writes that miss every link word keep the links. */
  lemma LinksStay(m: Memory, m': Memory, fl: seq<nat>)
    requires Linked(m, fl) && |m'| == |m|
    requires forall b :: b in fl && b + 2 < |m| ==> m'[b + 1] == m[b + 1] && m'[b + 2] == m[b + 2]
    ensures Linked(m', fl)
  {
    forall i | 0 <= i < |fl| ensures LinkOk(m', fl, i) { assert LinkOk(m, fl, i) && fl[i] in fl; }
  }

  lemma FreeBlocksSpread(m: Memory, lo: nat, end: nat, H: Blocks, fl: seq<nat>, L: set<nat>)
    requires Tiling(m, lo, end, H) && Listed(H, fl, L)
    ensures Spread(fl)
    ensures forall b :: b in fl ==> b in H && lo < b < end && BlockOk(m, lo, end, H, b) && m[b] % 2 == 0
  {
    forall b | b in fl
      ensures b in H && lo < b < end && BlockOk(m, lo, end, H, b) && m[b] % 2 == 0
    {
      assert BlockOk(m, lo, end, H, b);
    }
    forall i, j | 0 <= i < |fl| && 0 <= j < |fl| && i != j
      ensures Apart4(fl, i, j)
    {
      assert fl[i] in fl && fl[j] in fl && fl[i] != fl[j];
      assert BlockOk(m, lo, end, H, fl[i]) && BlockOk(m, lo, end, H, fl[j]);
      assert Before(H, fl[i], fl[j]) && Before(H, fl[j], fl[i]);
    }
  }

  /** Link writes in free blocks keep the tiling. */
  lemma LinkWritesKeepTiling(m: Memory, m': Memory, lo: nat, end: nat, H: Blocks, F: seq<nat>)
    requires Tiling(m, lo, end, H) && |m'| == |m|
    requires forall b :: b in F ==> b in H && lo < b < end
    requires forall w :: 0 <= w < |m| && m'[w] != m[w] ==> LinkWord(F, w)
    ensures Tiling(m', lo, end, H)
  {
    forall b | b in H && b + H[b].size <= |m| && 1 <= H[b].size
      ensures m'[b] == m[b] && m'[b + H[b].size - 1] == m[b + H[b].size - 1]
    {
      TagIsNoLinkWord(m, lo, end, H, F, b);
    }
    SameTagsKeepTiling(m, m', lo, end, H);
  }

  lemma TagIsNoLinkWord(m: Memory, lo: nat, end: nat, H: Blocks, F: seq<nat>, b: nat)
    requires Tiling(m, lo, end, H) && b in H
    requires forall c :: c in F ==> c in H && lo < c < end
    ensures !LinkWord(F, b) && !LinkWord(F, b + H[b].size - 1)
  {
    forall c | c in F
      ensures b != c + 1 && b != c + 2 && b + H[b].size - 1 != c + 1 && b + H[b].size - 1 != c + 2
    {
      assert BlockOk(m, lo, end, H, b) && BlockOk(m, lo, end, H, c) && Before(H, b, c) && Before(H, c, b);
    }
  }

  // ---------------------------------------------------------------- live payloads

  ghost predicate IsLive(lo: nat, end: nat, H: Blocks, b: nat) {
    b in H && lo < b < end && H[b].flag == 1
  }

  /** The live blocks and the words of their payloads. */
  ghost function Live(m: Memory, lo: nat, end: nat, H: Blocks): map<nat, Memory>
    requires Tiling(m, lo, end, H)
  {
    map b: nat | b in H && IsLive(lo, end, H, b) ::
      assert BlockOk(m, lo, end, H, b); m[b + 1..b + H[b].size - 1]
  }

  /** Block b of H is live after as before, with the same words. */
  ghost predicate Untouched(m: Memory, m': Memory, lo: nat, end: nat, end': nat, H: Blocks, H': Blocks, b: nat)
    requires IsLive(lo, end, H, b) && Tiling(m, lo, end, H) && |m| == |m'|
  {
    && IsLive(lo, end', H', b) && H'[b].size == H[b].size
    && BlockOk(m, lo, end, H, b)
    && forall w :: b < w < b + H[b].size - 1 ==> m'[w] == m[w]
  }

  lemma LiveStays(m: Memory, m': Memory, lo: nat, end: nat, end': nat, H: Blocks, H': Blocks, D: set<nat>)
    requires Tiling(m, lo, end, H) && Tiling(m', lo, end', H') && |m'| == |m|
    requires forall b :: IsLive(lo, end', H', b) && b !in D ==> IsLive(lo, end, H, b)
    requires forall b :: IsLive(lo, end, H, b) && b !in D ==> Untouched(m, m', lo, end, end', H, H', b)
    ensures Live(m', lo, end', H') - D == Live(m, lo, end, H) - D
  {
    var l, l' := Live(m, lo, end, H) - D, Live(m', lo, end', H') - D;
    assert l.Keys == l'.Keys;
    forall b | b in l
      ensures l'[b] == l[b]
    {
      assert IsLive(lo, end, H, b) && Untouched(m, m', lo, end, end', H, H', b);
    }
  }

  /** Link writes in free blocks touch no live payload. */
  lemma LinkWritesKeepLive(m: Memory, m': Memory, lo: nat, end: nat, H: Blocks, F: seq<nat>)
    requires Tiling(m, lo, end, H) && Tiling(m', lo, end, H) && |m'| == |m|
    requires forall b :: b in F ==> b in H && lo < b < end && H[b].flag == 0
    requires forall w :: 0 <= w < |m| && m'[w] != m[w] ==> LinkWord(F, w)
    ensures Live(m', lo, end, H) == Live(m, lo, end, H)
  {
    forall b: nat | IsLive(lo, end, H, b)
      ensures Untouched(m, m', lo, end, end, H, H, b)
    {
      assert BlockOk(m, lo, end, H, b);
      forall w | b < w < b + H[b].size - 1
        ensures m'[w] == m[w]
      {
        forall c | c in F ensures w != c + 1 && w != c + 2 {
          assert BlockOk(m, lo, end, H, c) && Before(H, b, c) && Before(H, c, b);
        }
      }
    }
    LiveStays(m, m', lo, end, end, H, H, {});
    assert Live(m', lo, end, H) - {} == Live(m', lo, end, H) && Live(m, lo, end, H) - {} == Live(m, lo, end, H);
  }

  /** No two free blocks are neighbours, except perhaps next to b. */
  ghost predicate NoAdjacentBut(H: Blocks, b: nat) {
    forall c :: c in H && c != b && H[c].flag == 0 && c + H[c].size in H && c + H[c].size != b ==>
      H[c + H[c].size].flag == 1
  }
}
