/** What each change that the allocator makes to the tags does to the tiling,
    the free list and the live payloads. */
module HeapSteps {
  import opened HeapLayout
  import opened FreeList

  /** Everything the allocator maintains, while the free blocks of L are off the list. */
  ghost predicate Sound(m: Memory, lo: nat, end: nat, H: Blocks, fl: seq<nat>, L: set<nat>) {
    Tiling(m, lo, end, H) && Linked(m, fl) && Listed(H, fl, L)
  }

  lemma TagsMissLinks(m: Memory, lo: nat, end: nat, H: Blocks, fl: seq<nat>, L: set<nat>, b: nat, w: nat)
    requires Sound(m, lo, end, H, fl, L) && b in H && b !in fl && b <= w < b + H[b].size
    ensures forall c :: c in fl ==> w != c + 1 && w != c + 2
  {
    FreeBlocksSpread(m, lo, end, H, fl, L);
    forall c | c in fl
      ensures w != c + 1 && w != c + 2
    {
      assert BlockOk(m, lo, end, H, c) && BlockOk(m, lo, end, H, b) && Before(H, b, c) && Before(H, c, b);
    }
  }

  /** Writes between the starts b and e of blocks keep every live payload elsewhere. */
  lemma RegionKeepsLive(m: Memory, m': Memory, lo: nat, end: nat, end': nat, H: Blocks, H': Blocks, b: nat, e: nat,
      D: set<nat>)
    requires Tiling(m, lo, end, H) && Tiling(m', lo, end', H') && |m'| == |m| && b in H
    requires forall w :: 0 <= w < |m| && m'[w] != m[w] ==> b <= w < e
    requires forall c: nat :: IsLive(lo, end, H, c) && c !in D ==>
      (c < b || e <= c) && IsLive(lo, end', H', c) && H'[c].size == H[c].size
    requires forall c: nat :: IsLive(lo, end', H', c) && c !in D ==> IsLive(lo, end, H, c)
    ensures Live(m', lo, end', H') - D == Live(m, lo, end, H) - D
  {
    forall c: nat | IsLive(lo, end, H, c) && c !in D
      ensures Untouched(m, m', lo, end, end', H, H', c)
    {
      assert BlockOk(m, lo, end, H, c) && Before(H, c, b);
    }
    LiveStays(m, m', lo, end, end', H, H', D);
  }

  lemma LiveSize(m: Memory, lo: nat, end: nat, H: Blocks, b: nat)
    requires Tiling(m, lo, end, H)
    ensures b in Live(m, lo, end, H) <==> IsLive(lo, end, H, b)
    ensures IsLive(lo, end, H, b) ==> |Live(m, lo, end, H)[b]| == H[b].size - TAGS
  {
    if IsLive(lo, end, H, b) { assert BlockOk(m, lo, end, H, b); }
  }

  /** The flag of b goes from 1 to 0: b is no longer live, and not yet listed. */
  lemma FreeTagStep(m: Memory, lo: nat, end: nat, H: Blocks, fl: seq<nat>, b: nat)
    requires Sound(m, lo, end, H, fl, {}) && IsLive(lo, end, H, b) && NoAdjacentBut(H, NULL)
    requires BlockOk(m, lo, end, H, b)
    ensures var m', H' := Tagged(m, b, H[b].size, 0), H[b := H[b].(flag := 0)];
            && Sound(m', lo, end, H', fl, {b}) && NoAdjacentBut(H', b)
            && Live(m', lo, end, H') == Live(m, lo, end, H) - {b}
  {
    var m', H' := Tagged(m, b, H[b].size, 0), H[b := H[b].(flag := 0)];
    RetagKeepsTiling(m, lo, end, H, b, 0);
    RetagKeepsLinks(m, lo, end, H, fl, {}, b, 0);
    RetagKeepsLive(m, lo, end, H, b, 0);
    forall c | c in H ensures 0 < c { assert BlockOk(m, lo, end, H, c); }
    LiveSize(m', lo, end, H', b);
    assert Live(m', lo, end, H') - {b} == Live(m', lo, end, H');
  }

  lemma RetagKeepsLinks(m: Memory, lo: nat, end: nat, H: Blocks, fl: seq<nat>, L: set<nat>, b: nat, flag: nat)
    requires Sound(m, lo, end, H, fl, L) && b in H && b !in fl && BlockOk(m, lo, end, H, b)
    ensures Linked(Tagged(m, b, H[b].size, flag), fl)
  {
    TagsMissLinks(m, lo, end, H, fl, L, b, b);
    TagsMissLinks(m, lo, end, H, fl, L, b, b + H[b].size - 1);
    LinksStay(m, Tagged(m, b, H[b].size, flag), fl);
  }

  lemma RetagKeepsLive(m: Memory, lo: nat, end: nat, H: Blocks, b: nat, flag: nat)
    requires Tiling(m, lo, end, H) && b in H && lo < b < end && BlockOk(m, lo, end, H, b) && flag <= 1
    ensures var m', H' := Tagged(m, b, H[b].size, flag), H[b := H[b].(flag := flag)];
            Tiling(m', lo, end, H') && Live(m', lo, end, H') - {b} == Live(m, lo, end, H) - {b}
  {
    var m', H' := Tagged(m, b, H[b].size, flag), H[b := H[b].(flag := flag)];
    RetagKeepsTiling(m, lo, end, H, b, flag);
    forall c: nat | IsLive(lo, end, H, c) && c != b
      ensures c < b || b + H[b].size <= c
    {
      assert Before(H, b, c);
    }
    RegionKeepsLive(m, m', lo, end, end, H, H', b, b + H[b].size, {b});
  }

  /** The flag of an unlisted free block goes from 0 to 1: it becomes live. */
  lemma UseTagStep(m: Memory, lo: nat, end: nat, H: Blocks, fl: seq<nat>, b: nat)
    requires Sound(m, lo, end, H, fl, {b}) && b in H && lo < b < end && H[b].flag == 0
    requires NoAdjacentBut(H, NULL) && BlockOk(m, lo, end, H, b)
    ensures var m', H' := Tagged(m, b, H[b].size, 1), H[b := H[b].(flag := 1)];
            && Sound(m', lo, end, H', fl, {}) && NoAdjacentBut(H', NULL)
            && Live(m', lo, end, H') - {b} == Live(m, lo, end, H)
            && b !in Live(m, lo, end, H) && b in Live(m', lo, end, H') && |Live(m', lo, end, H')[b]| == H[b].size - TAGS
  {
    var m', H' := Tagged(m, b, H[b].size, 1), H[b := H[b].(flag := 1)];
    RetagKeepsTiling(m, lo, end, H, b, 1);
    RetagKeepsLinks(m, lo, end, H, fl, {b}, b, 1);
    RetagKeepsLive(m, lo, end, H, b, 1);
    LiveSize(m', lo, end, H', b);
    LiveSize(m, lo, end, H, b);
    assert Live(m, lo, end, H) - {b} == Live(m, lo, end, H);
  }

  /** Two unlisted free neighbours become one. */
  lemma MergeStep(m: Memory, lo: nat, end: nat, H: Blocks, fl: seq<nat>, b: nat, x: nat)
    requires b in H && lo < b < end && H[b].flag == 0 && BlockOk(m, lo, end, H, b)
    requires b + H[b].size in H && H[b + H[b].size].flag == 0 && BlockOk(m, lo, end, H, b + H[b].size)
    requires Sound(m, lo, end, H, fl, {b, b + H[b].size}) && (x == b || x == b + H[b].size) && NoAdjacentBut(H, x)
    ensures var r := b + H[b].size;
            var m', H' := Tagged(m, b, H[b].size + H[r].size, 0), Merged(H, b, 0);
            && Sound(m', lo, end, H', fl, {b}) && NoAdjacentBut(H', b)
            && Live(m', lo, end, H') == Live(m, lo, end, H)
  {
    MergeKeepsTiling(m, lo, end, H, b, 0);
    MergeKeepsGaps(m, lo, end, H, b, x);
    MergeKeepsList(m, lo, end, H, fl, b);
    MergeKeepsLive(m, lo, end, H, b);
  }

  lemma MergeKeepsList(m: Memory, lo: nat, end: nat, H: Blocks, fl: seq<nat>, b: nat)
    requires b in H && lo < b < end && H[b].flag == 0 && BlockOk(m, lo, end, H, b)
    requires b + H[b].size in H && H[b + H[b].size].flag == 0 && BlockOk(m, lo, end, H, b + H[b].size)
    requires Sound(m, lo, end, H, fl, {b, b + H[b].size})
    ensures var r := b + H[b].size;
            Linked(Tagged(m, b, H[b].size + H[r].size, 0), fl) && Listed(Merged(H, b, 0), fl, {b})
  {
    var r := b + H[b].size;
    TagsMissLinks(m, lo, end, H, fl, {b, r}, b, b);
    TagsMissLinks(m, lo, end, H, fl, {b, r}, r, r + H[r].size - 1);
    LinksStay(m, Tagged(m, b, H[b].size + H[r].size, 0), fl);
  }

  lemma MergeKeepsLive(m: Memory, lo: nat, end: nat, H: Blocks, b: nat)
    requires Tiling(m, lo, end, H) && b in H && lo < b < end && H[b].flag == 0 && BlockOk(m, lo, end, H, b)
    requires b + H[b].size in H && H[b + H[b].size].flag == 0 && BlockOk(m, lo, end, H, b + H[b].size)
    ensures var r := b + H[b].size;
            var m', H' := Tagged(m, b, H[b].size + H[r].size, 0), Merged(H, b, 0);
            Tiling(m', lo, end, H') && Live(m', lo, end, H') == Live(m, lo, end, H)
  {
    var r := b + H[b].size;
    var m', H' := Tagged(m, b, H[b].size + H[r].size, 0), Merged(H, b, 0);
    MergeKeepsTiling(m, lo, end, H, b, 0);
    forall c: nat | IsLive(lo, end, H, c)
      ensures c < b || r + H[r].size <= c
    {
      assert Before(H, b, c) && Before(H, r, c);
    }
    RegionKeepsLive(m, m', lo, end, end, H, H', b, r + H[r].size, {});
    assert Live(m', lo, end, H') - {} == Live(m', lo, end, H') && Live(m, lo, end, H) - {} == Live(m, lo, end, H);
  }

  lemma MergeKeepsGaps(m: Memory, lo: nat, end: nat, H: Blocks, b: nat, x: nat)
    requires Tiling(m, lo, end, H) && b in H && lo < b < end && b + H[b].size in H && b + H[b].size < end
    requires (x == b || x == b + H[b].size) && NoAdjacentBut(H, x)
    ensures NoAdjacentBut(Merged(H, b, 0), b)
  {
    var r, H' := b + H[b].size, Merged(H, b, 0);
    assert BlockOk(m, lo, end, H, r);
    forall c | c in H' && c != b && H'[c].flag == 0 && c + H'[c].size in H' && c + H'[c].size != b
      ensures H'[c + H'[c].size].flag == 1
    {
      assert BlockOk(m, lo, end, H, c);
    }
  }

  /** An unlisted free block is cut: its front becomes live, its rest is unlisted. */
  lemma SplitStep(m: Memory, lo: nat, end: nat, H: Blocks, fl: seq<nat>, b: nat, k: nat)
    requires Sound(m, lo, end, H, fl, {b}) && b in H && lo < b < end && H[b].flag == 0
    requires NoAdjacentBut(H, NULL) && BlockOk(m, lo, end, H, b)
    requires MINBLOCK <= k && MINBLOCK <= H[b].size - k
    ensures var m', H' := SplitTags(m, b, H[b].size, k, 1, 0), Split(H, b, k, 1, 0);
            && Sound(m', lo, end, H', fl, {b + k}) && NoAdjacentBut(H', NULL)
            && Live(m', lo, end, H') - {b} == Live(m, lo, end, H)
            && b !in Live(m, lo, end, H) && b in Live(m', lo, end, H') && |Live(m', lo, end, H')[b]| == k - TAGS
  {
    SplitKeepsTiling(m, lo, end, H, b, k, 1, 0);
    SplitKeepsList(m, lo, end, H, fl, b, k);
    SplitKeepsGaps(m, lo, end, H, b, k);
    SplitKeepsLive(m, lo, end, H, b, k);
  }

  lemma SplitKeepsLive(m: Memory, lo: nat, end: nat, H: Blocks, b: nat, k: nat)
    requires Tiling(m, lo, end, H) && b in H && lo < b < end && H[b].flag == 0 && BlockOk(m, lo, end, H, b)
    requires MINBLOCK <= k && MINBLOCK <= H[b].size - k
    ensures var m', H' := SplitTags(m, b, H[b].size, k, 1, 0), Split(H, b, k, 1, 0);
            && Tiling(m', lo, end, H')
            && Live(m', lo, end, H') - {b} == Live(m, lo, end, H)
            && b !in Live(m, lo, end, H) && b in Live(m', lo, end, H') && |Live(m', lo, end, H')[b]| == k - TAGS
  {
    var m', H' := SplitTags(m, b, H[b].size, k, 1, 0), Split(H, b, k, 1, 0);
    SplitKeepsTiling(m, lo, end, H, b, k, 1, 0);
    NoStartInside(m, lo, end, H, b, k);
    forall c: nat | IsLive(lo, end, H, c)
      ensures c < b || b + H[b].size <= c
    {
      assert Before(H, b, c);
    }
    RegionKeepsLive(m, m', lo, end, end, H, H', b, b + H[b].size, {b});
    LiveSize(m, lo, end, H, b);
    LiveSize(m', lo, end, H', b);
    assert Live(m, lo, end, H) - {b} == Live(m, lo, end, H);
  }

  lemma SplitKeepsList(m: Memory, lo: nat, end: nat, H: Blocks, fl: seq<nat>, b: nat, k: nat)
    requires Sound(m, lo, end, H, fl, {b}) && b in H && lo < b < end && H[b].flag == 0 && BlockOk(m, lo, end, H, b)
    requires MINBLOCK <= k && MINBLOCK <= H[b].size - k
    ensures Linked(SplitTags(m, b, H[b].size, k, 1, 0), fl) && Listed(Split(H, b, k, 1, 0), fl, {b + k})
  {
    var m' := SplitTags(m, b, H[b].size, k, 1, 0);
    NoStartInside(m, lo, end, H, b, k);
    TagsMissLinks(m, lo, end, H, fl, {b}, b, b);
    TagsMissLinks(m, lo, end, H, fl, {b}, b, b + k - 1);
    TagsMissLinks(m, lo, end, H, fl, {b}, b, b + k);
    TagsMissLinks(m, lo, end, H, fl, {b}, b, b + H[b].size - 1);
    LinksStay(m, m', fl);
  }

  lemma SplitKeepsGaps(m: Memory, lo: nat, end: nat, H: Blocks, b: nat, k: nat)
    requires Tiling(m, lo, end, H) && b in H && lo < b < end && H[b].flag == 0 && NoAdjacentBut(H, NULL)
    requires 0 < k < H[b].size
    ensures NoAdjacentBut(Split(H, b, k, 1, 0), NULL)
  {
    var H' := Split(H, b, k, 1, 0);
    NoStartInside(m, lo, end, H, b, k);
    forall c | c in H' && H'[c].flag == 0 && c + H'[c].size in H'
      ensures H'[c + H'[c].size].flag == 1
    {
      if c in H { assert BlockOk(m, lo, end, H, c) && Before(H, c, b) && Before(H, b, c); }
    }
  }

  /** A new live block of n words is put at the end of the heap. */
  lemma ExtendStep(m: Memory, lo: nat, end: nat, H: Blocks, fl: seq<nat>, n: nat)
    requires Sound(m, lo, end, H, fl, {}) && NoAdjacentBut(H, NULL) && MINBLOCK <= n && end + n < |m|
    ensures var m', H' := ExtendTags(m, end, n), Extended(H, end, n);
            && Sound(m', lo, end + n, H', fl, {}) && NoAdjacentBut(H', NULL)
            && Live(m', lo, end + n, H') - {end} == Live(m, lo, end, H)
            && end !in Live(m, lo, end, H) && end in Live(m', lo, end + n, H')
              && |Live(m', lo, end + n, H')[end]| == n - TAGS
  {
    var m', H' := ExtendTags(m, end, n), Extended(H, end, n);
    ExtendKeepsTiling(m, lo, end, H, n);
    FreeBlocksSpread(m, lo, end, H, fl, {});
    forall b | b in fl && b + 2 < |m|
      ensures m'[b + 1] == m[b + 1] && m'[b + 2] == m[b + 2]
    {
      assert BlockOk(m, lo, end, H, b) && Before(H, b, end);
    }
    LinksStay(m, m', fl);
    assert Listed(H', fl, {});
    assert Sound(m', lo, end + n, H', fl, {});
    ExtendKeepsGaps(m, lo, end, H, n);
    ExtendKeepsLive(m, lo, end, H, n);
  }

  lemma ExtendKeepsLive(m: Memory, lo: nat, end: nat, H: Blocks, n: nat)
    requires Tiling(m, lo, end, H) && MINBLOCK <= n && end + n < |m|
    ensures var m', H' := ExtendTags(m, end, n), Extended(H, end, n);
            && Tiling(m', lo, end + n, H')
            && Live(m', lo, end + n, H') - {end} == Live(m, lo, end, H)
            && end !in Live(m, lo, end, H) && end in Live(m', lo, end + n, H')
              && |Live(m', lo, end + n, H')[end]| == n - TAGS
  {
    var m', H' := ExtendTags(m, end, n), Extended(H, end, n);
    ExtendKeepsTiling(m, lo, end, H, n);
    forall c: nat | c in H ensures c <= end { assert BlockOk(m, lo, end, H, c); }
    RegionKeepsLive(m, m', lo, end, end + n, H, H', end, end + n + 1, {end});
    LiveSize(m, lo, end, H, end);
    LiveSize(m', lo, end + n, H', end);
    assert Live(m, lo, end, H) - {end} == Live(m, lo, end, H);
  }

  lemma ExtendKeepsGaps(m: Memory, lo: nat, end: nat, H: Blocks, n: nat)
    requires Tiling(m, lo, end, H) && NoAdjacentBut(H, NULL) && 0 < n
    ensures NoAdjacentBut(Extended(H, end, n), NULL)
  {
    var H' := Extended(H, end, n);
    forall c | c in H' && H'[c].flag == 0 && c + H'[c].size in H'
      ensures H'[c + H'[c].size].flag == 1
    {
      assert BlockOk(m, lo, end, H, c) && Before(H, c, end);
      assert BlockOk(m, lo, end, H, c + H[c].size);
    }
  }
}
