/** The words of the allocator's heap and the tiling of the heap by blocks.

    Memory is a sequence of 8-byte words. A block is named by the index of its
    header word; as a pointer value it is 8 times that index. */
module HeapLayout {

  type Word = w: int | 0 <= w

  type Memory = seq<Word>

  const NULL: nat := 0

  /** Header of the prologue and of the epilogue: one word, allocated. */
  const ENDPOINT: Word := 9

  /** MINBLOCKSIZE and TAGS_SIZE in words. */
  const MINBLOCK: nat := 4
  const TAGS: nat := 2

  function Tag(size: nat, flag: nat): Word {
    8 * size + flag
  }

  /** m with the header and the footer of an n-word block at b set. */
  function Tagged(m: Memory, b: nat, n: nat, flag: nat): Memory
    requires 0 < n && b + n <= |m|
  {
    m[b := Tag(n, flag)][b + n - 1 := Tag(n, flag)]
  }

  /** What a tag at a block's two ends says, and where the block before it starts. */
  datatype Block = Block(size: nat, flag: nat, prev: nat)

  /** The blocks by their first word: the prologue, the real blocks, the epilogue. */
  type Blocks = map<nat, Block>

  /** Block b of H lies in m as its tags say, and its neighbours agree. */
  ghost predicate BlockOk(m: Memory, lo: nat, end: nat, H: Blocks, b: nat)
    requires b in H
  {
    && lo <= b <= end && H[b].flag <= 1 && 1 <= H[b].size
    && b + H[b].size <= |m|
    && m[b] == Tag(H[b].size, H[b].flag) && m[b + H[b].size - 1] == m[b]
    && (b != lo && b != end ==> MINBLOCK <= H[b].size)
    && (b != end ==> b + H[b].size in H && H[b + H[b].size].prev == b)
    && (b != lo ==> H[b].prev in H && H[b].prev < b && H[b].prev + H[H[b].prev].size == b)
  }

  ghost predicate Before(H: Blocks, b: nat, c: nat)
    requires b in H
  {
    b < c ==> b + H[b].size <= c
  }

  /** The blocks tile the heap exactly, from the prologue at lo to the epilogue at end. */
  ghost predicate Tiling(m: Memory, lo: nat, end: nat, H: Blocks) {
    && 0 < lo < end && lo in H && end in H
    && H[lo].size == 1 && H[lo].flag == 1 && H[end].size == 1 && H[end].flag == 1
    && (forall b {:trigger BlockOk(m, lo, end, H, b)} :: b in H ==> BlockOk(m, lo, end, H, b))
    && (forall b, c {:trigger Before(H, b, c)} :: b in H && c in H ==> Before(H, b, c))
  }

  /** Writes that miss every tag keep the tiling. */
  lemma SameTagsKeepTiling(m: Memory, m': Memory, lo: nat, end: nat, H: Blocks)
    requires Tiling(m, lo, end, H) && |m'| == |m|
    requires forall b :: b in H && b + H[b].size <= |m| && 1 <= H[b].size ==>
      m'[b] == m[b] && m'[b + H[b].size - 1] == m[b + H[b].size - 1]
    ensures Tiling(m', lo, end, H)
  {
    forall b | b in H ensures BlockOk(m', lo, end, H, b) { assert BlockOk(m, lo, end, H, b); }
  }

  /** Flipping the flag of a block. */
  lemma RetagKeepsTiling(m: Memory, lo: nat, end: nat, H: Blocks, b: nat, flag: nat)
    requires Tiling(m, lo, end, H) && b in H && lo < b < end && BlockOk(m, lo, end, H, b) && flag <= 1
    ensures Tiling(Tagged(m, b, H[b].size, flag), lo, end, H[b := H[b].(flag := flag)])
  {
    var m', H' := Tagged(m, b, H[b].size, flag), H[b := H[b].(flag := flag)];
    forall c | c in H'
      ensures BlockOk(m', lo, end, H', c)
    {
      assert BlockOk(m, lo, end, H, c) && Before(H, b, c) && Before(H, c, b);
    }
    forall c, d | c in H' && d in H' ensures Before(H', c, d) { assert Before(H, c, d); }
  }

  /** b and its right neighbour become one block. */
  ghost function Merged(H: Blocks, b: nat, flag: nat): Blocks
    requires b in H && b + H[b].size in H
  {
    var r := b + H[b].size;
    var H1 := H[b := Block(H[b].size + H[r].size, flag, H[b].prev)] - {r};
    var q := r + H[r].size;
    if q in H1 then H1[q := H1[q].(prev := b)] else H1
  }

  lemma MergeKeepsTiling(m: Memory, lo: nat, end: nat, H: Blocks, b: nat, flag: nat)
    requires Tiling(m, lo, end, H) && b in H && lo < b && BlockOk(m, lo, end, H, b) && flag <= 1
    requires b + H[b].size in H && b + H[b].size < end && BlockOk(m, lo, end, H, b + H[b].size)
    ensures Tiling(Tagged(m, b, H[b].size + H[b + H[b].size].size, flag), lo, end, Merged(H, b, flag))
  {
    var r := b + H[b].size;
    var m', H' := Tagged(m, b, H[b].size + H[r].size, flag), Merged(H, b, flag);
    assert lo in H' && end in H' && H'[lo].size == 1 && H'[lo].flag == 1 && H'[end].size == 1 && H'[end].flag == 1;
    hide BlockOk, Before, Merged;
    MergeKeepsBlocks(m, lo, end, H, b, flag);
    MergeKeepsOrders(m, lo, end, H, b, flag);
  }

  lemma MergeKeepsBlocks(m: Memory, lo: nat, end: nat, H: Blocks, b: nat, flag: nat)
    requires Tiling(m, lo, end, H) && b in H && lo < b && BlockOk(m, lo, end, H, b) && flag <= 1
    requires b + H[b].size in H && b + H[b].size < end && BlockOk(m, lo, end, H, b + H[b].size)
    ensures var H' := Merged(H, b, flag);
            var m' := Tagged(m, b, H[b].size + H[b + H[b].size].size, flag);
            forall c {:trigger BlockOk(m', lo, end, H', c)} :: c in H' ==> BlockOk(m', lo, end, H', c)
  {
    forall c | c in Merged(H, b, flag)
      ensures BlockOk(Tagged(m, b, H[b].size + H[b + H[b].size].size, flag), lo, end, Merged(H, b, flag), c)
    {
      MergeKeepsBlock(m, lo, end, H, b, flag, c);
    }
  }

  lemma MergeKeepsOrders(m: Memory, lo: nat, end: nat, H: Blocks, b: nat, flag: nat)
    requires Tiling(m, lo, end, H) && b in H && b + H[b].size in H
    ensures var H' := Merged(H, b, flag);
            forall c, d {:trigger Before(H', c, d)} :: c in H' && d in H' ==> Before(H', c, d)
  {
    var H' := Merged(H, b, flag);
    forall c, d | c in H' && d in H' ensures Before(H', c, d) { MergeKeepsOrder(m, lo, end, H, b, flag, c, d); }
  }

  lemma MergeKeepsOrder(m: Memory, lo: nat, end: nat, H: Blocks, b: nat, flag: nat, c: nat, d: nat)
    requires Tiling(m, lo, end, H) && b in H && b + H[b].size in H
    requires c in H && c != b + H[b].size && d in H && d != b + H[b].size
    ensures Before(Merged(H, b, flag), c, d)
  {
    var r := b + H[b].size;
    assert Before(H, c, d) && Before(H, r, d) && BlockOk(m, lo, end, H, b);
    assert BlockOk(m, lo, end, H, d) && Before(H, b, d);
  }

  lemma MergeKeepsBlock(m: Memory, lo: nat, end: nat, H: Blocks, b: nat, flag: nat, c: nat)
    requires Tiling(m, lo, end, H) && b in H && lo < b && BlockOk(m, lo, end, H, b) && flag <= 1
    requires b + H[b].size in H && b + H[b].size < end && BlockOk(m, lo, end, H, b + H[b].size)
    requires c in H && c != b + H[b].size
    ensures BlockOk(Tagged(m, b, H[b].size + H[b + H[b].size].size, flag), lo, end, Merged(H, b, flag), c)
  {
    var r := b + H[b].size;
    assert BlockOk(m, lo, end, H, c) && BlockOk(m, lo, end, H, r + H[r].size);
    assert Before(H, b, c) && Before(H, c, b) && Before(H, r, c) && Before(H, c, r);
  }

  /** b is cut into a k-word block and the rest. */
  ghost function Split(H: Blocks, b: nat, k: nat, f1: nat, f2: nat): Blocks
    requires b in H && k < H[b].size
  {
    var q := b + H[b].size;
    var H1 := H[b := Block(k, f1, H[b].prev)][b + k := Block(H[b].size - k, f2, b)];
    if q in H1 then H1[q := H1[q].(prev := b + k)] else H1
  }

  function SplitTags(m: Memory, b: nat, n: nat, k: nat, f1: nat, f2: nat): Memory
    requires 0 < k < n && b + n <= |m|
  {
    Tagged(Tagged(m, b, k, f1), b + k, n - k, f2)
  }

  lemma NoStartInside(m: Memory, lo: nat, end: nat, H: Blocks, b: nat, k: nat)
    requires Tiling(m, lo, end, H) && b in H && lo < b < end && 0 < k < H[b].size
    ensures b + k !in H && b + H[b].size in H && b + H[b].size <= end && BlockOk(m, lo, end, H, b + H[b].size)
  {
    assert BlockOk(m, lo, end, H, b) && BlockOk(m, lo, end, H, b + H[b].size);
    assert !Before(H, b, b + k);
  }

  lemma SplitKeepsTiling(m: Memory, lo: nat, end: nat, H: Blocks, b: nat, k: nat, f1: nat, f2: nat)
    requires Tiling(m, lo, end, H) && b in H && lo < b < end && BlockOk(m, lo, end, H, b) && f1 <= 1 && f2 <= 1
    requires MINBLOCK <= k && MINBLOCK <= H[b].size - k
    ensures Tiling(SplitTags(m, b, H[b].size, k, f1, f2), lo, end, Split(H, b, k, f1, f2))
  {
    var H' := Split(H, b, k, f1, f2);
    NoStartInside(m, lo, end, H, b, k);
    assert lo in H' && end in H' && H'[lo].size == 1 && H'[lo].flag == 1 && H'[end].size == 1 && H'[end].flag == 1;
    hide BlockOk, Before, Split, SplitTags;
    SplitKeepsBlocks(m, lo, end, H, b, k, f1, f2);
    SplitKeepsOrders(m, lo, end, H, b, k, f1, f2);
  }

  lemma SplitKeepsBlocks(m: Memory, lo: nat, end: nat, H: Blocks, b: nat, k: nat, f1: nat, f2: nat)
    requires Tiling(m, lo, end, H) && b in H && lo < b < end && BlockOk(m, lo, end, H, b) && f1 <= 1 && f2 <= 1
    requires MINBLOCK <= k && MINBLOCK <= H[b].size - k
    ensures var m', H' := SplitTags(m, b, H[b].size, k, f1, f2), Split(H, b, k, f1, f2);
            forall c {:trigger BlockOk(m', lo, end, H', c)} :: c in H' ==> BlockOk(m', lo, end, H', c)
  {
    var m', H' := SplitTags(m, b, H[b].size, k, f1, f2), Split(H, b, k, f1, f2);
    NoStartInside(m, lo, end, H, b, k);
    forall c | c in H'
      ensures BlockOk(m', lo, end, H', c)
    {
      if c in H { SplitKeepsBlock(m, lo, end, H, b, k, f1, f2, c); }
    }
  }

  lemma SplitKeepsOrders(m: Memory, lo: nat, end: nat, H: Blocks, b: nat, k: nat, f1: nat, f2: nat)
    requires Tiling(m, lo, end, H) && b in H && 0 < k < H[b].size && BlockOk(m, lo, end, H, b)
    ensures var H' := Split(H, b, k, f1, f2);
            forall c, d {:trigger Before(H', c, d)} :: c in H' && d in H' ==> Before(H', c, d)
  {
    var H' := Split(H, b, k, f1, f2);
    forall c, d | c in H' && d in H' ensures Before(H', c, d) { SplitKeepsOrder(m, lo, end, H, b, k, f1, f2, c, d); }
  }

  lemma SplitKeepsOrder(m: Memory, lo: nat, end: nat, H: Blocks, b: nat, k: nat, f1: nat, f2: nat, c: nat, d: nat)
    requires Tiling(m, lo, end, H) && b in H && 0 < k < H[b].size && BlockOk(m, lo, end, H, b)
    requires (c in H || c == b + k) && (d in H || d == b + k)
    ensures Before(Split(H, b, k, f1, f2), c, d)
  {
    if c in H { assert Before(H, c, b) && Before(H, b, c) && BlockOk(m, lo, end, H, c); }
    if d in H { assert Before(H, d, b) && Before(H, b, d) && BlockOk(m, lo, end, H, d); }
    if c in H && d in H { assert Before(H, c, d); }
  }

  lemma SplitKeepsBlock(m: Memory, lo: nat, end: nat, H: Blocks, b: nat, k: nat, f1: nat, f2: nat, c: nat)
    requires Tiling(m, lo, end, H) && b in H && lo < b < end && BlockOk(m, lo, end, H, b) && f1 <= 1 && f2 <= 1
    requires MINBLOCK <= k && MINBLOCK <= H[b].size - k && c in H
    ensures BlockOk(SplitTags(m, b, H[b].size, k, f1, f2), lo, end, Split(H, b, k, f1, f2), c)
  {
    assert BlockOk(m, lo, end, H, c) && Before(H, b, c) && Before(H, c, b);
    NoStartInside(m, lo, end, H, b, k);
  }

  /** The heap grown by an n-word block that starts on the old epilogue. */
  function ExtendTags(m: Memory, end: nat, n: nat): Memory
    requires 0 < n && end + n < |m|
  {
    Tagged(m, end, n, 1)[end + n := ENDPOINT]
  }

  ghost function Extended(H: Blocks, end: nat, n: nat): Blocks
    requires end in H
  {
    H[end := Block(n, 1, H[end].prev)][end + n := Block(1, 1, end)]
  }

  lemma ExtendKeepsTiling(m: Memory, lo: nat, end: nat, H: Blocks, n: nat)
    requires Tiling(m, lo, end, H) && MINBLOCK <= n && end + n < |m|
    ensures Tiling(ExtendTags(m, end, n), lo, end + n, Extended(H, end, n))
  {
    var H' := Extended(H, end, n);
    assert lo in H' && end + n in H' && H'[lo].size == 1 && H'[lo].flag == 1 && H'[end + n].size == 1
      && H'[end + n].flag == 1 by {
      assert BlockOk(m, lo, end, H, lo) && BlockOk(m, lo, end, H, end);
    }
    hide BlockOk, Before, Extended, ExtendTags;
    ExtendKeepsBlocks(m, lo, end, H, n);
    ExtendKeepsOrders(m, lo, end, H, n);
  }

  lemma ExtendKeepsBlocks(m: Memory, lo: nat, end: nat, H: Blocks, n: nat)
    requires Tiling(m, lo, end, H) && MINBLOCK <= n && end + n < |m|
    ensures var m', H' := ExtendTags(m, end, n), Extended(H, end, n);
            forall c {:trigger BlockOk(m', lo, end + n, H', c)} :: c in H' ==> BlockOk(m', lo, end + n, H', c)
  {
    var m', H' := ExtendTags(m, end, n), Extended(H, end, n);
    assert BlockOk(m, lo, end, H, end);
    forall c | c in H'
      ensures BlockOk(m', lo, end + n, H', c)
    {
      if c in H { assert BlockOk(m, lo, end, H, c) && Before(H, c, end); }
    }
  }

  lemma ExtendKeepsOrders(m: Memory, lo: nat, end: nat, H: Blocks, n: nat)
    requires Tiling(m, lo, end, H) && MINBLOCK <= n && end + n < |m|
    ensures var H' := Extended(H, end, n);
            forall c, d {:trigger Before(H', c, d)} :: c in H' && d in H' ==> Before(H', c, d)
  {
    var H' := Extended(H, end, n);
    forall c, d | c in H' && d in H'
      ensures Before(H', c, d)
    {
      if c in H { assert BlockOk(m, lo, end, H, c) && Before(H, c, end); }
      if d in H { assert BlockOk(m, lo, end, H, d); }
      if c in H && d in H { assert Before(H, c, d); }
    }
  }
}
