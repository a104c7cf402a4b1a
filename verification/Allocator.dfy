/** The boundary-tag allocator: `mm.c` and `mminline.h` over the bounded heap of `memlib.c`. */
module Allocator {
  import opened HeapLayout
  import opened FreeList
  import opened HeapSteps

  const WORD_SIZE: nat := 8
  const TAGS_SIZE: nat := 2 * WORD_SIZE
  const MINBLOCKSIZE: nat := 4 * WORD_SIZE
  const ALLOCATED_FLAG: nat := 1
  const FREE_FLAG: nat := 0

  /** Rounds a byte count up to a multiple of the word size. */
  function Align(size: nat): (r: nat)
    ensures r % WORD_SIZE == 0 && size <= r < size + WORD_SIZE
  {
    (size + (WORD_SIZE - 1)) / WORD_SIZE * WORD_SIZE
  }

  lemma TagDecodes(n: nat, f: nat)
    requires f <= 1
    ensures Tag(n, f) % 2 == f && (Tag(n, f) - f) / 8 == n && Tag(n, f) / 8 == n
  {
    var t := Tag(n, f);
    var q, r := t / 8, t % 8;
    assert 8 * (n - q) == r - f;
    var h, b := t / 2, t % 2;
    assert 2 * (4 * n - h) == b - f;
  }

  lemma SizeDecodes(size: nat, f: nat)
    requires size % 8 == 0 && f <= 1
    ensures (size + f) % 2 == f && (size + f) / 8 == size / 8
  {
    var n := size / 8;
    assert size == 8 * n;
    TagDecodes(n, f);
  }

  class Heap {
    /** The memory below mem_max_addr, word by word; the heap starts at word lo. */
    const mem: array<Word>
    const lo: nat
    /** mem_brk, as a word index, and flist_first, the word index of the first listed block. */
    var brk: nat
    var first: nat
    ghost var H: Blocks
    ghost var fl: seq<nat>

    /** All of the invariant, while the free blocks of L are off the list. */
    ghost predicate Steady(L: set<nat>)
      reads this, mem
    {
      && lo + 2 <= brk <= mem.Length
      && Sound(mem[..], lo, brk - 1, H, fl, L) && first == Head(fl)
    }

    /** Between calls: the list is complete and no two free blocks are neighbours. */
    ghost predicate Valid()
      reads this, mem
    {
      Steady({}) && NoAdjacentBut(H, NULL)
    }

    /** The words of every live payload, by block. */
    ghost function Payloads(): map<nat, Memory>
      reads this, mem
    {
      if lo + 2 <= brk && Tiling(mem[..], lo, brk - 1, H) then Live(mem[..], lo, brk - 1, H) else map[]
    }

    lemma SteadyMeans(L: set<nat>)
      requires Steady(L)
      ensures lo + 2 <= brk <= mem.Length && first == Head(fl)
      ensures Sound(mem[..], lo, brk - 1, H, fl, L) && Tiling(mem[..], lo, brk - 1, H)
      ensures Payloads() == Live(mem[..], lo, brk - 1, H)
    {
    }

    /** How a new state is seen to be steady, and what it then holds. */
    lemma IsSteady(L: set<nat>, live: map<nat, Memory>)
      requires lo + 2 <= brk <= mem.Length && first == Head(fl) && Sound(mem[..], lo, brk - 1, H, fl, L)
      requires Tiling(mem[..], lo, brk - 1, H) && live == Live(mem[..], lo, brk - 1, H)
      ensures Steady(L) && Payloads() == live
    {
    }

    constructor (base: nat, words: nat)
      requires 0 < base
      ensures lo == base && brk == lo && mem.Length == base + words && fresh(mem)
    {
      mem := new Word[base + words];
      lo := base;
      brk := base;
      first := NULL;
      H := map[];
      fl := [];
    }

    // -------------------------------------------------------------- memlib.c

    /** Extends the heap, or returns -1 when there is no room. */
    method MemSbrk(incr: int) returns (r: int)
      requires brk <= mem.Length && incr % 8 == 0
      modifies this`brk
      ensures if incr < 0 || 8 * old(brk) + incr > 8 * mem.Length
              then r == -1 && brk == old(brk)
              else r == old(brk) && 8 * brk == 8 * old(brk) + incr
    {
      if incr < 0 || 8 * brk + incr > 8 * mem.Length {
        return -1;
      }
      r := brk;
      brk := brk + incr / 8;
    }

    // -------------------------------------------------------------- tags

    method Store(i: nat, w: Word)
      requires i < mem.Length
      modifies mem
      ensures mem[..] == old(mem[..])[i := w]
    {
      mem[i] := w;
    }

    /** block_size, in bytes. */
    function BlockSize(b: nat): (size: nat)
      reads mem
      requires b < mem.Length
    {
      mem[b] - mem[b] % 2
    }

    predicate BlockAllocated(b: nat)
      reads mem
      requires b < mem.Length
    {
      mem[b] % 2 == 1
    }

    function BlockNext(b: nat): nat
      reads mem
      requires b < mem.Length
    {
      b + BlockSize(b) / 8
    }

    function BlockPrev(b: nat): int
      reads mem
      requires 0 < b <= mem.Length
    {
      b - BlockSize(b - 1) / 8
    }

    method BlockSetSize(b: nat, size: nat)
      requires size % 8 == 0 && TAGS_SIZE <= size && b + size / 8 <= mem.Length
      modifies mem
      ensures var w := size + old(mem[b]) % 2;
              mem[..] == old(mem[..])[b := w][b + size / 8 - 1 := w]
    {
      var tagged := size + mem[b] % 2;
      Store(b, tagged);
      assert mem[b] == tagged;
      Store(b + mem[b] / 8 - 1, tagged);
    }

    method BlockSetAllocated(b: nat, flag: nat)
      requires flag <= 1
      requires b < mem.Length && TAGS_SIZE <= mem[b] && b + mem[b] / 8 <= mem.Length
      modifies mem
      ensures var e := b + old(mem[b]) / 8 - 1;
              mem[..] == old(mem[..])[b := old(mem[b]) - old(mem[b]) % 2 + flag]
                                     [e := old(mem[e]) - old(mem[e]) % 2 + flag]
    {
      var e := b + mem[b] / 8 - 1;
      ghost var m := mem[..];
      if flag == 1 {
        Store(b, if mem[b] % 2 == 1 then mem[b] else mem[b] + 1);
        assert mem[b] / 8 == m[b] / 8 && mem[e] == m[e];
        Store(b + mem[b] / 8 - 1, if mem[e] % 2 == 1 then mem[e] else mem[e] + 1);
      } else {
        Store(b, mem[b] - mem[b] % 2);
        assert mem[b] / 8 == m[b] / 8 && mem[e] == m[e];
        Store(b + mem[b] / 8 - 1, mem[e] - mem[e] % 2);
      }
    }

    method BlockSetSizeAndAllocated(b: nat, size: nat, flag: nat)
      requires size % 8 == 0 && TAGS_SIZE <= size && b + size / 8 <= mem.Length && flag <= 1
      modifies mem
      ensures mem[..] == Tagged(old(mem[..]), b, size / 8, flag)
    {
      ghost var m := mem[..];
      BlockSetSize(b, size);
      ghost var m1 := mem[..];
      var e := b + size / 8 - 1;
      assert mem[b] == m1[b] == size + m[b] % 2 && mem[e] == m1[e] == mem[b];
      SizeDecodes(size, m[b] % 2);
      assert mem[b] / 8 == size / 8 && mem[b] - mem[b] % 2 == size;
      BlockSetAllocated(b, flag);
      assert mem[..] == Tagged(m, b, size / 8, flag);
    }

    /** What the tags of a block of the heap say. */
    lemma TagsSay(L: set<nat>, b: nat)
      requires Steady(L) && b in H
      ensures BlockOk(mem[..], lo, brk - 1, H, b) && lo <= b < brk && 0 < H[b].size
      ensures b < mem.Length && BlockSize(b) == 8 * H[b].size
      ensures BlockAllocated(b) <==> H[b].flag != 0
      ensures H[b].flag <= 1
      ensures b != brk - 1 ==> BlockNext(b) in H && BlockNext(b) == b + H[b].size && H[b + H[b].size].prev == b
      ensures b != lo ==>
        0 < b && BlockPrev(b) == H[b].prev && H[b].prev in H && H[b].prev < b && b == H[b].prev + H[H[b].prev].size
      ensures b != lo && b != brk - 1 ==> MINBLOCK <= H[b].size && b + H[b].size < brk
    {
      TilingSays(b);
    }

    lemma TilingSays(b: nat)
      requires lo + 2 <= brk <= mem.Length && Tiling(mem[..], lo, brk - 1, H) && b in H
      ensures BlockOk(mem[..], lo, brk - 1, H, b) && lo <= b < brk && 0 < H[b].size
      ensures b < mem.Length && BlockSize(b) == 8 * H[b].size
      ensures BlockAllocated(b) <==> H[b].flag != 0
      ensures H[b].flag <= 1
      ensures b != brk - 1 ==> BlockNext(b) in H && BlockNext(b) == b + H[b].size && H[b + H[b].size].prev == b
      ensures b != lo ==>
        0 < b && BlockPrev(b) == H[b].prev && H[b].prev in H && H[b].prev < b && b == H[b].prev + H[H[b].prev].size
      ensures b != lo && b != brk - 1 ==> MINBLOCK <= H[b].size && b + H[b].size < brk
    {
      assert BlockOk(mem[..], lo, brk - 1, H, b);
      TagDecodes(H[b].size, H[b].flag);
      if b != lo {
        var p := H[b].prev;
        assert BlockOk(mem[..], lo, brk - 1, H, p);
        TagDecodes(H[p].size, H[p].flag);
        assert mem[b - 1] == Tag(H[p].size, H[p].flag);
      }
      if b != brk - 1 { assert BlockOk(mem[..], lo, brk - 1, H, b + H[b].size); }
    }

    lemma EndsSay(L: set<nat>)
      requires Steady(L)
      ensures lo < brk - 1 && lo in H && H[lo].flag == 1 && brk - 1 in H && H[brk - 1].flag == 1
      ensures mem[brk - 1] == ENDPOINT
    {
      assert BlockOk(mem[..], lo, brk - 1, H, brk - 1);
    }

    // -------------------------------------------------------------- the free list

    function BlockNextFree(b: nat): nat
      reads mem
      requires b + 1 < mem.Length && !BlockAllocated(b)
    {
      mem[b + 1] / 8
    }

    function BlockPrevFree(b: nat): nat
      reads mem
      requires b + 2 < mem.Length && !BlockAllocated(b)
    {
      mem[b + 2] / 8
    }

    method BlockSetNextFree(b: nat, next: nat)
      requires b + 1 < mem.Length && next < mem.Length && !BlockAllocated(b) && !BlockAllocated(next)
      modifies mem
      ensures mem[..] == old(mem[..])[b + 1 := 8 * next]
    {
      Store(b + 1, 8 * next);
    }

    method BlockSetPrevFree(b: nat, prev: nat)
      requires b + 2 < mem.Length && prev < mem.Length && !BlockAllocated(b) && !BlockAllocated(prev)
      modifies mem
      ensures mem[..] == old(mem[..])[b + 2 := 8 * prev]
    {
      Store(b + 2, 8 * prev);
    }

    /** The link words of a listed block, and the facts that its accessors assert. */
    lemma LinksSay(L: set<nat>, k: nat)
      requires Steady(L) && k < |fl|
      ensures fl[k] in H && lo < fl[k] < brk - 1 && fl[k] + 3 < mem.Length && !BlockAllocated(fl[k])
      ensures BlockNextFree(fl[k]) == fl[Succ(|fl|, k)] && BlockPrevFree(fl[k]) == fl[Pred(|fl|, k)]
      ensures LinkOk(mem[..], fl, k)
    {
      FreeBlocksSpread(mem[..], lo, brk - 1, H, fl, L);
      assert fl[k] in fl && LinkOk(mem[..], fl, k);
      TagsSay(L, fl[k]);
    }

    /** What PullFreeBlock reads, before and after its first write. */
    lemma PullReads(L: set<nat>, k: nat)
      requires Steady(L) && k < |fl|
      ensures lo < fl[k] && fl[k] + 2 < mem.Length && !BlockAllocated(fl[k])
      ensures first == fl[k] <==> k == 0
      ensures var n := |fl|;
              var p, q := fl[Pred(n, k)], fl[Succ(n, k)];
              && BlockNextFree(fl[k]) == q && BlockPrevFree(fl[k]) == p && (q == fl[k] <==> n == 1)
              && lo < p && p + 2 < mem.Length && !BlockAllocated(p) && lo < q && q + 2 < mem.Length
                && !BlockAllocated(q)
              && p != p + 1 && q != p + 1
              && (2 <= n ==> p + 1 != fl[k] + 1 && p + 1 != fl[k] + 2)
              && LinkOk(mem[..], fl, Pred(n, k)) && LinkOk(mem[..], fl, Succ(n, k))
    {
      var n := |fl|;
      LinksSay(L, k);
      LinksSay(L, Succ(n, k));
      LinksSay(L, Pred(n, k));
      FreeBlocksSpread(mem[..], lo, brk - 1, H, fl, L);
      if 2 <= n {
        assert Apart4(fl, k, Pred(n, k)) && Apart4(fl, k, Succ(n, k));
        assert Pred(n, k) != Succ(n, k) ==> Apart4(fl, Pred(n, k), Succ(n, k));
      }
      assert k != 0 ==> fl[0] != fl[k];
    }

    /** Takes fb off the free list. */
    method PullFreeBlock(fb: nat, ghost L: set<nat>, ghost k: nat)
      requires Steady(L) && k < |fl| && fl[k] == fb
      modifies mem, this`first, this`fl
      ensures fl == Without(old(fl), k) && Steady(L + {fb})
      ensures Payloads() == old(Payloads())
    {
      hide Tiling, Linked, Listed, Live, LinkOk;
      ghost var m, n, F := mem[..], |fl|, fl;
      PullReads(L, k);
      if first == fb {
        first := BlockNextFree(fb);
        if first == fb {
          first := NULL;
          fl := [];
          PullKeepsSound(m, m, lo, brk - 1, H, F, L, k);
          return;
        }
      }
      BlockSetNextFree(BlockPrevFree(fb), BlockNextFree(fb));
      BlockSetPrevFree(BlockNextFree(fb), BlockPrevFree(fb));
      fl := Without(F, k);
      PullKeepsSound(m, mem[..], lo, brk - 1, H, F, L, k);
    }

    /** Puts fb at the front of the free list. */
    method InsertFreeBlock(fb: nat)
      requires Steady({fb}) && fb in H && lo < fb < brk - 1 && H[fb].flag == 0
      modifies mem, this`first, this`fl
      ensures fl == [fb] + old(fl) && Steady({})
      ensures Payloads() == old(Payloads())
    {
      hide Tiling, Linked, Listed, Live, LinkOk;
      ghost var m, F := mem[..], fl;
      InsertReads(fb);
      if first != NULL {
        var last := BlockPrevFree(first);
        BlockSetNextFree(fb, first);
        BlockSetPrevFree(fb, last);
        BlockSetNextFree(last, fb);
        BlockSetPrevFree(first, fb);
      } else {
        BlockSetNextFree(fb, fb);
        BlockSetPrevFree(fb, fb);
      }
      first := fb;
      fl := [fb] + F;
      InsertKeepsSound(m, mem[..], lo, brk - 1, H, F, fb);
    }

    /** What InsertFreeBlock reads, and the headers that its writes miss. */
    lemma InsertReads(fb: nat)
      requires Steady({fb}) && fb in H && lo < fb < brk - 1 && H[fb].flag == 0
      ensures fb + 2 < mem.Length && !BlockAllocated(fb) && (first == NULL <==> fl == [])
      ensures fl != [] ==>
                var l := fl[|fl| - 1];
                && first == fl[0] && first + 2 < mem.Length && l + 2 < mem.Length
                && !BlockAllocated(first) && BlockPrevFree(first) == l
                && !BlockAllocated(first) && !BlockAllocated(l)
                && LinkOk(mem[..], fl, 0) && LinkOk(mem[..], fl, |fl| - 1)
                && FarApart(fb, first) && FarApart(fb, l) && (l == first || FarApart(l, first))
    {
      TagsSay({fb}, fb);
      if fl != [] {
        LinksSay({fb}, 0);
        LinksSay({fb}, |fl| - 1);
        InsertedIsListed(mem[..], lo, brk - 1, H, fl, fb);
        LinkKeepsFlags(mem[..], fl, fb);
      }
    }

    // -------------------------------------------------------------- mm_init, mm_malloc

    method MmInit() returns (r: int)
      requires 0 < lo && brk == lo && lo + 2 <= mem.Length
      modifies this, mem
      ensures r == 0 && Valid() && Payloads() == map[]
    {
      first := NULL;
      var initial := MemSbrk(TAGS_SIZE);
      Store(initial, ENDPOINT);
      var epilogue := BlockNext(initial);
      Store(epilogue, ENDPOINT);
      H := map[lo := Block(1, 1, lo), lo + 1 := Block(1, 1, lo)];
      fl := [];
      assert BlockOk(mem[..], lo, brk - 1, H, lo) && BlockOk(mem[..], lo, brk - 1, H, lo + 1);
      return 0;
    }

    /** payload points at a new live block for a request of size bytes: it is
        large enough, was not live before, and everything that was live before
        still is, word for word. That it is word aligned needs no saying, since
        addresses are counted in words. */
    twostate predicate Granted(payload: nat, size: nat)
      reads this, mem
    {
      && lo + 1 < payload < brk
      && payload - 1 !in old(Payloads()) && payload - 1 in Payloads()
      && Payloads() - {payload - 1} == old(Payloads())
      && size <= 8 * |Payloads()[payload - 1]|
    }

    /** A live payload is what memory holds behind its block's header, between the
        prologue and the epilogue, and no two live payloads share a word. */
    lemma PayloadsAreApart(b: nat, c: nat)
      requires Valid() && b in Payloads() && c in Payloads() && b != c
      ensures lo + 1 < b + 1 && b + 1 + |Payloads()[b]| < brk - 1
      ensures Payloads()[b] == mem[b + 1..b + 1 + |Payloads()[b]|]
      ensures b + 1 + |Payloads()[b]| < c || c + 1 + |Payloads()[c]| < b
    {
      SteadyMeans({});
      assert BlockOk(mem[..], lo, brk - 1, H, b) && BlockOk(mem[..], lo, brk - 1, H, c);
      assert Before(H, b, c) && Before(H, c, b) && Before(H, b, brk - 1);
    }

    lemma ListedOnce(i: nat)
      requires Steady({}) && i < |fl| && fl[Succ(|fl|, i)] == fl[0]
      ensures i + 1 == |fl|
    {
    }

    /** The part of check_flist that takes the block it has found: off the list,
        and cut in two when the rest is large enough to be a block. */
    method TakeBlock(initial: nat, initialSize: nat, aligned: nat, ghost k: nat) returns (payload: nat)
      requires Valid() && k < |fl| && fl[k] == initial && initial in H && initialSize == 8 * H[initial].size
      requires aligned % 8 == 0 && 2 * WORD_SIZE <= aligned && aligned + TAGS_SIZE <= initialSize
      modifies mem, this`first, this`fl, this`H
      ensures Valid() && brk == old(brk) && payload == initial + 1 && Granted(payload, aligned)
      ensures CutFrom(old(H), old(fl), k, aligned, H, fl)
    {
      hide Sound, Tiling, Linked, Listed, Live, LinkOk, NoAdjacentBut, Payloads, BlockOk, Split;
      ListedIsFree({}, k);
      PullFreeBlock(initial, {}, k);
      assert {} + {initial} == {initial};
      SteadyMeans({initial});
      TagsSay({initial}, initial);
      if initialSize - (aligned + TAGS_SIZE) >= MINBLOCKSIZE {
        CutBlock(initial, initialSize, aligned);
      } else {
        UseTagStep(mem[..], lo, brk - 1, H, fl, initial);
        BlockSetSizeAndAllocated(initial, initialSize, ALLOCATED_FLAG);
        H := H[initial := H[initial].(flag := 1)];
        IsSteady({}, Live(mem[..], lo, brk - 1, H));
      }
      return initial + 1;
    }

    /** Cuts a block that is off the list in two: the first part becomes live, the
        rest is put on the list. */
    method CutBlock(initial: nat, initialSize: nat, aligned: nat)
      requires Steady({initial}) && NoAdjacentBut(H, NULL) && initial in H && lo < initial < brk - 1
      requires H[initial].flag == 0 && initialSize == 8 * H[initial].size
      requires aligned % 8 == 0 && 2 * WORD_SIZE <= aligned && aligned + TAGS_SIZE + MINBLOCKSIZE <= initialSize
      modifies mem, this`first, this`fl, this`H
      ensures Valid() && brk == old(brk) && Granted(initial + 1, aligned)
      ensures var w := (aligned + TAGS_SIZE) / 8;
        H == Split(old(H), initial, w, 1, 0) && fl == [initial + w] + old(fl)
    {
      hide Sound, Tiling, Linked, Listed, Live, LinkOk, NoAdjacentBut, Payloads, BlockOk, Split;
      SteadyMeans({initial});
      TagsSay({initial}, initial);
      ghost var m, w := mem[..], (aligned + TAGS_SIZE) / 8;
      SplitStep(m, lo, brk - 1, H, fl, initial, w);
      SplitMakesFree(m, lo, brk - 1, H, initial, w);
      BlockSetSizeAndAllocated(initial, aligned + TAGS_SIZE, ALLOCATED_FLAG);
      var remainder := initialSize - (aligned + TAGS_SIZE);
      TagDecodes(w, 1);
      assert mem[initial] == Tag(w, 1);
      var reinsert := BlockNext(initial);
      BlockSetSizeAndAllocated(reinsert, remainder, FREE_FLAG);
      H := Split(H, initial, w, 1, 0);
      IsSteady({reinsert}, Live(mem[..], lo, brk - 1, H));
      InsertFreeBlock(reinsert);
    }

    lemma ListedIsFree(L: set<nat>, k: nat)
      requires Steady(L) && k < |fl|
      ensures fl[k] in H && lo < fl[k] < brk - 1 && H[fl[k]].flag == 0
    {
      FreeBlocksSpread(mem[..], lo, brk - 1, H, fl, L);
      assert fl[k] in fl;
    }

    /** First fit: the block given out is the first on the list that is large enough. */
    method CheckFlist(size: nat) returns (payload: nat)
      requires Valid() && 9 <= size
      modifies mem, this`first, this`fl, this`H
      ensures Valid() && brk == old(brk)
      ensures payload == NULL ==>
        mem[..] == old(mem[..]) && H == old(H) && fl == old(fl) && first == old(first) && Payloads() == old(Payloads())
      ensures payload == NULL <==> forall i :: 0 <= i < |old(fl)| ==> !Fits(old(H), old(fl)[i], size)
      ensures payload != NULL ==> Granted(payload, size)
      ensures payload != NULL ==>
                exists i :: 0 <= i < |old(fl)| && FirstFit(old(H), old(fl), i, size) && old(fl)[i] == payload - 1
                            && CutFrom(old(H), old(fl), i, Align(size), H, fl)
    {
      hide Sound, Tiling, Linked, Listed, Live, LinkOk, NoAdjacentBut, Payloads, BlockOk;
      if first != NULL {
        var initial := first;
        var aligned := Align(size);
        ghost var i: nat := 0;
        while true
          invariant i < |fl| && initial == fl[i]
          invariant mem[..] == old(mem[..]) && H == old(H) && fl == old(fl) && first == old(first)
          invariant Valid() && Payloads() == old(Payloads())
          invariant forall j :: 0 <= j < i ==> !Fits(H, fl[j], size)
          decreases |fl| - i
        {
          LinksSay({}, i);
          TagsSay({}, initial);
          var initialSize := BlockSize(initial);
          if initialSize >= aligned + TAGS_SIZE {
            assert FirstFit(old(H), old(fl), i, size) && old(fl)[i] == initial;
            payload := TakeBlock(initial, initialSize, aligned, i);
            return;
          }
          initial := BlockNextFree(initial);
          if initial == first {
            ListedOnce(i);
            break;
          }
          i := i + 1;
        }
      } else {
        NullMeansEmpty();
      }
      return NULL;
    }

    lemma NullMeansEmpty()
      requires Steady({}) && first == NULL
      ensures fl == []
    {
      if fl != [] { ListedIsFree({}, 0); }
    }

    /** Allocates: from the free list if a block fits, else from new memory. */
    method MmMalloc(size: nat) returns (payload: nat)
      requires Valid() && 9 <= size && 8 * brk + Align(size) + TAGS_SIZE <= 8 * mem.Length
      modifies this, mem
      ensures Valid() && Granted(payload, size)
      ensures 8 * brk == 8 * old(brk) +
        if exists i :: 0 <= i < |old(fl)| && Fits(old(H), old(fl)[i], size) then 0 else Align(size) + TAGS_SIZE
    {
      hide Sound, Tiling, Linked, Listed, Live, LinkOk, NoAdjacentBut, Payloads, BlockOk;
      payload := CheckFlist(size);
      if payload != NULL {
        return;
      }
      ghost var m, end := mem[..], brk - 1;
      var updatedSize := Align(size);
      ghost var n := (updatedSize + TAGS_SIZE) / 8;
      SteadyMeans({});
      EndsSay({});
      ExtendStep(m, lo, end, H, fl, n);
      var updated := MemSbrk(updatedSize + WORD_SIZE);
      updated := BlockPrev(updated);
      BlockSetSizeAndAllocated(updated, updatedSize + TAGS_SIZE, ALLOCATED_FLAG);
      var epilogue := MemSbrk(WORD_SIZE);
      Store(epilogue, ENDPOINT);
      H := Extended(H, end, n);
      IsSteady({}, Live(mem[..], lo, brk - 1, H));
      return updated + 1;
    }

    // -------------------------------------------------------------- mm_free

    /** The body of both coalescing loops: takes the listed one of the free
        neighbours b and r off the list and makes b one block of size bytes. */
    method Join(b: nat, r: nat, listed: nat, size: nat)
      requires b in H && lo < b && H[b].flag == 0 && r == b + H[b].size && r in H && H[r].flag == 0
      requires (listed == b || listed == r) && Steady({b + r - listed}) && NoAdjacentBut(H, b + r - listed)
      requires size == 8 * (H[b].size + H[r].size)
      modifies mem, this`first, this`fl, this`H
      ensures brk == old(brk) && b < brk - 1 && Steady({b}) && NoAdjacentBut(H, b)
      ensures b in H && H[b] == Block(size / 8, 0, old(H[b].prev)) && H.Keys == old(H.Keys) - {r}
      ensures b + size / 8 in H && H[b].prev in H && H[H[b].prev].flag == old(H)[H[b].prev].flag
      ensures Payloads() == old(Payloads())
    {
      hide Sound, Tiling, Linked, Listed, Live, LinkOk, NoAdjacentBut, Payloads, BlockOk, Merged;
      ghost var x: nat := b + r - listed;
      JoinReads(b, r, x, listed);
      ghost var k: nat :| k < |fl| && fl[k] == listed;
      PullFreeBlock(listed, {x}, k);
      assert {x} + {listed} == {b, r};
      SteadyMeans({b, r});
      MergedSays(b, r);
      MergeStep(mem[..], lo, brk - 1, H, fl, b, x);
      BlockSetSizeAndAllocated(b, size, FREE_FLAG);
      H := Merged(H, b, 0);
      IsSteady({b}, Live(mem[..], lo, brk - 1, H));
    }

    lemma MergedSays(b: nat, r: nat)
      requires Steady({b, r}) && b in H && lo < b && r == b + H[b].size && r in H && r < brk - 1
      ensures var H', n := Merged(H, b, 0), H[b].size + H[r].size;
              && H'.Keys == H.Keys - {r} && b in H' && H'[b] == Block(n, 0, H[b].prev) && b + n in H'
              && H[b].prev in H && H[b].prev in H' && H'[H[b].prev].flag == H[H[b].prev].flag
      ensures BlockOk(mem[..], lo, brk - 1, H, b) && BlockOk(mem[..], lo, brk - 1, H, r)
      ensures MINBLOCK <= H[b].size && 0 < H[r].size && r + H[r].size < brk <= mem.Length
    {
      TagsSay({b, r}, b);
      TagsSay({b, r}, r);
      TagsSay({b, r}, r + H[r].size);
    }

    lemma JoinReads(b: nat, r: nat, x: nat, listed: nat)
      requires b in H && lo < b && H[b].flag == 0 && r == b + H[b].size && r in H && H[r].flag == 0
      requires Steady({x}) && ((listed == b && x == r) || (listed == r && x == b))
      ensures b < r < brk - 1 && exists k: nat :: k < |fl| && fl[k] == listed
    {
      assert BlockOk(mem[..], lo, brk - 1, H, b) && BlockOk(mem[..], lo, brk - 1, H, r);
      assert listed in fl;
    }

    /** The first step of mm_free: the block is no longer live. */
    method MarkFree(b: nat)
      requires Valid() && b in Payloads()
      modifies mem, this`H
      ensures brk == old(brk) && Steady({b}) && NoAdjacentBut(H, b) && Payloads() == old(Payloads()) - {b}
      ensures lo < b < brk - 1 && b in old(H) && H == old(H)[b := old(H)[b].(flag := 0)]
    {
      hide Sound, Tiling, Linked, Listed, Live, LinkOk, NoAdjacentBut, Payloads, BlockOk;
      SteadyMeans({});
      LiveSize(mem[..], lo, brk - 1, H, b);
      LiveIsBlock(b);
      ghost var m := mem[..];
      FreeTagStep(m, lo, brk - 1, H, fl, b);
      BlockSetAllocated(b, FREE_FLAG);
      H := H[b := H[b].(flag := 0)];
      assert mem[..] == Tagged(m, b, H[b].size, 0);
      IsSteady({b}, Live(mem[..], lo, brk - 1, H));
    }

    lemma LiveIsBlock(b: nat)
      requires Steady({}) && IsLive(lo, brk - 1, H, b)
      ensures lo < b < brk - 1 && BlockOk(mem[..], lo, brk - 1, H, b) && TAGS_SIZE <= mem[b]
      ensures b + H[b].size <= mem.Length
      ensures mem[b] / 8 == H[b].size && mem[b] - mem[b] % 2 == Tag(H[b].size, 0) && mem[b + H[b].size - 1] == mem[b]
    {
      TagsSay({}, b);
      TagDecodes(H[b].size, 1);
    }

    /** The block that ends where b starts, as block_prev finds it. */
    lemma PrevSays(L: set<nat>, b: nat)
      requires Steady(L) && b in H && b != lo
      ensures 0 < b < mem.Length && BlockSize(b) == 8 * H[b].size && BlockPrev(b) == H[b].prev
      ensures var p := H[b].prev;
              p in H && p < b && b == p + H[p].size && BlockSize(p) == 8 * H[p].size
                && (BlockAllocated(p) <==> H[p].flag != 0)
      ensures H[H[b].prev].flag == 0 ==> lo < H[b].prev && H[H[b].prev].flag == 0
    {
      TagsSay(L, b);
      TagsSay(L, H[b].prev);
    }

    /** The block that starts where b ends, as block_next finds it. */
    lemma NextSays(L: set<nat>, b: nat)
      requires Steady(L) && b in H && lo < b < brk - 1
      ensures b < mem.Length && BlockSize(b) == 8 * H[b].size && BlockNext(b) == b + H[b].size
      ensures var p := b + H[b].size;
              b < p && p in H && p < mem.Length && BlockSize(p) == 8 * H[p].size
                && (BlockAllocated(p) <==> H[p].flag != 0)
    {
      TagsSay(L, b);
      TagsSay(L, b + H[b].size);
    }

    /** Frees a live block and joins it with the free blocks on both sides. */
    method MmFree(payload: nat)
      requires Valid() && (payload == NULL || payload - 1 in Payloads())
      modifies this, mem
      ensures Valid() && brk == old(brk)
      ensures Payloads() == if payload == NULL then old(Payloads()) else old(Payloads()) - {payload - 1}
    {
      hide Steady, NoAdjacentBut, Payloads, BlockOk;
      if payload == NULL {
        return;
      }
      LiveIsPositive(payload - 1);
      var b: nat := payload - 1;
      MarkFree(b);
      PrevSays({b}, b);
      var sz := BlockSize(b);
      var p: nat := BlockPrev(b);
      while !BlockAllocated(p)
        invariant Steady({b}) && b in H && lo < b < brk - 1 && H[b].flag == 0 && NoAdjacentBut(H, b)
        invariant p == H[b].prev && p in H && p < b < mem.Length && sz == 8 * H[b].size
        invariant BlockAllocated(p) <==> H[p].flag != 0
        invariant brk == old(brk) && Payloads() == old(Payloads()) - {payload - 1}
        decreases b
      {
        PrevSays({b}, b);
        Join(p, b, p, BlockSize(p) + sz);
        PrevSays({p}, p);
        sz := BlockSize(p);
        b := p;
        p := BlockPrev(b);
      }
      NextSays({b}, b);
      PrevSays({b}, b);
      p := BlockNext(b);
      sz := BlockSize(b);
      while !BlockAllocated(p)
        invariant Steady({b}) && b in H && lo < b < brk - 1 && H[b].flag == 0 && NoAdjacentBut(H, b)
        invariant p == b + H[b].size && p in H && p < mem.Length && sz == 8 * H[b].size
        invariant BlockAllocated(p) <==> H[p].flag != 0
        invariant H[b].prev in H && H[H[b].prev].flag != 0
        invariant brk == old(brk) && Payloads() == old(Payloads()) - {payload - 1}
        decreases mem.Length - p
      {
        NextSays({b}, b);
        Join(b, p, p, BlockSize(p) + sz);
        NextSays({b}, b);
        sz := BlockSize(b);
        p := BlockNext(b);
      }
      GapsClosed(b);
      InsertFreeBlock(b);
    }

    lemma LiveIsPositive(b: int)
      requires Steady({}) && b in Payloads()
      ensures 0 < b
    {
    }

    /** With a live block on either side, the joined block has no free neighbour. */
    lemma GapsClosed(b: nat)
      requires Steady({b}) && b in H && lo < b < brk - 1 && NoAdjacentBut(H, b)
      requires H[b].prev in H && H[H[b].prev].flag != 0 && b + H[b].size in H && H[b + H[b].size].flag != 0
      ensures NoAdjacentBut(H, NULL)
    {
      forall c | c in H && H[c].flag == 0 && c + H[c].size in H
        ensures H[c + H[c].size].flag == 1
      {
        assert BlockOk(mem[..], lo, brk - 1, H, c) && BlockOk(mem[..], lo, brk - 1, H, c + H[c].size);
      }
    }

    // -------------------------------------------------------------- mm_realloc

    /** memmove of saved words into the heap. */
    method CopyIn(dst: nat, words: seq<Word>)
      requires dst + |words| <= mem.Length
      modifies mem
      ensures mem[..] == old(mem[..])[..dst] + words + old(mem[..])[dst + |words|..]
    {
      for i := 0 to |words|
        invariant mem[..] == old(mem[..])[..dst] + words[..i] + old(mem[..])[dst + i..]
      {
        Store(dst + i, words[i]);
      }
    }

    /** Reallocation to a larger size (or from NULL, or to 0): the old payload is
        a prefix of the new one even when the new block overlaps the old, and no
        other live payload changes. */
    method MmRealloc(payload: nat, size: nat) returns (r: nat)
      requires Valid() && (payload == NULL || payload - 1 in Payloads())
      requires payload == NULL ==> 9 <= size
      requires payload != NULL && size != 0 ==>
        size >= 8 * |Payloads()[payload - 1]| && size != 8 * |Payloads()[payload - 1]| + 2 * TAGS_SIZE
      requires 8 * brk + Align(size) + TAGS_SIZE <= 8 * mem.Length
      modifies this, mem
      ensures Valid()
      ensures payload == NULL ==> Granted(r, size)
      ensures payload != NULL && size == 0 ==> r == NULL && Payloads() == old(Payloads()) - {payload - 1}
      ensures payload != NULL && size != 0 ==>
                && r - 1 in Payloads() && size <= 8 * |Payloads()[r - 1]|
                && old(Payloads())[payload - 1] <= Payloads()[r - 1]
                && Payloads() - {r - 1} == old(Payloads()) - {payload - 1}
    {
      hide Sound, Tiling, Linked, Listed, Live, LinkOk, NoAdjacentBut, Payloads, BlockOk;
      if payload == NULL {
        r := MmMalloc(size);
        return;
      }
      if size == 0 {
        MmFree(payload);
        return NULL;
      }
      LiveIsPositive(payload - 1);
      var b: nat := payload - 1;
      LivePayload(b);
      var reallocSz := BlockSize(b);
      var buffer := mem[b..b + reallocSz / 8];
      BufferedPayload(mem[..], b, H[b].size);
      assert buffer == mem[..][b..b + H[b].size];
      assert Payloads()[b] == mem[..][b + 1..b + H[b].size - 1] == buffer[1..|buffer| - 1];
      MmFree(payload);
      r := MmMalloc(size);
      var grown := r - 1;
      LivePayload(grown);
      var grownSize := BlockSize(grown);
      Refill(grown, grownSize, buffer);
    }

    /** The end of mm_realloc: writes the saved block, tags included, over the
        new block and restores the new block's own tags. */
    method Refill(grown: nat, grownSize: nat, buffer: seq<Word>)
      requires Valid() && grown in Payloads() && grown < mem.Length && grownSize == BlockSize(grown)
      requires 2 <= |buffer| <= |Payloads()[grown]| + 2
      modifies mem
      ensures Valid() && grown in Payloads()
      ensures Payloads() - {grown} == old(Payloads()) - {grown} && |Payloads()[grown]| == |old(Payloads())[grown]|
      ensures buffer[1..|buffer| - 1] <= Payloads()[grown]
    {
      hide Sound, Tiling, Linked, Listed, Live, LinkOk, NoAdjacentBut, Payloads, BlockOk;
      LivePayload(grown);
      SteadyMeans({});
      ghost var m, n := mem[..], H[grown].size;
      CopyIn(grown, buffer);
      BlockSetSizeAndAllocated(grown, grownSize, ALLOCATED_FLAG);
      RefillWrites(m, grown, n, buffer);
      PayloadWriteStep(m, mem[..], lo, brk - 1, H, fl, grown);
      IsSteady({}, Live(mem[..], lo, brk - 1, H));
    }

    /** A live payload lies between the tags of its block. */
    lemma LivePayload(b: nat)
      requires Valid() && b in Payloads()
      ensures lo < b < brk - 1 && b in H && 4 <= H[b].size && BlockSize(b) == 8 * H[b].size
      ensures b + H[b].size < brk <= mem.Length
      ensures IsLive(lo, brk - 1, H, b) && mem[b] == Tag(H[b].size, 1) && mem[b + H[b].size - 1] == mem[b]
      ensures Payloads()[b] == mem[b + 1..b + H[b].size - 1] && |Payloads()[b]| == H[b].size - TAGS
    {
      SteadyMeans({});
      LiveSize(mem[..], lo, brk - 1, H, b);
      TagsSay({}, b);
      assert Live(mem[..], lo, brk - 1, H)[b] == mem[..][b + 1..b + H[b].size - 1];
      assert mem[..][b + 1..b + H[b].size - 1] == mem[b + 1..b + H[b].size - 1];
    }

    // -------------------------------------------------------------- the heap checkers

    /** All that the checkers need to come to an end: blocks tile the heap, and the
        links lead round a circle. Whether the circle holds the free blocks is what
        they are to find out. */
    ghost predicate Walkable()
      reads this, mem
    {
      && lo + 2 <= brk <= mem.Length && Tiling(mem[..], lo, brk - 1, H)
      && Linked(mem[..], fl) && first == Head(fl)
      && forall i, j :: 0 <= i < j < |fl| ==> fl[i] != fl[j]
    }

    ghost predicate MarkedFree(b: nat)
      reads mem
    {
      0 < b && b + 2 < mem.Length && !BlockAllocated(b)
    }

    ghost predicate ListedAreFree()
      reads this, mem
    {
      forall i {:trigger fl[i]} :: 0 <= i < |fl| ==> MarkedFree(fl[i])
    }

    ghost predicate FreeAreListed()
      reads this
    {
      forall b :: b in H && H[b].flag == 0 ==> b in fl
    }

    lemma LinksLead(k: nat)
      requires Walkable() && k < |fl|
      ensures 0 < fl[k] && fl[k] + 2 < mem.Length
      ensures !BlockAllocated(fl[k]) ==> BlockNextFree(fl[k]) == fl[Succ(|fl|, k)]
      ensures fl[Succ(|fl|, k)] == fl[0] ==> k + 1 == |fl|
    {
      assert LinkOk(mem[..], fl, k);
    }

    /** 0 when the block is on the list, else 1. */
    method FindInList(block: nat) returns (r: int)
      requires Walkable() && fl != [] && ListedAreFree()
      ensures r == 0 || r == 1
      ensures r == 0 <==> block in fl
    {
      hide Tiling, Linked, LinkOk;
      var initial := first;
      ghost var i: nat := 0;
      while true
        invariant i < |fl| && initial == fl[i] && forall j :: 0 <= j < i ==> fl[j] != block
        decreases |fl| - i
      {
        if block == initial {
          return 0;
        }
        LinksLead(i);
        initial := BlockNextFree(initial);
        if initial == first {
          break;
        }
        i := i + 1;
      }
      return 1;
    }

    /** 1 just when some listed block is marked allocated. */
    method CheckFreeList() returns (r: int)
      requires Walkable()
      ensures r == 0 || r == 1
      ensures r == 0 <==> ListedAreFree()
    {
      hide Tiling, Linked;
      var list := first;
      if fl != [] { LinksLead(0); }
      if list != NULL {
        ghost var i: nat := 0;
        while true
          invariant i < |fl| && list == fl[i]
          invariant forall j {:trigger fl[j]} :: 0 <= j < i ==> MarkedFree(fl[j])
          decreases |fl| - i
        {
          LinksLead(i);
          if BlockAllocated(list) {
            assert !MarkedFree(fl[i]);
            return 1;
          }
          list := BlockNextFree(list);
          if list == first {
            break;
          }
          i := i + 1;
        }
      }
      return 0;
    }

    /** 1 just when some block from start on is marked free and not listed. */
    method CheckFreeHeap(start: nat, top: nat) returns (r: int)
      requires Walkable() && (forall b :: b in H && H[b].flag == 0 ==> fl != [] && ListedAreFree())
      requires start in H && lo < start && top == brk - 1
      ensures r == 0 || r == 1
      ensures r == 0 <==> forall b :: b in H && start <= b && H[b].flag == 0 ==> b in fl
    {
      hide Tiling, Linked, LinkOk, ListedAreFree, BlockOk;
      var block := start;
      TilingSays(block);
      while block != top
        invariant block in H && start <= block <= top
        invariant forall b :: b in H && start <= b < block && H[b].flag == 0 ==> b in fl
        decreases top - block
      {
        TilingSays(block);
        if !BlockAllocated(block) {
          var missing := FindInList(block);
          if missing != 0 {
            return 1;
          }
        }
        NothingBetween(block);
        block := BlockNext(block);
        TilingSays(block);
      }
      TopIsTaken();
      return 0;
    }

    lemma NothingBetween(b: nat)
      requires Walkable() && b in H
      ensures forall c :: c in H && b < c ==> b + H[b].size <= c
    {
      forall c | c in H && b < c ensures b + H[b].size <= c { assert Before(H, b, c); }
    }

    lemma TopIsTaken()
      requires Walkable()
      ensures forall b :: b in H && brk - 1 <= b ==> H[b].flag != 0
      ensures forall b :: b in H && b <= lo ==> H[b].flag != 0
      ensures lo in H && lo + 1 in H
    {
      forall b | b in H && (brk - 1 <= b || b <= lo) ensures H[b].flag != 0 {
        assert BlockOk(mem[..], lo, brk - 1, H, b);
      }
      assert BlockOk(mem[..], lo, brk - 1, H, lo);
    }

    /** 0 just when the list and the flags agree: every listed block is marked free,
        and every block marked free is listed. The accessors assert that listed
        blocks are marked free, so the second check relies on the first. */
    method MmCheckHeap() returns (r: int)
      requires Walkable() && (forall b :: b in H && H[b].flag == 0 ==> fl != [] && ListedAreFree())
      ensures r == 0 || r == 1
      ensures r == 0 <==> ListedAreFree() && FreeAreListed()
    {
      hide Tiling, Linked, LinkOk, ListedAreFree, BlockOk;
      var bottom := lo;
      TopIsTaken();
      TilingSays(bottom);
      NothingBetween(bottom);
      var start := BlockNext(bottom);
      var top := brk - 1;
      var a := CheckFreeList();
      var b := CheckFreeHeap(start, top);
      return if a == 0 && b == 0 then 0 else 1;
    }

    /** The allocator's own heaps pass. */
    lemma ValidPasses()
      requires Valid()
      ensures Walkable() && ListedAreFree() && FreeAreListed()
      ensures forall b :: b in H && H[b].flag == 0 ==> fl != []
    {
      forall i {:trigger fl[i]} | 0 <= i < |fl| ensures MarkedFree(fl[i]) { LinksSay({}, i); }
    }
  }

  /** The block at b is large enough for a request of size bytes. */
  ghost predicate Fits(H: Blocks, b: nat, size: nat) {
    b in H && Align(size) + TAGS_SIZE <= 8 * H[b].size
  }

  /** The i-th listed block is the first that is large enough. */
  ghost predicate FirstFit(H: Blocks, fl: seq<nat>, i: nat, size: nat)
    requires i < |fl|
  {
    Fits(H, fl[i], size) && forall j :: 0 <= j < i ==> !Fits(H, fl[j], size)
  }

  /** The k-th listed block has been taken for aligned bytes: cut in two, the rest
      at the front of the list, when the rest is at least a smallest block; else whole. */
  ghost predicate CutFrom(H: Blocks, fl: seq<nat>, k: nat, aligned: nat, H': Blocks, fl': seq<nat>) {
    k < |fl| && fl[k] in H &&
    var b, w := fl[k], (aligned + TAGS_SIZE) / 8;
    if w + MINBLOCK <= H[b].size then H' == Split(H, b, w, 1, 0) && fl' == [b + w] + Without(fl, k)
    else H' == H[b := H[b].(flag := 1)] && fl' == Without(fl, k)
  }

  lemma BufferedPayload(m: Memory, b: nat, n: nat)
    requires 2 <= n && b + n <= |m|
    ensures m[b..b + n][1..n - 1] == m[b + 1..b + n - 1]
  {
    var buffer, payload := m[b..b + n], m[b + 1..b + n - 1];
    var inner := buffer[1..n - 1];
    assert |inner| == |payload|;
    forall i | 0 <= i < |inner| ensures inner[i] == payload[i] {
      assert inner[i] == buffer[1 + i] == m[b + 1 + i];
    }
  }

  /** What copying buffer to b and then setting b's tags does to memory. */
  lemma RefillWrites(m: Memory, b: nat, n: nat, buffer: seq<Word>)
    requires 2 <= |buffer| <= n && b + n <= |m| && m[b] == Tag(n, 1) && m[b + n - 1] == Tag(n, 1)
    ensures var m' := Tagged(m[..b] + buffer + m[b + |buffer|..], b, n, 1);
            && |m'| == |m| && (forall w :: 0 <= w < |m| && m'[w] != m[w] ==> b < w < b + n - 1)
            && buffer[1..|buffer| - 1] <= m'[b + 1..b + n - 1]
  {
  }

  /** Writes inside a live payload miss every tag and every link. */
  lemma PayloadWritesKeepSound(m: Memory, m': Memory, lo: nat, end: nat, H: Blocks, fl: seq<nat>, g: nat)
    requires Sound(m, lo, end, H, fl, {}) && IsLive(lo, end, H, g) && |m'| == |m| && BlockOk(m, lo, end, H, g)
    requires forall w :: 0 <= w < |m| && m'[w] != m[w] ==> g < w < g + H[g].size - 1
    ensures Sound(m', lo, end, H, fl, {})
  {
    forall b | b in H && b + H[b].size <= |m| && 1 <= H[b].size
      ensures m'[b] == m[b] && m'[b + H[b].size - 1] == m[b + H[b].size - 1]
    {
      assert BlockOk(m, lo, end, H, b) && Before(H, b, g) && Before(H, g, b);
    }
    SameTagsKeepTiling(m, m', lo, end, H);
    FreeBlocksSpread(m, lo, end, H, fl, {});
    forall b | b in fl && b + 2 < |m|
      ensures m'[b + 1] == m[b + 1] && m'[b + 2] == m[b + 2]
    {
      assert BlockOk(m, lo, end, H, b) && Before(H, b, g) && Before(H, g, b);
    }
    LinksStay(m, m', fl);
  }

  /** Writes inside a live payload change only that payload. */
  lemma PayloadWriteStep(m: Memory, m': Memory, lo: nat, end: nat, H: Blocks, fl: seq<nat>, g: nat)
    requires Sound(m, lo, end, H, fl, {}) && IsLive(lo, end, H, g) && |m'| == |m|
    requires forall w :: 0 <= w < |m| && m'[w] != m[w] ==> g < w < g + H[g].size - 1
    ensures Sound(m', lo, end, H, fl, {}) && g + H[g].size <= |m'| && 2 <= H[g].size
    ensures Live(m', lo, end, H) - {g} == Live(m, lo, end, H) - {g}
    ensures g in Live(m', lo, end, H) && Live(m', lo, end, H)[g] == m'[g + 1..g + H[g].size - 1]
  {
    assert BlockOk(m, lo, end, H, g);
    PayloadWritesKeepSound(m, m', lo, end, H, fl, g);
    forall c: nat | IsLive(lo, end, H, c) && c != g ensures c < g || g + H[g].size <= c { assert Before(H, g, c); }
    RegionKeepsLive(m, m', lo, end, end, H, H, g, g + H[g].size, {g});
  }

  /** Requests of fewer than nine bytes give blocks too short for two links:
      free-list links written into such a block destroy its footer, and only
      those do. (The heap lies above address 24.) */
  lemma LinksFitIffNineBytes(m: Memory, b: nat, size: nat)
    requires 3 < b && b + (Align(size) + TAGS_SIZE) / 8 <= |m| && b + 2 < |m|
    ensures var n := (Align(size) + TAGS_SIZE) / 8;
            var m' := Tagged(m, b, n, 0)[b + 1 := 8 * b][b + 2 := 8 * b];
            m'[b] == m'[b + n - 1] <==> 9 <= size
  {
    var n := (Align(size) + TAGS_SIZE) / 8;
    assert 9 <= size <==> 4 <= n;
  }

  lemma SplitMakesFree(m: Memory, lo: nat, end: nat, H: Blocks, b: nat, k: nat)
    requires Tiling(m, lo, end, H) && b in H && lo < b < end && 0 < k < H[b].size
    ensures var H' := Split(H, b, k, 1, 0); b + k in H' && b + k < end && H'[b + k].flag == 0
  {
    NoStartInside(m, lo, end, H, b, k);
  }

  predicate FarApart(b: nat, c: nat) {
    b + 4 <= c || c + 4 <= b
  }

  /** Link writes leave the headers of the blocks involved alone. */
  lemma LinkKeepsFlags(m: Memory, F: seq<nat>, fb: nat)
    requires Spread([fb] + F) && F != [] && Linked(m, F) && LinkOk(m, F, 0) && LinkOk(m, F, |F| - 1) && fb + 2 < |m|
    ensures var f, l := F[0], F[|F| - 1];
            FarApart(fb, f) && FarApart(fb, l) && (l == f || FarApart(l, f))
  {
    var G := [fb] + F;
    assert G[0] == fb && G[1] == F[0] && G[|F|] == F[|F| - 1];
    assert Apart4(G, 0, 1) && Apart4(G, 0, |F|) && (|F| > 1 ==> Apart4(G, 1, |F|));
  }

  lemma PullKeepsSound(m: Memory, m': Memory, lo: nat, end: nat, H: Blocks, F: seq<nat>, L: set<nat>, k: nat)
    requires Sound(m, lo, end, H, F, L) && k < |F|
    requires |F| == 1 ==> m' == m
    requires 2 <= |F| ==>
      LinkOk(m, F, Pred(|F|, k)) && LinkOk(m, F, Succ(|F|, k)) && m' == Unlink(m, F[Pred(|F|, k)], F[Succ(|F|, k)])
    ensures Sound(m', lo, end, H, Without(F, k), L + {F[k]}) && Live(m', lo, end, H) == Live(m, lo, end, H)
  {
    FreeBlocksSpread(m, lo, end, H, F, L);
    PulledIsListed(H, F, L, k);
    if 2 <= |F| {
      UnlinkKeepsLinked(m, F, k);
      var p, q := F[Pred(|F|, k)], F[Succ(|F|, k)];
      assert p in F && q in F;
      assert LinkWord(F, p + 1) && LinkWord(F, q + 2);
      LinkWritesKeepTiling(m, m', lo, end, H, F);
      LinkWritesKeepLive(m, m', lo, end, H, F);
    }
  }

  lemma InsertKeepsSound(m: Memory, m': Memory, lo: nat, end: nat, H: Blocks, F: seq<nat>, fb: nat)
    requires Sound(m, lo, end, H, F, {fb}) && fb in H && lo < fb < end && H[fb].flag == 0 && fb + 2 < |m|
    requires F == [] ==> m' == m[fb + 1 := 8 * fb][fb + 2 := 8 * fb]
    requires F != [] ==> LinkOk(m, F, 0) && LinkOk(m, F, |F| - 1) && m' == Link(m, fb, F[0], F[|F| - 1])
    ensures Sound(m', lo, end, H, [fb] + F, {}) && Live(m', lo, end, H) == Live(m, lo, end, H)
  {
    var G := [fb] + F;
    InsertedIsListed(m, lo, end, H, F, fb);
    FreeBlocksSpread(m, lo, end, H, G, {});
    if F == [] {
      assert LinkOk(m', G, 0);
    } else {
      LinkKeepsLinked(m, F, fb);
      assert F[0] in G && F[|F| - 1] in G;
    }
    assert fb in G;
    forall w | 0 <= w < |m| && m'[w] != m[w] ensures LinkWord(G, w) {
      assert F != [] ==> w == fb + 1 || w == fb + 2 || w == F[|F| - 1] + 1 || w == F[0] + 2;
    }
    LinkWritesKeepTiling(m, m', lo, end, H, G);
    LinkWritesKeepLive(m, m', lo, end, H, G);
  }

  lemma PulledIsListed(H: Blocks, F: seq<nat>, L: set<nat>, k: nat)
    requires Listed(H, F, L) && k < |F|
    ensures Listed(H, Without(F, k), L + {F[k]})
    ensures |F| == 1 ==> Without(F, k) == []
  {
    var F' := Without(F, k);
    forall b
      ensures b in F' <==> b in F && b != F[k]
    {
      if b in F && b != F[k] {
        var i :| 0 <= i < |F| && F[i] == b;
        assert F'[if i < k then i else i - 1] == b;
      }
    }
  }

  lemma InsertedIsListed(m: Memory, lo: nat, end: nat, H: Blocks, F: seq<nat>, fb: nat)
    requires Tiling(m, lo, end, H) && Listed(H, F, {fb}) && fb in H && H[fb].flag == 0
    ensures Listed(H, [fb] + F, {}) && Spread([fb] + F)
  {
    forall i, j | 0 <= i < j < |[fb] + F| ensures ([fb] + F)[i] != ([fb] + F)[j] {
      if i == 0 { assert ([fb] + F)[j] in F; }
    }
    FreeBlocksSpread(m, lo, end, H, [fb] + F, {});
  }
}
