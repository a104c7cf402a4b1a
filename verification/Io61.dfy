/** The buffered file interface of `io61.c` against the unbuffered one of
    `slow-io61.c`, over a regular file of the operating system. */
module Io61 {

  type Byte = b: int | 0 <= b < 256

  const BLOCK: nat := 32768

  // ---------------------------------------------------------------- files

  /** The bytes that read(2) returns for n bytes at offset off. */
  function ReadAt(data: seq<Byte>, off: nat, n: nat): seq<Byte> {
    if off >= |data| then [] else if off + n <= |data| then data[off..off + n] else data[off..]
  }

  /** The file after write(2) of bytes at offset off; a gap is filled with zeros. */
  function WriteAt(data: seq<Byte>, off: nat, bytes: seq<Byte>): seq<Byte> {
    if bytes == [] then data else
    seq(if off + |bytes| <= |data| then |data| else off + |bytes|,
        i requires 0 <= i => if off <= i < off + |bytes| then bytes[i - off] else if i < |data| then data[i] else 0)
  }

  /** A regular file behind a descriptor: its bytes and the descriptor's offset. */
  class OsFile {
    var data: seq<Byte>
    var off: nat

    constructor (bytes: seq<Byte>)
      ensures data == bytes && off == 0
    {
      data, off := bytes, 0;
    }

    method Lseek(p: nat)
      modifies this`off
      ensures off == p
    {
      off := p;
    }

    method Read(n: nat) returns (r: seq<Byte>)
      modifies this`off
      ensures r == ReadAt(data, old(off), n) && off == old(off) + |r|
    {
      r := ReadAt(data, off, n);
      off := off + |r|;
    }

    method Write(bytes: seq<Byte>)
      modifies this
      ensures data == WriteAt(old(data), old(off), bytes) && off == old(off) + |bytes|
    {
      data := WriteAt(data, off, bytes);
      off := off + |bytes|;
    }
  }

  lemma ReadOne(data: seq<Byte>, off: nat, n: nat, all: nat)
    requires n <= all
    ensures off < |data| ==> ReadAt(data, off, n) + ReadAt(data, off + n, 1) == ReadAt(data, off, n + 1)
    ensures off + n < |data| ==> |ReadAt(data, off, n)| == n && ReadAt(data, off + n, 1) == [data[off + n]]
    ensures off + n >= |data| ==> ReadAt(data, off + n, 1) == [] && ReadAt(data, off, all) == ReadAt(data, off, n)
  {
  }

  /** The bytes kept are those of the file just before the descriptor's offset.
      After a short read nothing is kept and abs may be stale, but then the
      descriptor is at the end of the file. */
  ghost predicate Mirrors(data: seq<Byte>, off: nat, abs: nat, kept: seq<Byte>) {
    if kept != [] then off == abs + |kept| <= |data| && kept == data[abs..off]
    else abs == off || off >= |data|
  }

  /** A request that the buffer can serve. */
  lemma ServedByBuffer(data: seq<Byte>, off: nat, abs: nat, kept: seq<Byte>, pos: nat, n: nat)
    requires Mirrors(data, off, abs, kept) && pos + n <= |kept|
    ensures kept[pos..pos + n] == ReadAt(data, if kept != [] then abs + pos else off, n)
  {
    if n == 0 {
      assert kept[pos..pos] == [] && ReadAt(data, if kept != [] then abs + pos else off, 0) == [];
    } else {
      PartOfPart(data, abs, off, pos, n);
    }
  }

  lemma PartOfPart(data: seq<Byte>, lo: nat, hi: nat, at: nat, n: nat)
    requires lo <= hi <= |data| && at + n <= hi - lo
    ensures data[lo..hi][at..at + n] == data[lo + at..lo + at + n]
  {
    var part, wanted := data[lo..hi][at..at + n], data[lo + at..lo + at + n];
    assert |part| == |wanted|;
    forall k | 0 <= k < n ensures part[k] == wanted[k] {
      assert part[k] == data[lo..hi][at + k] == data[lo + at + k];
    }
  }

  /** What a read that meets the end of the file adds to what the buffer gave. */
  lemma ShortRead(data: seq<Byte>, from: nat, diff: nat, rest: nat, held: seq<Byte>, got: seq<Byte>, abs: nat)
    requires held == ReadAt(data, from, diff) && |held| == diff
    requires got == ReadAt(data, from + diff, rest + BLOCK) && |got| <= rest
    ensures held + got == ReadAt(data, from, diff + rest) && from + diff + |got| >= |data|
    ensures Mirrors(data, from + diff + |got|, abs, [])
  {
    var mid := from + diff;
    if mid < |data| {
      assert held == data[from..mid] && got == data[mid..];
      assert data[from..mid] + data[mid..] == data[from..];
    } else {
      assert got == [] && held + got == held;
    }
  }

  /** What a read that goes beyond the request adds, and what is left for the buffer. */
  lemma LongRead(data: seq<Byte>, from: nat, diff: nat, rest: nat, held: seq<Byte>, got: seq<Byte>, abs: nat,
      kept: seq<Byte>)
    requires Mirrors(data, from + diff, abs, kept)
    requires held == ReadAt(data, from, diff) && |held| == diff
    requires got == ReadAt(data, from + diff, rest + BLOCK) && |got| > rest
    ensures abs + |kept| == from + diff && |got| <= rest + BLOCK
    ensures held + got[..rest] == ReadAt(data, from, diff + rest)
    ensures Mirrors(data, from + diff + |got|, from + diff + rest, got[rest..])
  {
    var mid, end := from + diff, from + diff + |got|;
    assert held == data[from..mid] && got == data[mid..end];
    assert data[mid..end][..rest] == data[mid..mid + rest] && data[mid..end][rest..] == data[mid + rest..end];
    assert data[from..mid] + data[mid..mid + rest] == data[from..mid + rest];
  }

  /** io61_eof tries to read a byte, and aborts when there is one. */
  method Eof(fd: OsFile) returns (eof: bool)
    requires fd.off >= |fd.data|
    modifies fd`off
    ensures eof && fd.off == old(fd.off)
  {
    var x := fd.Read(1);
    return |x| == 0;
  }

  lemma WriteAtIs(data: seq<Byte>, off: nat, bytes: seq<Byte>)
    ensures |WriteAt(data, off, bytes)| == if bytes == [] || off + |bytes| <= |data| then |data| else off + |bytes|
    ensures forall k :: 0 <= k < |WriteAt(data, off, bytes)| ==>
      WriteAt(data, off, bytes)[k] ==
        if off <= k < off + |bytes| then bytes[k - off] else if k < |data| then data[k] else 0
  {
    var after := WriteAt(data, off, bytes);
    forall k | 0 <= k < |after|
      ensures after[k] == if off <= k < off + |bytes| then bytes[k - off] else if k < |data| then data[k] else 0
    {
    }
  }

  lemma WriteOne(data: seq<Byte>, off: nat, bytes: seq<Byte>, b: Byte)
    ensures WriteAt(WriteAt(data, off, bytes), off + |bytes|, [b]) == WriteAt(data, off, bytes + [b])
  {
    var d := WriteAt(data, off, bytes);
    var left, right := WriteAt(d, off + |bytes|, [b]), WriteAt(data, off, bytes + [b]);
    WriteAtIs(data, off, bytes);
    WriteAtIs(d, off + |bytes|, [b]);
    WriteAtIs(data, off, bytes + [b]);
    hide WriteAt;
    forall k | 0 <= k < |left| ensures k < |right| && left[k] == right[k] {
      if off <= k < off + |bytes| { assert (bytes + [b])[k - off] == bytes[k - off]; }
    }
    assert |left| == |right|;
  }

  /** memcpy(3) of bytes to a + at. */
  method Memcpy(a: array<Byte>, at: nat, bytes: seq<Byte>)
    requires at + |bytes| <= a.Length
    modifies a
    ensures a[..] == old(a[..at]) + bytes + old(a[at + |bytes|..])
  {
    forall i | 0 <= i < |bytes| { a[at + i] := bytes[i]; }
  }

  lemma CopiedInFront(a: seq<Byte>, bytes: seq<Byte>)
    requires |bytes| <= |a|
    ensures (a[..0] + bytes + a[|bytes|..])[..|bytes|] == bytes
  {
  }

  // ---------------------------------------------------------------- slow-io61.c

  /** One system call per byte. */
  class SlowFile {
    const fd: OsFile

    constructor (fd: OsFile)
      ensures this.fd == fd
    {
      this.fd := fd;
    }

    /** The byte, or -1 at the end of the file. */
    method Readc() returns (ch: int)
      modifies fd`off
      ensures if old(fd.off) < |fd.data| then ch == fd.data[old(fd.off)] && fd.off == old(fd.off) + 1
              else ch == -1 && fd.off == old(fd.off)
    {
      var buf := fd.Read(1);
      if |buf| == 1 {
        return buf[0];
      }
      return -1;
    }

    /** Reads the bytes that one read(2) would; returns their number. */
    method Read(sz: nat) returns (count: int, buf: seq<Byte>)
      modifies fd`off
      ensures buf == ReadAt(fd.data, old(fd.off), sz) && count == |buf| && fd.off == old(fd.off) + |buf|
    {
      var nread := 0;
      buf := [];
      while nread != sz
        invariant 0 <= nread <= sz && buf == ReadAt(fd.data, old(fd.off), nread) && |buf| == nread
        invariant fd.off == old(fd.off) + nread
        decreases sz - nread
      {
        ReadOne(fd.data, old(fd.off), nread, sz);
        var ch := Readc();
        if ch == -1 {
          break;
        }
        buf := buf + [ch];
        nread := nread + 1;
      }
      if nread != 0 || sz == 0 {
        return nread, buf;
      }
      var eof := Eof(fd);
      return if eof then nread else -1, buf;
    }

    /** Writes byte by byte what one write(2) would. */
    method Write(buf: seq<Byte>) returns (count: int)
      modifies fd
      ensures fd.data == WriteAt(old(fd.data), old(fd.off), buf) && fd.off == old(fd.off) + |buf| && count == |buf|
    {
      var nwritten := 0;
      while nwritten != |buf|
        invariant 0 <= nwritten <= |buf| && fd.data == WriteAt(old(fd.data), old(fd.off), buf[..nwritten])
        invariant fd.off == old(fd.off) + nwritten
        decreases |buf| - nwritten
      {
        WriteOne(old(fd.data), old(fd.off), buf[..nwritten], buf[nwritten]);
        assert buf[..nwritten] + [buf[nwritten]] == buf[..nwritten + 1];
        fd.Write([buf[nwritten]]);
        nwritten := nwritten + 1;
      }
      assert buf[..nwritten] == buf;
      return nwritten;
    }

    method Seek(pos: nat) returns (r: int)
      modifies fd`off
      ensures r == 0 && fd.off == pos
    {
      fd.Lseek(pos);
      return 0;
    }
  }

  // ---------------------------------------------------------------- io61.c, read-only handles

  class ReadFile {
    const fd: OsFile
    /** abs: the buffer's place in the file; pos: how far it is used; sz: how far it is filled. */
    var abs: nat
    var pos: nat
    var sz: nat
    const buf: array<Byte>

    ghost predicate Valid()
      reads this, fd, buf
    {
      buf.Length == BLOCK && pos <= sz <= BLOCK && Mirrors(fd.data, fd.off, abs, buf[..sz])
    }

    /** Where the unbuffered version would stand. */
    ghost function Offset(): nat
      reads this, fd, buf
      requires Valid()
    {
      if sz > 0 then abs + pos else fd.off
    }

    constructor (fd: OsFile)
      requires fd.off == 0
      ensures Valid() && this.fd == fd && fresh(buf) && Offset() == 0
    {
      this.fd := fd;
      abs, pos, sz := 0, 0, 0;
      buf := new Byte[BLOCK];
    }

    /** Returns the same bytes and count as the unbuffered version, and moves as far;
        what the buffer holds is read without a system call. */
    method Read(size: nat) returns (count: int, out: seq<Byte>)
      requires Valid()
      modifies this, fd`off, buf
      ensures Valid()
      ensures out == ReadAt(fd.data, old(Offset()), size) && count == |out|
      ensures Offset() == old(Offset()) + |out|
      ensures size <= old(sz - pos) ==> fd.off == old(fd.off)
    {
      hide ReadAt, Mirrors;
      var held := buf[..sz];
      ghost var from, abs0 := Offset(), abs;
      var rest := size;
      if rest <= sz - pos {
        ServedByBuffer(fd.data, fd.off, abs, held, pos, rest);
        out := held[pos..pos + rest];
        pos := pos + rest;
        count := |out|;
        assert buf[..sz] == held;
        assert Valid();
      } else {
        var diff := sz - pos;
        ServedByBuffer(fd.data, fd.off, abs, held, pos, diff);
        out := held[pos..pos + diff];
        OffsetIs();
        rest := rest - diff;
        pos := sz;
        abs := abs + pos;
        var buffer := fd.Read(rest + BLOCK);
        if |buffer| <= rest {
          ShortRead(fd.data, from, diff, rest, out, buffer, abs);
          out := out + buffer;
          pos, sz := 0, 0;
          assert buf[..sz] == [];
          assert Valid();
        } else {
          LongRead(fd.data, from, diff, rest, out, buffer, abs0, held);
          out := out + buffer[..rest];
          var kept := buffer[rest..];
          Keep(kept);
          abs := abs + rest;
          assert Valid();
        }
        count := |out|;
      }
      if count != 0 || rest == 0 {
        return;
      }
      var eof := Eof(fd);
      if !eof {
        count := -1;
      }
    }

    /** Makes these bytes the buffer's. */
    method Keep(kept: seq<Byte>)
      requires |kept| <= BLOCK == buf.Length
      modifies this`pos, this`sz, buf
      ensures pos == 0 && sz == |kept| && buf[..sz] == kept
    {
      CopiedInFront(buf[..], kept);
      Memcpy(buf, 0, kept);
      pos, sz := 0, |kept|;
      assert buf[..sz] == buf[..][..sz];
    }

    /** The descriptor stands behind the unread bytes. */
    lemma OffsetIs()
      requires Valid()
      ensures Offset() + (sz - pos) == fd.off
    {
    }

    method Seek(p: nat) returns (r: int)
      requires Valid()
      modifies this, fd`off
      ensures Valid() && r == 0 && Offset() == p
    {
      fd.Lseek(p);
      if abs <= p <= abs + sz {
        pos := p - abs;
        fd.Lseek(abs + sz);
      } else {
        pos, sz, abs := 0, 0, p;
      }
      return 0;
    }
  }

  // ---------------------------------------------------------------- io61.c, the dirty table

  /** A dirty interval of the buffer; Span(0, 0) is an unused entry. */
  datatype Span = Span(wpos: nat, wsz: nat)

  datatype Side = None | Left | Right

  const UNUSED := Span(0, 0)

  predicate Within(w: Span, x: int) {
    w.wpos <= x < w.wpos + w.wsz
  }

  ghost predicate Covered(spans: seq<Span>, x: int) {
    exists i :: 0 <= i < |spans| && Within(spans[i], x)
  }

  /** The number of bytes that a flush writes. */
  function Pending(spans: seq<Span>): nat {
    if spans == [] then 0 else spans[0].wsz + Pending(spans[1..])
  }

  ghost predicate TableOk(spans: seq<Span>, used: nat) {
    && |spans| == BLOCK && used <= BLOCK
    && (forall i :: 0 <= i < used ==> spans[i] != UNUSED && spans[i].wpos + spans[i].wsz <= BLOCK)
    && (forall i :: used <= i < BLOCK ==> spans[i] == UNUSED)
  }

  /** What the unbuffered version would have made of the file: the dirty bytes
      come from the buffer, the others from the file, and gaps are zero. */
  ghost predicate Stands(file: seq<Byte>, data: seq<Byte>, abs: nat, buf: seq<Byte>, spans: seq<Span>) {
    && |buf| == BLOCK && |spans| == BLOCK
    && |data| <= |file|
    && (|data| < |file| ==> |file| > abs && Covered(spans, |file| - 1 - abs))
    && (forall x :: Covered(spans, x) ==> 0 <= x < BLOCK && abs + x < |file|)
    && (forall k :: 0 <= k < |file| ==>
      file[k] == if Covered(spans, k - abs) then buf[k - abs] else if k < |data| then data[k] else 0)
  }

  lemma {:induction false} PendingUpdate(spans: seq<Span>, i: nat, w: Span)
    requires i < |spans|
    ensures Pending(spans[i := w]) == Pending(spans) - spans[i].wsz + w.wsz
  {
    if i > 0 {
      assert spans[i := w][1..] == spans[1..][i - 1 := w];
      PendingUpdate(spans[1..], i - 1, w);
    }
  }

  lemma {:induction false} PendingNone(spans: seq<Span>)
    requires forall i :: 0 <= i < |spans| ==> spans[i].wsz == 0
    ensures Pending(spans) == 0
  {
    if spans != [] { PendingNone(spans[1..]); }
  }

  lemma CoveredUpdate(spans: seq<Span>, i: nat, w: Span, x: int)
    requires i < |spans|
    ensures Covered(spans[i := w], x) || Within(spans[i], x) <==>
      Within(w, x) || Covered(spans, x) || Within(spans[i], x)
  {
    var after := spans[i := w];
    if Covered(spans, x) {
      var j :| 0 <= j < |spans| && Within(spans[j], x);
      if j != i { assert Within(after[j], x); }
    }
    if Within(w, x) { assert Within(after[i], x); }
  }

  /** Growing an entry to w by the interval n adds the bytes of n. */
  lemma Grown(spans: seq<Span>, used: nat, i: nat, w: Span, n: Span)
    requires TableOk(spans, used) && (i < used || (i == 0 && used < BLOCK))
    requires w != UNUSED && w.wpos + w.wsz <= BLOCK && forall x :: Within(w, x) <==> Within(spans[i], x) || Within(n, x)
    ensures TableOk(spans[i := w], if used == 0 then 1 else used)
    ensures forall x :: Covered(spans[i := w], x) <==> Covered(spans, x) || Within(n, x)
  {
    forall x ensures Covered(spans[i := w], x) <==> Covered(spans, x) || Within(n, x) {
      CoveredUpdate(spans, i, w, x);
      if Within(w, x) { assert Within(spans[i := w][i], x); }
      if Within(spans[i], x) { assert Covered(spans, x); }
    }
  }

  lemma EntryIs(spans: seq<Span>, used: nat, i: nat)
    requires TableOk(spans, used) && i < BLOCK
    ensures i < used ==> spans[i] != UNUSED && spans[i].wpos + spans[i].wsz <= BLOCK
    ensures i >= used ==> spans[i] == UNUSED
    ensures forall x :: Within(spans[i], x) ==> Covered(spans, x)
  {
  }

  lemma UnusedFrom(spans: seq<Span>, used: nat, i: nat)
    requires TableOk(spans, used) && i <= BLOCK && (i < BLOCK ==> spans[i] == UNUSED)
    ensures used <= i && TableOk(seq(BLOCK, k => UNUSED), 0)
    ensures forall k :: i <= k < BLOCK ==> spans[k] == UNUSED
  {
  }

  lemma AllUnused(spans: seq<Span>, used: nat)
    requires TableOk(spans, used) && used == 0
    ensures |spans| == BLOCK && forall i :: 0 <= i < BLOCK ==> spans[i] == UNUSED
  {
  }

  function Placed(spans: seq<Span>, at: nat, w: Span): seq<Span>
    requires at < |spans|
  {
    spans[..at] + [w] + spans[at..|spans| - 1]
  }

  lemma IsPlaced(spans: seq<Span>, at: nat, w: Span, after: seq<Span>)
    requires at < |spans| == |after|
    requires forall k {:trigger after[k]} :: 0 <= k < |spans| ==>
      after[k] == if k < at then spans[k] else if k == at then w else spans[k - 1]
    ensures after == Placed(spans, at, w)
  {
  }

  /** Making room for a new entry keeps the others, when the last was unused. */
  lemma PlacedCovers(spans: seq<Span>, used: nat, at: nat, w: Span)
    requires TableOk(spans, used) && used < BLOCK && at <= used && w != UNUSED && w.wpos + w.wsz <= BLOCK
    ensures TableOk(Placed(spans, at, w), used + 1)
    ensures forall x :: Covered(Placed(spans, at, w), x) <==> Covered(spans, x) || Within(w, x)
  {
    var after := Placed(spans, at, w);
    forall x ensures Covered(after, x) <==> Covered(spans, x) || Within(w, x) {
      if Covered(spans, x) {
        var j :| 0 <= j < |spans| && Within(spans[j], x);
        assert after[if j < at then j else j + 1] == spans[j];
      }
      if Within(w, x) { assert Within(after[at], x); }
      if Covered(after, x) {
        var j :| 0 <= j < |after| && Within(after[j], x);
        if j < at { assert after[j] == spans[j]; } else if j > at { assert after[j] == spans[j - 1]; }
      }
    }
  }

  /** Bytes copied into the buffer and recorded in the table are bytes written. */
  lemma BufferedWrite(file: seq<Byte>, data: seq<Byte>, abs: nat, buf: seq<Byte>, spans: seq<Span>,
                      pos: nat, bytes: seq<Byte>, buf': seq<Byte>, spans': seq<Span>)
    requires Stands(file, data, abs, buf, spans) && pos + |bytes| <= BLOCK && |spans'| == BLOCK
    requires buf' == buf[..pos] + bytes + buf[pos + |bytes|..]
    requires forall x :: Covered(spans', x) <==> Covered(spans, x) || Within(Span(pos, |bytes|), x)
    ensures Stands(WriteAt(file, abs + pos, bytes), data, abs, buf', spans')
  {
    hide WriteAt, Covered;
    var file' := WriteAt(file, abs + pos, bytes);
    WriteAtIs(file, abs + pos, bytes);
    if bytes != [] { assert Within(Span(pos, |bytes|), pos + |bytes| - 1); }
    forall k | 0 <= k < |file'|
      ensures file'[k] == if Covered(spans', k - abs) then buf'[k - abs] else if k < |data| then data[k] else 0
    {
      assert Within(Span(pos, |bytes|), k - abs) <==> pos <= k - abs < pos + |bytes|;
    }
  }

  lemma CoveredCleared(spans: seq<Span>, i: nat)
    requires i < |spans|
    ensures forall x :: Covered(spans, x) <==> Covered(spans[i := UNUSED], x) || Within(spans[i], x)
  {
    forall x ensures Covered(spans, x) <==> Covered(spans[i := UNUSED], x) || Within(spans[i], x) {
      CoveredUpdate(spans, i, UNUSED, x);
      if Within(spans[i], x) { assert Covered(spans, x); }
    }
  }

  /** Writing out one dirty interval leaves the intended file as it was. */
  lemma FlushOne(file: seq<Byte>, data: seq<Byte>, abs: nat, buf: seq<Byte>, spans: seq<Span>, w: Span,
      after: seq<Span>)
    requires Stands(file, data, abs, buf, spans) && w.wpos + w.wsz <= BLOCK && |after| == BLOCK
    requires forall x :: Covered(spans, x) <==> Covered(after, x) || Within(w, x)
    ensures Stands(file, WriteAt(data, abs + w.wpos, buf[w.wpos..w.wpos + w.wsz]), abs, buf, after)
  {
    hide Covered, WriteAt;
    var bytes := buf[w.wpos..w.wpos + w.wsz];
    var data' := WriteAt(data, abs + w.wpos, bytes);
    WriteAtIs(data, abs + w.wpos, bytes);
    if w.wsz > 0 { assert Within(w, w.wpos + w.wsz - 1); }
    assert |data'| <= |file|;
    assert |data'| < |file| ==> |file| > abs && Covered(after, |file| - 1 - abs);
    forall k | 0 <= k < |file|
      ensures file[k] == if Covered(after, k - abs) then buf[k - abs] else if k < |data'| then data'[k] else 0
    {
      if Within(w, k - abs) { assert data'[k] == bytes[k - abs - w.wpos]; }
    }
  }

  /** With nothing dirty the file is the intended one. */
  lemma NothingDirty(file: seq<Byte>, data: seq<Byte>, abs: nat, buf: seq<Byte>, spans: seq<Span>)
    requires |buf| == BLOCK && |spans| == BLOCK && forall i :: 0 <= i < BLOCK ==> spans[i] == UNUSED
    ensures Stands(file, data, abs, buf, spans) <==> file == data
  {
    assert forall x :: !Covered(spans, x);
  }

  // ---------------------------------------------------------------- io61.c, write-only handles

  class WriteFile {
    const fd: OsFile
    var abs: nat
    var pos: nat
    const buf: array<Byte>
    var wsz: nat
    const wbuf: array<Span>
    /** The file as the unbuffered version would have it by now. */
    ghost var file: seq<Byte>

    ghost predicate Valid()
      reads this, fd, buf, wbuf
    {
      && buf.Length == BLOCK && wbuf.Length == BLOCK && pos <= BLOCK
      && TableOk(wbuf[..], wsz)
      && Stands(file, fd.data, abs, buf[..], wbuf[..])
    }

    constructor (fd: OsFile)
      ensures Valid() && this.fd == fd && fresh(buf) && fresh(wbuf) && file == fd.data && abs == 0 && pos == 0
      ensures wsz == 0
    {
      this.fd := fd;
      abs, pos, wsz, file := 0, 0, 0, fd.data;
      buf := new Byte[BLOCK](i => 0);
      wbuf := new Span[BLOCK](i => UNUSED);
      new;
      NothingDirty(file, fd.data, abs, buf[..], wbuf[..]);
    }

    /** Places a new entry at index first. */
    method BinInsertHelper(at: nat, sz: nat, first: nat, e: Side)
      requires wbuf.Length == BLOCK && TableOk(wbuf[..], wsz) && wsz < BLOCK
      requires wsz > 0 ==> first <= wsz
      modifies wbuf
      ensures wbuf[..] == Placed(old(wbuf[..]), if wsz == 0 then 0 else first, Span(at, sz))
    {
      ghost var before := wbuf[..];
      if wsz == 0 {
        wbuf[0] := Span(at, sz);
      } else if e == Right && first >= wsz {
        wbuf[first] := Span(at, sz);
      } else if e == Right {
        var buffer := wbuf[first..wsz];
        forall i | 0 <= i < |buffer| { wbuf[first + 1 + i] := buffer[i]; }
        wbuf[first] := Span(at, sz);
      } else {
        var buffer := wbuf[first..wsz];
        forall i | 0 <= i < |buffer| { wbuf[first + 1 + i] := buffer[i]; }
        wbuf[first] := Span(at, sz);
      }
      IsPlaced(before, if wsz == 0 then 0 else first, Span(at, sz), wbuf[..]);
    }

    /** Adds [at, at + sz) to the dirty bytes and nothing else. */
    method BinaryInsert(at: nat, sz: nat, first0: nat, last0: nat, e0: Side)
      requires wbuf.Length == BLOCK && TableOk(wbuf[..], wsz) && wsz < BLOCK
      requires at + sz <= BLOCK && (at > 0 || sz > 0)
      requires first0 == 0 && last0 == (if wsz == 0 then 0 else wsz - 1)
      modifies this`wsz, wbuf
      ensures TableOk(wbuf[..], wsz) && old(wsz) <= wsz <= old(wsz) + 1
      ensures forall x :: Covered(wbuf[..], x) <==> Covered(old(wbuf[..]), x) || Within(Span(at, sz), x)
    {
      hide Covered, TableOk, Placed;
      var first: int, last: int, e := first0, last0, e0;
      ghost var before := wbuf[..];
      ghost var new' := Span(at, sz);
      ghost var replaced := false;
      while true
        invariant 0 <= first <= last + 1 && last <= last0 && wsz == old(wsz) && TableOk(wbuf[..], wsz)
        invariant replaced ==> first <= last && 0 < sz && wbuf[(first + last) / 2] == new'
        invariant !replaced ==> wbuf[..] == before
        invariant replaced ==> forall x :: Covered(wbuf[..], x) <==> Covered(before, x) || Within(new', x)
        decreases last - first + 1, if replaced then 0 else 1
      {
        if first > last {
          PlacedCovers(before, wsz, if wsz == 0 then 0 else first, new');
          BinInsertHelper(at, sz, first, e);
          wsz := wsz + 1;
          break;
        }
        var index := (first + last) / 2;
        ghost var s := wbuf[..];
        EntryIs(s, wsz, index);
        var mpos := wbuf[index].wpos;
        var msz := wbuf[index].wsz;
        if at >= mpos {
          if at == mpos + msz {
            Grown(s, wsz, index, Span(mpos, msz + sz), new');
            wbuf[index] := Span(mpos, msz + sz);
            assert wbuf[..] == s[index := Span(mpos, msz + sz)];
            if wsz == 0 {
              wsz := wsz + 1;
            }
            break;
          } else if at <= mpos + msz {
            if at + sz > mpos + msz {
              Grown(s, wsz, index, Span(mpos, msz + ((at + sz) - (mpos + msz))), new');
              wbuf[index] := Span(mpos, msz + ((at + sz) - (mpos + msz)));
              assert wbuf[..] == s[index := Span(mpos, msz + ((at + sz) - (mpos + msz)))];
              break;
            } else {
              assert forall x :: Within(new', x) ==> Within(s[index], x);
              break;
            }
          } else {
            first := index + 1;
            e := Right;
          }
        } else {
          if mpos <= at + sz <= mpos + msz {
            Grown(s, wsz, index, Span(at, msz + (mpos - at)), new');
            wbuf[index] := Span(at, msz + (mpos - at));
            assert wbuf[..] == s[index := Span(at, msz + (mpos - at))];
            break;
          } else if at + sz > mpos + msz {
            // no break: the next turn looks at the entry just replaced
            Grown(s, wsz, index, new', new');
            wbuf[index] := Span(at, sz);
            assert wbuf[..] == s[index := new'];
            replaced := true;
          } else {
            last := index - 1;
            e := Left;
          }
        }
      }
    }

    /** Writes every dirty interval out, so that the file becomes the intended one. */
    method FlushWbuf() returns (nwritten: nat)
      requires Valid()
      modifies this`wsz, wbuf, fd
      ensures Valid() && wsz == 0 && fd.data == file && nwritten == Pending(old(wbuf[..]))
    {
      hide Stands, Covered, TableOk, Pending;
      ghost var before, used := wbuf[..], wsz;
      nwritten := 0;
      var i := 0;
      while i < BLOCK
        invariant 0 <= i <= BLOCK
        invariant forall k :: 0 <= k < i ==> wbuf[k] == UNUSED
        invariant forall k :: i <= k < BLOCK ==> wbuf[k] == before[k]
        invariant Stands(file, fd.data, abs, buf[..], wbuf[..])
        invariant nwritten + Pending(wbuf[..]) == Pending(before)
      {
        EntryIs(before, used, i);
        ghost var s := wbuf[..];
        var w := wbuf[i];
        assert w == s[i] == before[i];
        if w.wpos == 0 && w.wsz == 0 {
          break;
        }
        CoveredCleared(s, i);
        FlushOne(file, fd.data, abs, buf[..], s, w, s[i := UNUSED]);
        PendingUpdate(s, i, UNUSED);
        fd.Lseek(abs + w.wpos);
        assert buf[w.wpos..w.wpos + w.wsz] == buf[..][w.wpos..w.wpos + w.wsz];
        fd.Write(buf[w.wpos..w.wpos + w.wsz]);
        nwritten := nwritten + w.wsz;
        wbuf[i] := UNUSED;
        assert wbuf[..] == s[i := UNUSED];
        i := i + 1;
      }
      UnusedFrom(before, used, i);
      wsz := 0;
      assert wbuf[..] == seq(BLOCK, k => UNUSED);
      PendingNone(wbuf[..]);
      NothingDirty(file, fd.data, abs, buf[..], wbuf[..]);
    }

    /** Leaves the file that the unbuffered version makes; what the buffer has room
        for is written without a system call. The count is too large by what was
        flushed, when something was. */
    method Write(bytes: seq<Byte>) returns (count: int)
      requires Valid() && wsz < BLOCK
      requires bytes != [] || pos > 0
      modifies this, buf, wbuf, fd
      ensures Valid() && file == WriteAt(old(file), old(abs + pos), bytes) && abs + pos == old(abs + pos) + |bytes|
      ensures count == |bytes| + if |bytes| <= BLOCK - old(pos) then 0 else Pending(old(wbuf[..]))
      ensures |bytes| <= BLOCK - old(pos) ==> fd.data == old(fd.data) && fd.off == old(fd.off)
      ensures wsz <= old(wsz) + 1
    {
      hide Covered, Within, Pending, Stands, TableOk;
      var sz := |bytes|;
      var nwritten := 0;
      if sz <= BLOCK - pos {
        ghost var buf0, wbuf0 := buf[..], wbuf[..];
        Memcpy(buf, pos, bytes);
        assert buf[..] == buf0[..pos] + bytes + buf0[pos + sz..];
        assert wbuf[..] == wbuf0;
        var last := if wsz != 0 then wsz - 1 else wsz;  // wbuf_index
        BinaryInsert(pos, sz, 0, last, None);
        BufferedWrite(file, fd.data, abs, buf0, wbuf0, pos, bytes, buf[..], wbuf[..]);
        file := WriteAt(file, abs + pos, bytes);
        pos := pos + sz;
        nwritten := sz;
      } else {
        var curPos := abs + pos;
        var temp := FlushWbuf();
        fd.Lseek(curPos);
        fd.Write(bytes);
        temp := temp + sz;
        file := fd.data;
        nwritten := nwritten + temp;
        abs := abs + (sz + pos);
        pos := 0;
        AllUnused(wbuf[..], wsz);
        NothingDirty(file, fd.data, abs, buf[..], wbuf[..]);
      }
      if nwritten != 0 || sz == 0 {
        return nwritten;
      }
      return -1;
    }

    /** -1 when there was nothing to write. */
    method Flush() returns (r: int)
      requires Valid()
      modifies this`wsz, wbuf, fd
      ensures Valid() && wsz == 0 && fd.data == file && r == if Pending(old(wbuf[..])) > 0 then 0 else -1
    {
      var nwritten := FlushWbuf();
      if nwritten != 0 {
        return 0;
      }
      return -1;
    }

    method Seek(p: nat) returns (r: int)
      requires Valid()
      modifies this, wbuf, fd
      ensures Valid() && r == 0 && file == old(file) && abs + pos == p && wsz <= old(wsz)
    {
      fd.Lseek(p);
      if abs <= p <= abs + BLOCK {
        pos := p - abs;
      } else {
        var _ := FlushWbuf();
        pos := 0;
        abs := p;
        AllUnused(wbuf[..], wsz);
        NothingDirty(file, fd.data, abs, buf[..], wbuf[..]);
      }
      return 0;
    }
  }

  // ---------------------------------------------------------------- runs

  datatype Request = Bytes(count: nat) | Offset(pos: nat)

  datatype Answer = Answer(status: int, bytes: seq<Byte>)

  /** What read(2) and lseek(2) answer at offset off, and where they end. */
  function Served(data: seq<Byte>, off: nat, request: Request): (r: (Answer, nat)) {
    match request
    case Bytes(n) => var bytes := ReadAt(data, off, n); (Answer(|bytes|, bytes), off + |bytes|)
    case Offset(p) => (Answer(0, []), p)
  }

  function Answered(data: seq<Byte>, off: nat, requests: seq<Request>): (r: (seq<Answer>, nat))
    decreases |requests|
  {
    if requests == [] then ([], off) else
    var (answers, at) := Answered(data, off, requests[..|requests| - 1]);
    var (answer, end) := Served(data, at, requests[|requests| - 1]);
    (answers + [answer], end)
  }

  method AnswersAgree(slow: SlowFile, fast: ReadFile, request: Request) returns (expected: Answer, got: Answer)
    requires fast.Valid() && slow.fd != fast.fd
    requires slow.fd.data == fast.fd.data && slow.fd.off == fast.Offset()
    modifies slow.fd`off, fast, fast.fd`off, fast.buf
    ensures expected == got && fast.Valid() && slow.fd.off == fast.Offset()
    ensures (got, fast.Offset()) == Served(fast.fd.data, old(fast.Offset()), request)
  {
    hide ReadAt, Mirrors;
    match request
    case Bytes(n) =>
      var count, bytes := slow.Read(n);
      expected := Answer(count, bytes);
      count, bytes := fast.Read(n);
      got := Answer(count, bytes);
    case Offset(p) =>
      var r := slow.Seek(p);
      expected := Answer(r, []);
      r := fast.Seek(p);
      got := Answer(r, []);
  }

  /** Every sequence of reads and seeks gets the same answers from both versions. */
  method ReadsAgree(slow: SlowFile, fast: ReadFile, requests: seq<Request>)
      returns (expected: seq<Answer>, got: seq<Answer>)
    requires fast.Valid() && slow.fd != fast.fd
    requires slow.fd.data == fast.fd.data && slow.fd.off == fast.Offset()
    modifies slow.fd`off, fast, fast.fd`off, fast.buf
    ensures expected == got && fast.Valid() && slow.fd.off == fast.Offset()
    ensures (got, fast.Offset()) == Answered(fast.fd.data, old(fast.Offset()), requests)
  {
    hide Answered, Served, ReadFile.Valid, ReadFile.Offset;
    expected, got := [], [];
    AnsweredNone(fast.fd.data, fast.Offset());
    for i := 0 to |requests|
      invariant fast.Valid() && slow.fd.off == fast.Offset() && expected == got
      invariant (got, fast.Offset()) == Answered(fast.fd.data, old(fast.Offset()), requests[..i])
    {
      AnsweredOne(fast.fd.data, old(fast.Offset()), requests[..i], requests[i]);
      assert requests[..i] + [requests[i]] == requests[..i + 1];
      var a, b := AnswersAgree(slow, fast, requests[i]);
      expected, got := expected + [a], got + [b];
    }
    assert requests[..|requests|] == requests;
  }

  lemma AnsweredNone(data: seq<Byte>, off: nat)
    ensures Answered(data, off, []) == ([], off)
  {
  }

  lemma AnsweredOne(data: seq<Byte>, off: nat, before: seq<Request>, last: Request)
    ensures var (answers, at) := Answered(data, off, before);
      var (answer, end) := Served(data, at, last);
      Answered(data, off, before + [last]) == (answers + [answer], end)
  {
    assert (before + [last])[..|before|] == before;
  }

  datatype Store = Put(bytes: seq<Byte>) | To(pos: nat)

  /** The file and the offset after write(2) or lseek(2) at offset off. */
  function Done(data: seq<Byte>, off: nat, store: Store): (r: (seq<Byte>, nat)) {
    match store
    case Put(bytes) => (WriteAt(data, off, bytes), off + |bytes|)
    case To(p) => (data, p)
  }

  function Stored(data: seq<Byte>, off: nat, stores: seq<Store>): (r: (seq<Byte>, nat))
    decreases |stores|
  {
    if stores == [] then (data, off) else
    var (file, at) := Stored(data, off, stores[..|stores| - 1]);
    Done(file, at, stores[|stores| - 1])
  }

  method StoresAgree(slow: SlowFile, fast: WriteFile, store: Store)
    requires fast.Valid() && slow.fd != fast.fd && fast.wsz < BLOCK && store != Put([])
    requires slow.fd.data == fast.file && slow.fd.off == fast.abs + fast.pos
    modifies slow.fd, fast, fast.fd, fast.buf, fast.wbuf
    ensures fast.Valid() && slow.fd.data == fast.file && slow.fd.off == fast.abs + fast.pos
    ensures fast.wsz <= old(fast.wsz) + 1
    ensures (fast.file, fast.abs + fast.pos) == Done(old(fast.file), old(fast.abs + fast.pos), store)
  {
    hide WriteAt, TableOk, Stands;
    match store
    case Put(bytes) =>
      var _ := slow.Write(bytes);
      var _ := fast.Write(bytes);
    case To(p) =>
      var _ := slow.Seek(p);
      var _ := fast.Seek(p);
  }

  /** Non-empty writes and seeks, then a flush, leave the file that the
      unbuffered version leaves. A run stops where the table has no room, which
      a clean handle meets after BLOCK calls at the earliest. */
  method WritesAgree(slow: SlowFile, fast: WriteFile, stores: seq<Store>) returns (done: nat)
    requires fast.Valid() && slow.fd != fast.fd
    requires slow.fd.data == fast.file && slow.fd.off == fast.abs + fast.pos
    requires forall i :: 0 <= i < |stores| ==> stores[i] != Put([])
    modifies slow.fd, fast, fast.fd, fast.buf, fast.wbuf
    ensures done <= |stores| && (done < |stores| ==> old(fast.wsz) + done >= BLOCK)
    ensures slow.fd.data == fast.fd.data && slow.fd.off == fast.abs + fast.pos
    ensures (slow.fd.data, slow.fd.off) == Stored(old(fast.file), old(fast.abs + fast.pos), stores[..done])
  {
    hide Stored, Done, WriteFile.Valid;
    done := 0;
    StoredNone(fast.file, fast.abs + fast.pos);
    ghost var file0, from := fast.file, fast.abs + fast.pos;
    while done < |stores| && fast.wsz < BLOCK
      invariant fast.Valid() && slow.fd.data == fast.file && slow.fd.off == fast.abs + fast.pos
      invariant fast.wsz <= old(fast.wsz) + done && done <= |stores|
      invariant (fast.file, fast.abs + fast.pos) == Stored(file0, from, stores[..done])
    {
      StoredOne(file0, from, stores[..done], stores[done]);
      assert stores[..done] + [stores[done]] == stores[..done + 1];
      StoresAgree(slow, fast, stores[done]);
      done := done + 1;
    }
    var _ := fast.Flush();
  }

  lemma StoredNone(data: seq<Byte>, off: nat)
    ensures Stored(data, off, []) == (data, off)
  {
  }

  lemma StoredOne(data: seq<Byte>, off: nat, before: seq<Store>, last: Store)
    ensures var (file, at) := Stored(data, off, before);
      Stored(data, off, before + [last]) == Done(file, at, last)
  {
    assert (before + [last])[..|before|] == before;
  }
}
