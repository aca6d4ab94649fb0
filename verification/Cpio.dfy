/**
  The walker over the uncompressed cpio archives at the start of an initramfs
  (bootguard/src/preflight.rs). The file is a sequence of bytes; a read inside it
  succeeds. `Layout` says, without walking, what the format of such a prefix is;
  `WalkIffLayout` says that the walker accepts exactly these prefixes.
*/
module Cpio {
  import opened Options

  type Byte = x: int | 0 <= x < 256
  type Bytes = seq<Byte>

  const ZERO_RUN := 0x10_0000
  const HEADER := 110

  function Code(c: char): Byte {
    if c as int < 256 then c as int else 63
  }

  /** The bytes of an ASCII string. */
  function Ascii(s: string): (b: Bytes)
    ensures |b| == |s|
  {
    seq(|s|, i requires 0 <= i < |s| => Code(s[i]))
  }

  const NEWC := Ascii("070701")
  const CRC := Ascii("070702")
  const TRAILER := Ascii("TRAILER!!!")

  /** Some(true) for the checksummed format. */
  function HasChecksum(magic: Bytes): Option<bool> {
    if magic == NEWC then Some(false) else if magic == CRC then Some(true) else None
  }

  // ---- pieces of a file ----------------------------------------------------

  /** `w` stands at `o` in `f`. */
  predicate At(f: Bytes, o: nat, w: Bytes) {
    o + |w| <= |f| && f[o..o + |w|] == w
  }

  lemma AtSplit(f: Bytes, o: nat, a: Bytes, b: Bytes)
    requires At(f, o, a + b)
    ensures At(f, o, a) && At(f, o + |a|, b)
  {
    var w := f[o..o + |a + b|];
    assert f[o..o + |a|] == w[..|a|] == a;
    assert f[o + |a|..o + |a| + |b|] == w[|a|..] == b;
  }

  // ---- header fields -------------------------------------------------------

  function HexDigit(b: Byte): Option<nat> {
    if 48 <= b <= 57 then Some(b - 48)
    else if 97 <= b <= 102 then Some(b - 87)
    else if 65 <= b <= 70 then Some(b - 55)
    else None
  }

  function HexValue(ds: Bytes): Option<nat>
    decreases |ds|
  {
    if ds == [] then Some(0)
    else
      var high, low := HexValue(ds[..|ds| - 1]), HexDigit(ds[|ds| - 1]);
      if high.Some? && low.Some? then Some(16 * high.value + low.value) else None
  }

  /** Eight digits as Rust reads them: a leading plus sign is accepted. */
  function Field(f: Bytes, o: nat): Option<nat> {
    if o + 8 > |f| then None
    else if f[o] == 43 then HexValue(f[o + 1..o + 8])
    else HexValue(f[o..o + 8])
  }

  /** `x` rounded up to a multiple of 4. */
  function A4(x: nat): (y: nat)
    ensures x <= y < x + 4 && y % 4 == 0
  {
    if x % 4 == 0 then x else x + (4 - x % 4)
  }

  // ---- the kernel's init ---------------------------------------------------

  function TrimDotSlash(n: Bytes): Bytes {
    if |n| >= 2 && n[0] == 46 && n[1] == 47 then TrimDotSlash(n[2..]) else n
  }

  function TrimSlash(n: Bytes): Bytes {
    if |n| >= 1 && n[0] == 47 then TrimSlash(n[1..]) else n
  }

  predicate IsInitPath(n: Bytes) {
    n == Ascii("init") || n == Ascii("sbin/init") || n == Ascii("usr/sbin/init") ||
    n == Ascii("usr/lib/systemd/systemd") || n == Ascii("lib/systemd/systemd")
  }

  /** An executable regular file, or a symbolic link. */
  predicate IsInitMode(mode: nat) {
    mode / 0x1000 % 16 == 10 ||
    (mode / 0x1000 % 16 == 8 && (mode % 2 == 1 || mode / 8 % 2 == 1 || mode / 64 % 2 == 1))
  }

  /** What the kernel would run as its init. */
  predicate IsInit(name: Bytes, mode: nat) {
    IsInitPath(TrimSlash(TrimDotSlash(name))) && IsInitMode(mode)
  }

  // ---- checksums -----------------------------------------------------------

  function Sum(b: Bytes): nat
    decreases |b|
  {
    if b == [] then 0 else Sum(b[..|b| - 1]) + b[|b| - 1]
  }

  lemma {:induction false} SumSplit(a: Bytes, b: Bytes)
    ensures Sum(a + b) == Sum(a) + Sum(b)
    decreases |b|
  {
    if b == [] {
      assert a + b == a;
    } else {
      assert (a + b)[..|a + b| - 1] == a + b[..|b| - 1];
      SumSplit(a, b[..|b| - 1]);
    }
  }

  const WORD := 0x1_0000_0000

  lemma AddModulo(x: nat, y: nat, b: nat)
    requires x % WORD == y % WORD
    ensures (x + b) % WORD == (y + b) % WORD
  {
    var q := x / WORD - y / WORD;
    assert x + b == (y + b) + WORD * q;
  }

  /** One buffer of it: bytes are added with wrap-around. */
  method AddBytes(b: Bytes, sum: nat) returns (r: nat)
    requires sum < WORD
    ensures r < WORD && r % WORD == (sum + Sum(b)) % WORD
  {
    r := sum;
    for i := 0 to |b|
      invariant r < WORD && r % WORD == (sum + Sum(b[..i])) % WORD
    {
      assert b[..i + 1][..i] == b[..i];
      AddModulo(r, sum + Sum(b[..i]), b[i]);
      r := (r + b[i]) % WORD;
    }
    assert b[..|b|] == b;
  }

  lemma BufferAdds(f: Bytes, off: nat, o: nat, k: nat, sum: nat, r: nat)
    requires off <= o && o + k <= |f|
    requires sum % WORD == Sum(f[off..o]) % WORD
    requires r % WORD == (sum + Sum(f[o..o + k])) % WORD
    ensures r % WORD == Sum(f[off..o + k]) % WORD
  {
    assert f[off..o + k] == f[off..o] + f[o..o + k];
    SumSplit(f[off..o], f[o..o + k]);
    AddModulo(sum, Sum(f[off..o]), Sum(f[o..o + k]));
  }

  /** `byte_sum`: the sum modulo 2^32, read a buffer at a time. */
  method ByteSum(f: Bytes, off: nat, n: nat) returns (sum: nat)
    requires off + n <= |f|
    ensures sum < WORD && sum % WORD == Sum(f[off..off + n]) % WORD
  {
    hide Sum;
    sum := 0;
    var o, left := off, n;
    assert Sum(f[off..o]) == 0 by { EmptySum(f[off..o]); }
    while left > 0
      invariant off <= o && o + left == off + n
      invariant sum < WORD && sum % WORD == Sum(f[off..o]) % WORD
    {
      var k := if left < 0x1_0000 then left else 0x1_0000;
      var r := AddBytes(f[o..o + k], sum);
      BufferAdds(f, off, o, k, sum, r);
      sum, o, left := r, o + k, left - k;
    }
  }

  lemma EmptySum(b: Bytes)
    requires |b| == 0
    ensures Sum(b) == 0
  {
  }

  // ---- entries -------------------------------------------------------------

  /** An entry at a place in the file: its data starts at `data`, the next one at `end`. */
  datatype Entry = Entry(mode: nat, name: Bytes, crc: bool, size: nat, data: nat, end: nat)

  function ReadEntry(f: Bytes, o: nat): Result<Entry> {
    if o + HEADER > |f| then Err("early cpio header")
    else
      var crc := HasChecksum(f[o..o + 6]);
      var mode, size, nsz, sum := Field(f, o + 14), Field(f, o + 54), Field(f, o + 94), Field(f, o + 102);
      if crc.None? then Err("bad cpio magic")
      else if mode.None? || size.None? || nsz.None? || sum.None? then Err("bad cpio header")
      else if nsz.value == 0 || nsz.value > 4096 || o + HEADER + nsz.value > |f| then Err("implausible cpio name size")
      else if f[o + HEADER + nsz.value - 1] != 0 then Err("cpio entry name is not NUL terminated")
      else
        var data := A4(o + HEADER + nsz.value);
        var end := A4(data + size.value);
        if end > |f| then Err("early cpio runs past end of file")
        else if crc.value && Sum(f[data..data + size.value]) % WORD != sum.value then
          Err("checksum mismatch in cpio entry")
        else Ok(Entry(mode.value, f[o + HEADER..o + HEADER + nsz.value - 1], crc.value, size.value, data, end))
  }

  /** The format of one entry, field by field. */
  predicate EntryAt(f: Bytes, o: nat, e: Entry) {
    && |e.name| < 4096
    && e.data == A4(o + HEADER + |e.name| + 1) && e.end == A4(e.data + e.size) && e.end <= |f|
    && f[o..o + 6] == (if e.crc then CRC else NEWC)
    && Field(f, o + 14) == Some(e.mode)
    && Field(f, o + 54) == Some(e.size)
    && Field(f, o + 94) == Some(|e.name| + 1)
    && f[o + HEADER..o + HEADER + |e.name|] == e.name
    && f[o + HEADER + |e.name|] == 0
    && Field(f, o + 102).Some?
    && (e.crc ==> Sum(f[e.data..e.data + e.size]) % WORD == Field(f, o + 102).value)
  }

  lemma MagicsDiffer()
    ensures NEWC != CRC && |NEWC| == |CRC| == 6
    ensures HasChecksum(NEWC) == Some(false) && HasChecksum(CRC) == Some(true)
    ensures NEWC[0] == CRC[0] == 48
  {
    assert NEWC[5] == 49 && CRC[5] == 50;
  }

  lemma EntryIffRead(f: Bytes, o: nat, e: Entry)
    ensures ReadEntry(f, o) == Ok(e) <==> EntryAt(f, o, e)
  {
    hide Field, Sum, A4;
    MagicsDiffer();
  }

  // ---- the walk ------------------------------------------------------------

  /** The entries of one archive, up to and including its trailer. */
  function WalkArchive(f: Bytes, o: nat, hasInit: bool): (r: Result<(nat, bool)>)
    ensures r.Ok? ==> o < r.value.0 <= |f|
    decreases |f| - o
  {
    match ReadEntry(f, o)
    case Err(msg) => Err(msg)
    case Ok(e) =>
      if e.name == TRAILER then Ok((e.end, hasInit))
      else if e.end == |f| then Err("early cpio ends without a trailer")
      else WalkArchive(f, e.end, hasInit || IsInit(e.name, e.mode))
  }

  /** The end of the zeros at `o`, looked at up to `limit`. */
  function SkipZeros(f: Bytes, o: nat, limit: nat): (r: nat)
    requires o <= limit <= |f|
    ensures o <= r <= limit
    ensures forall i :: o <= i < r ==> f[i] == 0
    ensures r == limit || f[r] != 0
    decreases limit - o
  {
    if o < limit && f[o] == 0 then SkipZeros(f, o + 1, limit) else o
  }

  function PadEnd(f: Bytes, o: nat): nat {
    if o + ZERO_RUN < |f| then o + ZERO_RUN else |f|
  }

  predicate MagicAt(f: Bytes, o: nat) {
    o + 6 <= |f| && HasChecksum(f[o..o + 6]).Some?
  }

  function Walk(f: Bytes, o: nat, hasInit: bool): (r: Result<(nat, bool)>)
    requires o <= |f|
    ensures r.Ok? ==> o <= r.value.0 <= |f|
    decreases |f| - o
  {
    var p := SkipZeros(f, o, PadEnd(f, o));
    if !MagicAt(f, p) then Ok((p, hasInit))
    else
      match WalkArchive(f, p, hasInit)
      case Err(msg) => Err(msg)
      case Ok(r) => Walk(f, r.0, r.1)
  }

  /** `initramfs_payload_offset`: the offset after the archives, and whether they hold an init. */
  method PayloadOffset(f: Bytes) returns (r: Result<(nat, bool)>)
    ensures r == Walk(f, 0, false)
  {
    hide HasChecksum, WalkArchive;
    var o, hasInit := 0, false;
    while true
      invariant o <= |f|
      invariant Walk(f, o, hasInit) == Walk(f, 0, false)
      decreases |f| - o
    {
      ghost var from := o;
      var padEnd := if o + ZERO_RUN < |f| then o + ZERO_RUN else |f|;
      while o < padEnd && f[o] == 0
        invariant from <= o <= padEnd
        invariant SkipZeros(f, o, padEnd) == SkipZeros(f, from, padEnd)
      {
        o := o + 1;
      }
      if o + 6 > |f| || HasChecksum(f[o..o + 6]).None? {
        return Ok((o, hasInit));
      }
      var archive := SkipArchive(f, o, hasInit);
      if archive.Err? { return archive; }
      o, hasInit := archive.value.0, archive.value.1;
    }
  }

  /** The inner loop: the entries of the archive at `start`. */
  method SkipArchive(f: Bytes, start: nat, had: bool) returns (r: Result<(nat, bool)>)
    requires start <= |f|
    ensures r == WalkArchive(f, start, had)
  {
    hide ReadEntry, IsInit, Field, Sum;
    var o, hasInit := start, had;
    while true
      invariant o <= |f|
      invariant WalkArchive(f, o, hasInit) == WalkArchive(f, start, had)
      decreases |f| - o
    {
      var e := ReadHeader(f, o);
      if e.Err? { return Err(e.msg); }
      if e.value.crc {
        var sum := ByteSum(f, e.value.data, e.value.size);
        if sum != Field(f, o + 102).value { return Err("checksum mismatch in cpio entry"); }
      }
      o := e.value.end;
      if e.value.name == TRAILER { return Ok((o, hasInit)); }
      hasInit := hasInit || IsInit(e.value.name, e.value.mode);
      if o == |f| { return Err("early cpio ends without a trailer"); }
    }
  }

  /** Everything of an entry but its checksum. */
  method ReadHeader(f: Bytes, o: nat) returns (r: Result<Entry>)
    requires o <= |f|
    ensures r.Err? ==> ReadEntry(f, o) == r
    ensures r.Ok? ==>
      && o < r.value.end <= |f| && r.value.data + r.value.size <= |f| && Field(f, o + 102).Some?
      && ReadEntry(f, o) ==
           if r.value.crc && Sum(f[r.value.data..r.value.data + r.value.size]) % WORD != Field(f, o + 102).value
           then Err("checksum mismatch in cpio entry") else r
  {
    hide HasChecksum, Field, A4, Sum;
    if o + HEADER > |f| { return Err("early cpio header"); }
    var crc := HasChecksum(f[o..o + 6]);
    if crc.None? { return Err("bad cpio magic"); }
    var mode, size, nsz, sum := Field(f, o + 14), Field(f, o + 54), Field(f, o + 94), Field(f, o + 102);
    if mode.None? || size.None? || nsz.None? || sum.None? { return Err("bad cpio header"); }
    if nsz.value == 0 || nsz.value > 4096 || o + HEADER + nsz.value > |f| { return Err("implausible cpio name size"); }
    var name := f[o + HEADER..o + HEADER + nsz.value];
    if name[|name| - 1] != 0 { return Err("cpio entry name is not NUL terminated"); }
    var data := A4(o + HEADER + nsz.value);
    var end := A4(data + size.value);
    if end > |f| { return Err("early cpio runs past end of file"); }
    r := Ok(Entry(mode.value, name[..|name| - 1], crc.value, size.value, data, end));
    assert name[..|name| - 1] == f[o + HEADER..o + HEADER + nsz.value - 1];
  }

  // ---- the format of the whole prefix --------------------------------------

  /** A run of zeros followed by one archive. */
  datatype Segment = Segment(zeros: nat, entries: seq<Entry>, end: nat)

  predicate ArchiveAt(f: Bytes, o: nat, es: seq<Entry>, end: nat)
    decreases |es|
  {
    && es != [] && EntryAt(f, o, es[0])
    && if |es| == 1 then es[0].name == TRAILER && end == es[0].end
       else es[0].name != TRAILER && ArchiveAt(f, es[0].end, es[1..], end)
  }

  predicate ZerosAt(f: Bytes, o: nat, n: nat) {
    o + n <= |f| && n <= ZERO_RUN && forall i :: o <= i < o + n ==> f[i] == 0
  }

  /** From `o` the file is `segs`, then zeros up to `off`, where neither a zero that would
      still be skipped nor another archive stands. */
  predicate Layout(f: Bytes, o: nat, segs: seq<Segment>, off: nat)
    decreases |segs|
  {
    if segs == [] then
      && o <= off && ZerosAt(f, o, off - o) && !MagicAt(f, off)
      && (off == |f| || off == o + ZERO_RUN || f[off] != 0)
    else
      var s := segs[0];
      && ZerosAt(f, o, s.zeros)
      && ArchiveAt(f, o + s.zeros, s.entries, s.end)
      && Layout(f, s.end, segs[1..], off)
  }

  /** Does an entry other than the trailers hold an init? */
  predicate HoldsInit(segs: seq<Segment>) {
    exists i, j :: 0 <= i < |segs| && 0 <= j < |segs[i].entries| - 1 &&
      IsInit(segs[i].entries[j].name, segs[i].entries[j].mode)
  }

  predicate AnyInit(es: seq<Entry>) {
    exists j :: 0 <= j < |es| - 1 && IsInit(es[j].name, es[j].mode)
  }

  lemma {:induction false} ArchiveWalks(f: Bytes, o: nat, es: seq<Entry>, end: nat, hasInit: bool)
    requires ArchiveAt(f, o, es, end)
    ensures WalkArchive(f, o, hasInit) == Ok((end, hasInit || AnyInit(es)))
    decreases |es|
  {
    EntryIffRead(f, o, es[0]);
    if |es| > 1 {
      var rest := es[1..];
      EntryIffRead(f, es[0].end, rest[0]);
      ArchiveWalks(f, es[0].end, rest, end, hasInit || IsInit(es[0].name, es[0].mode));
      if AnyInit(rest) {
        var j :| 0 <= j < |rest| - 1 && IsInit(rest[j].name, rest[j].mode);
        assert es[j + 1] == rest[j];
      }
      if AnyInit(es) {
        var j :| 0 <= j < |es| - 1 && IsInit(es[j].name, es[j].mode);
        assert j == 0 || rest[j - 1] == es[j];
      }
    }
  }

  lemma {:induction false} WalkedArchive(f: Bytes, o: nat, hasInit: bool) returns (es: seq<Entry>)
    requires WalkArchive(f, o, hasInit).Ok?
    ensures ArchiveAt(f, o, es, WalkArchive(f, o, hasInit).value.0)
    decreases |f| - o
  {
    var e := ReadEntry(f, o).value;
    EntryIffRead(f, o, e);
    if e.name == TRAILER {
      es := [e];
    } else {
      var rest := WalkedArchive(f, e.end, hasInit || IsInit(e.name, e.mode));
      es := [e] + rest;
      assert es[1..] == rest;
    }
  }

  lemma SkipZerosIs(f: Bytes, o: nat, n: nat)
    requires ZerosAt(f, o, n) && (o + n == |f| || n == ZERO_RUN || f[o + n] != 0)
    ensures SkipZeros(f, o, PadEnd(f, o)) == o + n
  {
    var r := SkipZeros(f, o, PadEnd(f, o));
    assert o <= r <= PadEnd(f, o);
  }

  lemma ArchiveStarts(f: Bytes, o: nat, es: seq<Entry>, end: nat)
    requires ArchiveAt(f, o, es, end)
    ensures MagicAt(f, o) && f[o] == 48 && o < end <= |f|
    decreases |es|
  {
    MagicsDiffer();
    assert f[o] == f[o..o + 6][0];
    if |es| > 1 { ArchiveStarts(f, es[0].end, es[1..], end); }
  }

  /** Every layout is walked, to its end and with its inits. */
  lemma {:induction false} LayoutWalks(f: Bytes, o: nat, segs: seq<Segment>, off: nat, hasInit: bool)
    requires o <= |f| && Layout(f, o, segs, off)
    ensures Walk(f, o, hasInit) == Ok((off, hasInit || HoldsInit(segs)))
    decreases |segs|
  {
    hide WalkArchive, SkipZeros, IsInit, EntryAt, HasChecksum, AnyInit;
    if segs == [] {
      SkipZerosIs(f, o, off - o);
    } else {
      var s, rest := segs[0], segs[1..];
      ArchiveStarts(f, o + s.zeros, s.entries, s.end);
      SkipZerosIs(f, o, s.zeros);
      ArchiveWalks(f, o + s.zeros, s.entries, s.end, hasInit);
      LayoutWalks(f, s.end, rest, off, hasInit || AnyInit(s.entries));
      HoldsInitCons(segs);
    }
  }

  lemma HoldsInitCons(segs: seq<Segment>)
    requires segs != []
    ensures HoldsInit(segs) <==> AnyInit(segs[0].entries) || HoldsInit(segs[1..])
  {
    var rest := segs[1..];
    if HoldsInit(rest) {
      var i, j :| 0 <= i < |rest| && 0 <= j < |rest[i].entries| - 1 && IsInit(rest[i].entries[j].name, rest[i].entries[j].mode);
      assert segs[i + 1] == rest[i];
    }
    if HoldsInit(segs) {
      var i, j :| 0 <= i < |segs| && 0 <= j < |segs[i].entries| - 1 && IsInit(segs[i].entries[j].name, segs[i].entries[j].mode);
      assert i == 0 || rest[i - 1] == segs[i];
    }
  }

  lemma LayoutCons(f: Bytes, o: nat, s: Segment, rest: seq<Segment>, off: nat)
    requires ZerosAt(f, o, s.zeros) && ArchiveAt(f, o + s.zeros, s.entries, s.end) && Layout(f, s.end, rest, off)
    ensures Layout(f, o, [s] + rest, off)
  {
    assert ([s] + rest)[1..] == rest;
  }

  lemma LayoutNil(f: Bytes, o: nat, off: nat)
    requires o <= off && ZerosAt(f, o, off - o) && !MagicAt(f, off)
    requires off == |f| || off == o + ZERO_RUN || f[off] != 0
    ensures Layout(f, o, [], off)
  {
  }

  lemma ZerosSkipped(f: Bytes, o: nat)
    requires o <= |f|
    ensures var p := SkipZeros(f, o, PadEnd(f, o));
      o <= p && ZerosAt(f, o, p - o) && (p == |f| || p == o + ZERO_RUN || f[p] != 0)
  {
  }

  lemma WalkUnfolds(f: Bytes, o: nat, hasInit: bool)
    requires o <= |f|
    ensures var p := SkipZeros(f, o, PadEnd(f, o));
      Walk(f, o, hasInit) ==
        if !MagicAt(f, p) then Ok((p, hasInit))
        else match WalkArchive(f, p, hasInit)
             case Err(msg) => Err(msg)
             case Ok(r) => Walk(f, r.0, r.1)
  {
  }

  lemma {:induction false} WalkedLayout(f: Bytes, o: nat, hasInit: bool) returns (segs: seq<Segment>)
    requires o <= |f| && Walk(f, o, hasInit).Ok?
    ensures Layout(f, o, segs, Walk(f, o, hasInit).value.0)
    decreases |f| - o
  {
    hide Walk, WalkArchive, ArchiveAt, Layout, SkipZeros, MagicAt, ZerosAt;
    var p := SkipZeros(f, o, PadEnd(f, o));
    var off := Walk(f, o, hasInit).value.0;
    ZerosSkipped(f, o);
    WalkUnfolds(f, o, hasInit);
    if !MagicAt(f, p) {
      LayoutNil(f, o, p);
      segs := [];
    } else {
      var es := WalkedArchive(f, p, hasInit);
      var r := WalkArchive(f, p, hasInit).value;
      var rest := WalkedLayout(f, r.0, r.1);
      var s := Segment(p - o, es, r.0);
      LayoutCons(f, o, s, rest, off);
      segs := [s] + rest;
    }
  }

  /** Soundness and completeness: the walker returns `off` and `hasInit` exactly when the
      bytes before `off` are zero runs and complete archives, and `hasInit` tells whether
      one of their entries is an init. */
  lemma WalkIffLayout(f: Bytes, off: nat, hasInit: bool)
    ensures Walk(f, 0, false) == Ok((off, hasInit)) <==>
      exists segs :: Layout(f, 0, segs, off) && hasInit == HoldsInit(segs)
  {
    if Walk(f, 0, false) == Ok((off, hasInit)) {
      var segs := WalkedLayout(f, 0, false);
      LayoutWalks(f, 0, segs, off, false);
    }
    forall segs | Layout(f, 0, segs, off) && hasInit == HoldsInit(segs)
      ensures Walk(f, 0, false) == Ok((off, hasInit))
    {
      LayoutWalks(f, 0, segs, off, false);
    }
  }
}
