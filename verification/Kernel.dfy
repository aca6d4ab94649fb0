/**
  The check of a kernel image from its first bytes and its size
  (`check_kernel` in bootguard/src/preflight.rs; the section table is that of the
  Microsoft PE Format). `Covered` says which images are whole.
*/
module Kernel {
  import opened Options
  import opened Cpio

  const SECTION_HEADER := 40

  function U16(b: Bytes, o: nat): Option<nat> {
    if o + 2 > |b| then None
    else
      var b0: nat, b1: nat := b[o], b[o + 1];
      Some(b0 + 256 * b1)
  }

  function U32(b: Bytes, o: nat): Option<nat> {
    if o + 4 > |b| then None
    else
      var b0: nat, b1: nat, b2: nat, b3: nat := b[o], b[o + 1], b[o + 2], b[o + 3];
      Some(b0 + 256 * b1 + 0x1_0000 * b2 + 0x100_0000 * b3)
  }

  /** The `k` bytes of a number, the lowest first. */
  function LittleEndian(v: nat, k: nat): (b: Bytes)
    ensures |b| == k
  {
    if k == 0 then [] else [v % 256] + LittleEndian(v / 256, k - 1)
  }

  lemma ByteAt(v: nat, k: nat, i: nat)
    requires i < k <= 4
    ensures LittleEndian(v, k)[i] ==
      if i == 0 then v % 256 else if i == 1 then v / 256 % 256
      else if i == 2 then v / 256 / 256 % 256 else v / 256 / 256 / 256 % 256
  {
    if i > 0 {
      ByteAt(v / 256, k - 1, i - 1);
    }
  }

  lemma {:induction false} ReadsU16(b: Bytes, o: nat, v: nat)
    requires v < 0x1_0000 && At(b, o, LittleEndian(v, 2))
    ensures U16(b, o) == Some(v)
  {
    ByteAt(v, 2, 0);
    ByteAt(v, 2, 1);
    assert b[o] == b[o..o + 2][0] && b[o + 1] == b[o..o + 2][1];
  }

  lemma {:induction false} ReadsU32(b: Bytes, o: nat, v: nat)
    requires v < WORD && At(b, o, LittleEndian(v, 4))
    ensures U32(b, o) == Some(v)
  {
    ByteAt(v, 4, 0);
    ByteAt(v, 4, 1);
    ByteAt(v, 4, 2);
    ByteAt(v, 4, 3);
    var w := b[o..o + 4];
    assert b[o] == w[0] && b[o + 1] == w[1] && b[o + 2] == w[2] && b[o + 3] == w[3];
  }

  predicate Has(b: Bytes, o: nat, text: string) {
    o + |text| <= |b| && b[o..o + |text|] == Ascii(text)
  }

  function Or(n: Option<nat>, default: nat): nat {
    if n.Some? then n.value else default
  }

  // ---- what a whole image is -----------------------------------------------

  /** The bytes a bzImage says it has: its setup sectors (none means four), the boot
      sector, and the code in units of 16. */
  function BzNeed(head: Bytes): (need: Option<nat>)
    ensures need.Some? <==> |head| >= 0x1f8
  {
    if |head| < 0x1f8 then None
    else
      var sects: nat := if head[0x1f1] == 0 then 4 else head[0x1f1];
      Some((sects + 1) * 512 + U32(head, 0x1f4).value * 16)
  }

  predicate IsBz(head: Bytes) {
    Has(head, 0x202, "HdrS")
  }

  predicate IsZboot(head: Bytes) {
    Has(head, 4, "zimg")
  }

  function ZbootNeed(head: Bytes): nat {
    Or(U32(head, 8), 0) + Or(U32(head, 12), 0)
  }

  /** Offset of the PE signature. */
  function Pe(head: Bytes): nat {
    Or(U32(head, 0x3c), 0)
  }

  function SectionCount(head: Bytes): nat {
    Or(U16(head, Pe(head) + 6), 0)
  }

  function SectionTable(head: Bytes): nat {
    Pe(head) + 24 + Or(U16(head, Pe(head) + 20), 0)
  }

  predicate IsPe32Plus(head: Bytes) {
    && U32(head, 0x3c).Some?
    && Has(head, Pe(head), "PE\0\0")
    && SectionCount(head) != 0
    && U16(head, Pe(head) + 24) == Some(0x20b)
  }

  /** Where section `i` lies in the file: (pointer, raw size), if its header was read. */
  function Section(head: Bytes, i: nat): Option<(nat, nat)> {
    var o := SectionTable(head) + i * SECTION_HEADER;
    var raw, ptr := U32(head, o + 16), U32(head, o + 20);
    if raw.None? || ptr.None? then None else Some((ptr.value, raw.value))
  }

  /** Section `i` was read and lies within the first `size` bytes. */
  predicate SectionWithin(head: Bytes, i: nat, size: nat) {
    var s := Section(head, i);
    s.Some? && s.value.0 + s.value.1 <= size
  }

  predicate SectionsWithin(head: Bytes, n: nat, size: nat) {
    forall i :: 0 <= i < n ==> SectionWithin(head, i, size)
  }

  predicate BzWithin(head: Bytes, size: nat) {
    BzNeed(head).Some? && BzNeed(head).value <= size
  }

  /** The image has the form of a kernel, and all it says it consists of lies within
      `size` bytes. */
  predicate Covered(head: Bytes, size: nat) {
    if Has(head, 0, "MZ") then
      && IsPe32Plus(head)
      && SectionsWithin(head, SectionCount(head), size)
      && (IsZboot(head) ==> ZbootNeed(head) <= size)
      && (IsBz(head) ==> BzWithin(head, size))
    else if IsBz(head) then BzWithin(head, size)
    else Has(head, 56, "ARMd") && size >= 64
  }

  // ---- the check -----------------------------------------------------------

  method CheckBzImage(head: Bytes, size: nat) returns (r: Result<()>)
    ensures r.Ok? <==> BzWithin(head, size)
  {
    if 0x1f1 >= |head| {
      return Err("truncated bzImage header");
    }
    var sects: nat := if head[0x1f1] == 0 then 4 else head[0x1f1];
    var sys := U32(head, 0x1f4);
    if sys.None? {
      return Err("truncated bzImage header");
    }
    var need := (sects + 1) * 512 + sys.value * 16;
    if size < need {
      return Err("truncated bzImage");
    }
    return Ok(());
  }

  method CheckArm64Image(size: nat) returns (r: Result<()>)
    ensures r.Ok? <==> size >= 64
  {
    if size < 64 {
      return Err("truncated arm64 Image");
    }
    return Ok(());
  }

  function Max(a: nat, b: nat): nat {
    if a < b then b else a
  }

  /** The largest end of the first `n` sections. */
  function LastEnd(head: Bytes, n: nat): nat {
    if n == 0 then 0
    else
      var s, rest := Section(head, n - 1), LastEnd(head, n - 1);
      if s.Some? then Max(rest, s.value.0 + s.value.1) else rest
  }

  lemma {:induction false} WithinLastEnd(head: Bytes, n: nat, size: nat)
    requires forall i :: 0 <= i < n ==> Section(head, i).Some?
    ensures SectionsWithin(head, n, size) <==> LastEnd(head, n) <= size
  {
    if n > 0 {
      WithinLastEnd(head, n - 1, size);
      assert SectionsWithin(head, n, size) <==> SectionsWithin(head, n - 1, size) && SectionWithin(head, n - 1, size);
    }
  }

  /** The end of the last section; None if a section header was not read. */
  method SectionsEnd(head: Bytes, table: nat, n: nat) returns (end: Option<nat>)
    requires table == SectionTable(head)
    ensures end.None? <==> exists i :: 0 <= i < n && Section(head, i).None?
    ensures end.Some? ==> end.value == LastEnd(head, n)
  {
    var last := 0;
    for i := 0 to n
      invariant forall j :: 0 <= j < i ==> Section(head, j).Some?
      invariant last == LastEnd(head, i)
    {
      var o := table + i * SECTION_HEADER;
      var raw, ptr := U32(head, o + 16), U32(head, o + 20);
      assert Section(head, i) == if raw.None? || ptr.None? then None else Some((ptr.value, raw.value));
      if raw.None? || ptr.None? {
        return None;
      }
      last := Max(last, ptr.value + raw.value);
    }
    return Some(last);
  }

  method CheckKernel(head: Bytes, size: nat) returns (r: Result<()>)
    ensures r.Ok? <==> Covered(head, size)
  {
    var bz := Has(head, 0x202, "HdrS");
    if !Has(head, 0, "MZ") {
      if bz {
        r := CheckBzImage(head, size);
      } else if Has(head, 56, "ARMd") {
        r := CheckArm64Image(size);
      } else {
        r := Err("not a recognizable kernel image (bad magic)");
      }
      return;
    }
    var pe := U32(head, 0x3c);
    if pe.None? {
      return Err("truncated DOS header");
    }
    if !Has(head, pe.value, "PE\0\0") {
      return Err("MZ header without a valid PE signature");
    }
    var count := U16(head, pe.value + 6);
    if count.None? {
      return Err("truncated COFF header");
    }
    if count.value == 0 {
      return Err("PE image has no sections");
    }
    if U16(head, pe.value + 24) != Some(0x20b) {
      return Err("PE image is not PE32+ (bad optional header magic)");
    }
    var optional := U16(head, pe.value + 20);
    if optional.None? {
      return Err("truncated COFF header");
    }
    var end := SectionsEnd(head, pe.value + 24 + optional.value, count.value);
    assert IsPe32Plus(head) && count.value == SectionCount(head);
    if end.None? {
      ghost var i :| 0 <= i < count.value && Section(head, i).None?;
      assert !SectionWithin(head, i, size);
      return Err("PE section table beyond header");
    }
    WithinLastEnd(head, count.value, size);
    if size < end.value {
      return Err("truncated: PE sections extend beyond the file");
    }
    if Has(head, 4, "zimg") {
      var need := Or(U32(head, 8), 0) + Or(U32(head, 12), 0);
      if size < need {
        return Err("truncated: zboot payload");
      }
    }
    if bz {
      r := CheckBzImage(head, size);
    } else {
      r := Ok(());
    }
  }

  // ---- what acceptance means -----------------------------------------------

  /** Every section of an accepted PE image was read, table and all, and not one byte of
      it lies behind the end of the file. */
  lemma NoSectionIsCutOff(head: Bytes, size: nat, i: nat)
    requires Covered(head, size) && Has(head, 0, "MZ") && i < SectionCount(head)
    ensures SectionTable(head) + i * SECTION_HEADER + 24 <= |head|
    ensures Section(head, i).Some? && Section(head, i).value.0 + Section(head, i).value.1 <= size
  {
    assert SectionWithin(head, i, size);
  }

  /** A larger file with the same header is never refused where a smaller one is not. */
  lemma MonotoneInSize(head: Bytes, size: nat, larger: nat)
    requires Covered(head, size) && size <= larger
    ensures Covered(head, larger)
  {
    if Has(head, 0, "MZ") {
      forall i | 0 <= i < SectionCount(head) ensures SectionWithin(head, i, larger) {
        assert SectionWithin(head, i, size);
      }
    }
  }

  /** The bytes the header asks for. */
  function Need(head: Bytes): nat {
    var bz := if IsBz(head) then Or(BzNeed(head), 0) else 0;
    if Has(head, 0, "MZ") then Max(LastEnd(head, SectionCount(head)), Max(if IsZboot(head) then ZbootNeed(head) else 0, bz))
    else if IsBz(head) then bz
    else 64
  }

  /** A header is refused at every size, or accepted exactly from one size on: that which
      its sections, its payload and its setup ask for. */
  lemma AcceptedFromNeed(head: Bytes, size: nat)
    ensures Covered(head, size) <==> Covered(head, Need(head)) && size >= Need(head)
  {
    if Covered(head, size) || Covered(head, Need(head)) {
      if Has(head, 0, "MZ") {
        var n, w := SectionCount(head), if Covered(head, size) then size else Need(head);
        forall i | 0 <= i < n ensures Section(head, i).Some? {
          assert SectionWithin(head, i, w);
        }
        WithinLastEnd(head, n, size);
        WithinLastEnd(head, n, Need(head));
      }
    }
  }

  // ---- images of the format ------------------------------------------------

  /** Where the magic bytes stand. */
  lemma MagicsStand(head: Bytes)
    ensures Has(head, 0, "MZ") <==> At(head, 0, [0x4d, 0x5a])
    ensures IsBz(head) <==> At(head, 514, [0x48, 0x64, 0x72, 0x53])
    ensures IsZboot(head) <==> At(head, 4, [0x7a, 0x69, 0x6d, 0x67])
  {
  }

  /** Without either header only the magic of a raw arm64 image is accepted, and its 64 bytes. */
  lemma Arm64AcceptedIff(head: Bytes, size: nat)
    requires !At(head, 0, [0x4d, 0x5a]) && !At(head, 514, [0x48, 0x64, 0x72, 0x53])
    ensures Covered(head, size) <==> At(head, 56, [0x41, 0x52, 0x4d, 0x64]) && size >= 64
  {
    MagicsStand(head);
    assert Ascii("ARMd") == [0x41, 0x52, 0x4d, 0x64];
  }

  datatype Region = Region(start: nat, size: nat)

  /** A PE32+ header with these sections, as the format lays it out: DOS header, signature,
      COFF header of 20 bytes, optional header of `optional` bytes, section table. */
  predicate PeHeader(head: Bytes, pe: nat, optional: nat, sections: seq<Region>) {
    && Has(head, 0, "MZ") && At(head, 60, LittleEndian(pe, 4)) && Has(head, pe, "PE\0\0")
    && At(head, pe + 4 + 2, LittleEndian(|sections|, 2))
    && At(head, pe + 4 + 16, LittleEndian(optional, 2))
    && At(head, pe + 4 + 20, LittleEndian(0x20b, 2))
    && forall i :: 0 <= i < |sections| ==> SectionHeader(head, pe + 4 + 20 + optional + 40 * i, sections[i])
  }

  /** Eight bytes of name, two words of memory layout, then raw size and pointer. */
  predicate SectionHeader(head: Bytes, o: nat, region: Region) {
    At(head, o + 8 + 8, LittleEndian(region.size, 4) + LittleEndian(region.start, 4))
  }

  lemma ReadsSection(head: Bytes, i: nat, region: Region)
    requires SectionHeader(head, SectionTable(head) + 40 * i, region)
    requires region.start < WORD && region.size < WORD
    ensures Section(head, i) == Some((region.start, region.size))
  {
    var o := SectionTable(head) + 40 * i;
    AtSplit(head, o + 16, LittleEndian(region.size, 4), LittleEndian(region.start, 4));
    ReadsU32(head, o + 16, region.size);
    ReadsU32(head, o + 20, region.start);
  }

  /** What a bzImage says of itself: `setup` sectors of real-mode code (0 stands for 4) behind
      the boot sector, and `system` units of 16 bytes of kernel behind them. */
  datatype Setup = Setup(setup: Byte, system: nat)

  predicate SetupHeader(head: Bytes, s: Setup) {
    At(head, 497, [s.setup]) && At(head, 500, LittleEndian(s.system, 4))
  }

  const BOOT_SECTOR: nat := 512

  /** Where the kernel of a bzImage ends. */
  function SetupEnd(s: Setup): nat {
    var sectors: nat := if s.setup == 0 then 4 else s.setup;
    BOOT_SECTOR + 512 * sectors + 16 * s.system
  }

  /** The setup of a bzImage lies within the file if and only if its kernel ends in it. */
  lemma {:induction false} BzWithinIff(head: Bytes, s: Setup, size: nat)
    requires SetupHeader(head, s) && s.system < WORD
    ensures BzWithin(head, size) <==> SetupEnd(s) <= size
  {
    ReadsU32(head, 500, s.system);
    assert head[497] == head[497..498][0];
  }

  /** A bzImage without a PE header is accepted if and only if its kernel is not cut off. */
  lemma {:induction false} BzAcceptedIff(head: Bytes, s: Setup, size: nat)
    requires IsBz(head) && !Has(head, 0, "MZ") && SetupHeader(head, s) && s.system < WORD
    ensures Covered(head, size) <==> SetupEnd(s) <= size
  {
    BzWithinIff(head, s, size);
  }

  /** The header of an EFI zboot image says where its compressed payload lies. */
  predicate ZbootHeader(head: Bytes, payload: Region) {
    At(head, 8, LittleEndian(payload.start, 4)) && At(head, 12, LittleEndian(payload.size, 4))
  }

  predicate InWord(r: Region) {
    r.start < WORD && r.size < WORD
  }

  predicate EndsWithin(r: Region, size: nat) {
    r.start + r.size <= size
  }

  lemma {:induction false} SectionsEndWithin(head: Bytes, pe: nat, optional: nat, sections: seq<Region>, size: nat)
    requires PeHeader(head, pe, optional, sections)
    requires pe < WORD && optional < 0x1_0000 && 0 < |sections| < 0x1_0000
    requires forall r :: r in sections ==> InWord(r)
    ensures IsPe32Plus(head)
    ensures SectionsWithin(head, SectionCount(head), size) <==> forall r :: r in sections ==> EndsWithin(r, size)
  {
    ReadsU32(head, 60, pe);
    ReadsU16(head, pe + 6, |sections|);
    ReadsU16(head, pe + 20, optional);
    ReadsU16(head, pe + 24, 0x20b);
    assert IsPe32Plus(head) && SectionCount(head) == |sections|;
    hide IsPe32Plus, Has, SectionCount, At;
    forall i | 0 <= i < |sections|
      ensures SectionWithin(head, i, size) <==> EndsWithin(sections[i], size)
    {
      assert sections[i] in sections;
      ReadsSection(head, i, sections[i]);
    }
  }

  /** A PE image is accepted if and only if nothing it consists of is cut off: its sections,
      its payload if it is a zboot image, and its kernel if it is a bzImage, as the EFI stub
      kernels of x86 are. */
  lemma {:induction false} PeAcceptedIff(head: Bytes, pe: nat, optional: nat, sections: seq<Region>,
                                         payload: Option<Region>, setup: Option<Setup>, size: nat)
    requires PeHeader(head, pe, optional, sections)
    requires pe < WORD && optional < 0x1_0000 && 0 < |sections| < 0x1_0000
    requires forall r :: r in sections ==> InWord(r)
    requires IsZboot(head) == payload.Some? && (payload.Some? ==> ZbootHeader(head, payload.value) && InWord(payload.value))
    requires IsBz(head) == setup.Some? && (setup.Some? ==> SetupHeader(head, setup.value) && setup.value.system < WORD)
    ensures Covered(head, size) <==>
      && (forall r :: r in sections ==> EndsWithin(r, size))
      && (payload.Some? ==> EndsWithin(payload.value, size))
      && (setup.Some? ==> SetupEnd(setup.value) <= size)
  {
    SectionsEndWithin(head, pe, optional, sections, size);
    if payload.Some? {
      ReadsU32(head, 8, payload.value.start);
      ReadsU32(head, 12, payload.value.size);
    }
    if setup.Some? { BzWithinIff(head, setup.value, size); }
    hide IsPe32Plus, SectionsWithin, BzWithin, At, IsBz, PeHeader;
  }
}
