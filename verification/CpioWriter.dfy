/**
  A writer of cpio archives at 4-byte alignment, and the round trip: what it writes, the
  walker of `Cpio` walks back, up to exactly the payload.
*/
module CpioWriter {
  import opened Options
  import opened Cpio

  /** `inode`, `owner` and `device` are header fields the walker does not look at; `caps` says
      in which places of a field a hexadecimal letter is a capital. */
  datatype Item = Item(
    mode: nat, name: Bytes, body: Bytes, crc: bool, inode: Bytes, owner: Bytes, device: Bytes, caps: seq<bool>)

  predicate Fits(it: Item) {
    it.mode < WORD && |it.body| < WORD && |it.name| < 4096 &&
    |it.inode| == 8 && |it.owner| == 32 && |it.device| == 32 && |it.caps| == 8
  }

  function Zeros(n: nat): (z: Bytes)
    ensures |z| == n && forall i :: 0 <= i < n ==> z[i] == 0
  {
    seq(n, _ => 0)
  }

  // ---- header fields -------------------------------------------------------

  function Pow16(k: nat): nat {
    if k == 0 then 1 else 16 * Pow16(k - 1)
  }

  function Digit(v: nat, cap: bool): (b: Byte)
    requires v < 16
    ensures b != '+' as int
  {
    if v < 10 then '0' as int + v else (if cap then 'A' else 'a') as int + (v - 10)
  }

  /** A byte is read as a digit exactly if it is that digit, large or small. */
  lemma DigitIffRead(b: Byte, v: nat)
    ensures HexDigit(b) == Some(v) <==> v < 16 && (b == Digit(v, false) || b == Digit(v, true))
  {
  }

  function HexDigits(v: nat, caps: seq<bool>): (ds: Bytes)
    ensures |ds| == |caps| && forall i :: 0 <= i < |ds| ==> ds[i] != '+' as int
    decreases |caps|
  {
    var k := |caps|;
    if k == 0 then [] else HexDigits(v / 16, caps[..k - 1]) + [Digit(v % 16, caps[k - 1])]
  }

  lemma {:induction false} HexRoundTrip(v: nat, caps: seq<bool>)
    requires v < Pow16(|caps|)
    ensures HexValue(HexDigits(v, caps)) == Some(v)
    decreases |caps|
  {
    var k := |caps|;
    if k > 0 {
      HexRoundTrip(v / 16, caps[..k - 1]);
      DigitIffRead(Digit(v % 16, caps[k - 1]), v % 16);
      assert HexDigits(v, caps)[..k - 1] == HexDigits(v / 16, caps[..k - 1]);
    }
  }

  /** Nothing else is read: digits that have a value are the digits of that value. */
  lemma {:induction false} HexIsWritten(ds: Bytes, v: nat) returns (caps: seq<bool>)
    requires HexValue(ds) == Some(v)
    ensures v < Pow16(|ds|) && |caps| == |ds| && ds == HexDigits(v, caps)
    decreases |ds|
  {
    caps := [];
    if ds != [] {
      var k := |ds| - 1;
      var low := HexDigit(ds[k]).value;
      DigitIffRead(ds[k], low);
      assert v / 16 == HexValue(ds[..k]).value && v % 16 == low;
      var high := HexIsWritten(ds[..k], v / 16);
      caps := high + [ds[k] == Digit(low, true)];
      assert caps[..k] == high && ds == ds[..k] + [ds[k]];
    }
  }

  /** `w` is `v`, written in hexadecimal digits of either case. */
  ghost predicate Spells(w: Bytes, v: nat) {
    v < Pow16(|w|) && exists caps :: |caps| == |w| && w == HexDigits(v, caps)
  }

  lemma SpelledIffRead(w: Bytes, v: nat)
    ensures HexValue(w) == Some(v) <==> Spells(w, v)
  {
    if HexValue(w) == Some(v) {
      var caps := HexIsWritten(w, v);
    }
    if Spells(w, v) {
      var caps :| |caps| == |w| && w == HexDigits(v, caps);
      HexRoundTrip(v, caps);
    }
  }

  lemma PlusIsNoDigit(w: Bytes, v: nat)
    requires w != [] && w[0] == '+' as int
    ensures !Spells(w, v)
  {
  }

  /** A field is read exactly if it holds eight digits, or a plus sign and seven. */
  lemma FieldIffWritten(f: Bytes, o: nat, v: nat)
    requires o + 8 <= |f|
    ensures Field(f, o) == Some(v) <==>
      Spells(f[o..o + 8], v) || (f[o] == '+' as int && Spells(f[o + 1..o + 8], v))
  {
    hide HexValue, Spells;
    SpelledIffRead(f[o..o + 8], v);
    SpelledIffRead(f[o + 1..o + 8], v);
    if f[o] == '+' as int {
      assert f[o..o + 8][0] == f[o];
      PlusIsNoDigit(f[o..o + 8], v);
    }
  }

  function Hex8(v: nat, caps: seq<bool>): (ds: Bytes)
    requires |caps| == 8
    ensures |ds| == 8
  {
    HexDigits(v, caps)
  }

  lemma FieldAt(f: Bytes, o: nat, v: nat, caps: seq<bool>)
    requires |caps| == 8 && v < WORD && At(f, o, Hex8(v, caps))
    ensures Field(f, o) == Some(v)
  {
    assert Pow16(4) == 0x1_0000 && Pow16(8) == 0x1_0000 * Pow16(4) == WORD;
    FieldIffWritten(f, o, v);
    assert Spells(f[o..o + 8], v);
  }

  // ---- names and modes of an init ------------------------------------------

  function Repeat(w: Bytes, n: nat): Bytes {
    if n == 0 then [] else w + Repeat(w, n - 1)
  }

  /** `path` behind any number of "./" and then of slashes. */
  function Prefixed(dots: nat, slashes: nat, path: Bytes): Bytes {
    Repeat(['.' as int, '/' as int], dots) + (Repeat(['/' as int], slashes) + path)
  }

  lemma {:induction false} TrimsSlashes(slashes: nat, path: Bytes)
    requires path != [] && path[0] != '/' as int
    ensures TrimSlash(Repeat(['/' as int], slashes) + path) == path
  {
    if slashes == 0 {
      assert [] + path == path;
    } else {
      TrimsSlashes(slashes - 1, path);
      var n := Repeat(['/' as int], slashes) + path;
      assert n[0] == 47 && n[1..] == Repeat(['/' as int], slashes - 1) + path;
    }
  }

  lemma {:induction false} TrimsDots(dots: nat, rest: Bytes)
    requires rest != [] && rest[0] != '.' as int
    ensures TrimDotSlash(Repeat(['.' as int, '/' as int], dots) + rest) == rest
  {
    if dots == 0 {
      assert [] + rest == rest;
    } else {
      TrimsDots(dots - 1, rest);
      var n := Repeat(['.' as int, '/' as int], dots) + rest;
      assert n[0] == 46 && n[1] == 47 && n[2..] == Repeat(['.' as int, '/' as int], dots - 1) + rest;
    }
  }

  lemma {:induction false} SlashesTrimmed(n: Bytes) returns (slashes: nat)
    ensures n == Repeat(['/' as int], slashes) + TrimSlash(n)
  {
    slashes := 0;
    if |n| >= 1 && n[0] == 47 {
      var more := SlashesTrimmed(n[1..]);
      slashes := more + 1;
      assert n == ['/' as int] + n[1..];
    }
  }

  lemma {:induction false} DotsTrimmed(n: Bytes) returns (dots: nat)
    ensures n == Repeat(['.' as int, '/' as int], dots) + TrimDotSlash(n)
  {
    dots := 0;
    if |n| >= 2 && n[0] == 46 && n[1] == 47 {
      var more := DotsTrimmed(n[2..]);
      dots := more + 1;
      assert n == ['.' as int, '/' as int] + n[2..];
    }
  }

  lemma InitPathsStart()
    ensures forall path :: IsInitPath(path) ==> path != [] && path[0] != '.' as int && path[0] != '/' as int
  {
  }

  predicate IsNamed(name: Bytes, dots: nat, slashes: nat, path: string) {
    && path in ["init", "sbin/init", "usr/sbin/init", "usr/lib/systemd/systemd", "lib/systemd/systemd"]
    && name == Prefixed(dots, slashes, Ascii(path))
  }

  lemma PathIsNamed(n: Bytes) returns (path: string)
    requires IsInitPath(n)
    ensures n == Ascii(path)
    ensures path in ["init", "sbin/init", "usr/sbin/init", "usr/lib/systemd/systemd", "lib/systemd/systemd"]
  {
    path :=
      if n == Ascii("init") then "init" else if n == Ascii("sbin/init") then "sbin/init"
      else if n == Ascii("usr/sbin/init") then "usr/sbin/init"
      else if n == Ascii("usr/lib/systemd/systemd") then "usr/lib/systemd/systemd" else "lib/systemd/systemd";
  }

  lemma NamedIsPath(dots: nat, slashes: nat, path: string)
    requires path in ["init", "sbin/init", "usr/sbin/init", "usr/lib/systemd/systemd", "lib/systemd/systemd"]
    ensures IsInitPath(TrimSlash(TrimDotSlash(Prefixed(dots, slashes, Ascii(path)))))
  {
    var p := Ascii(path);
    assert IsInitPath(p);
    hide IsInitPath, Ascii;
    InitPathsStart();
    TrimsSlashes(slashes, p);
    var rest := Repeat(['/' as int], slashes) + p;
    SlashesStart(slashes, p);
    TrimsDots(dots, rest);
  }

  lemma SlashesStart(slashes: nat, path: Bytes)
    requires path != [] && path[0] != '.' as int
    ensures var n := Repeat(['/' as int], slashes) + path; n != [] && n[0] != '.' as int
  {
  }

  /** An entry is an init if its name is one of five paths, "./" and slashes in front. */
  lemma InitNameIff(name: Bytes)
    ensures IsInitPath(TrimSlash(TrimDotSlash(name))) <==>
      exists dots: nat, slashes: nat, path: string :: IsNamed(name, dots, slashes, path)
  {
    if IsInitPath(TrimSlash(TrimDotSlash(name))) {
      var dots := DotsTrimmed(name);
      var slashes := SlashesTrimmed(TrimDotSlash(name));
      var path := PathIsNamed(TrimSlash(TrimDotSlash(name)));
      assert IsNamed(name, dots, slashes, path);
    }
    if dots: nat, slashes: nat, path: string :| IsNamed(name, dots, slashes, path) {
      NamedIsPath(dots, slashes, path);
    }
  }

  /** The octal digits of a mode. */
  function ModeOf(high: nat, kind: nat, special: nat, user: nat, group: nat, other: nat): nat {
    high * 0x1_0000 + kind * 0x1000 + special * 0x200 + user * 64 + group * 8 + other
  }

  lemma ModeDigits(high: nat, kind: nat, special: nat, user: nat, group: nat, other: nat)
    requires kind < 16 && special < 8 && user < 8 && group < 8 && other < 8
    ensures var mode := ModeOf(high, kind, special, user, group, other);
      && mode / 0x1000 % 16 == kind && mode % 8 == other
      && mode / 8 % 8 == group && mode / 64 % 8 == user
  {
    var mode := ModeOf(high, kind, special, user, group, other);
    var groups := high * 0x2000 + kind * 0x200 + special * 64 + user * 8 + group;
    var users := high * 1024 + kind * 64 + special * 8 + user;
    assert mode == 8 * groups + other && mode / 8 == groups;
    assert groups == 8 * users + group && mode / 64 == users;
    assert users == 8 * (high * 128 + kind * 8 + special) + user;
    assert mode / 0x1000 == high * 16 + kind;
  }

  /** ... and it is a symbolic link, or a regular file that someone may execute. */
  lemma InitModeIff(high: nat, kind: nat, special: nat, user: nat, group: nat, other: nat)
    requires kind < 16 && special < 8 && user < 8 && group < 8 && other < 8
    ensures IsInitMode(ModeOf(high, kind, special, user, group, other)) <==>
      kind == 10 || (kind == 8 && (user % 2 == 1 || group % 2 == 1 || other % 2 == 1))
  {
    hide *;
    var mode := ModeOf(high, kind, special, user, group, other);
    ModeDigits(high, kind, special, user, group, other);
    OctalOdd(mode);
    OctalOdd(mode / 8);
    OctalOdd(mode / 64);
    ModeDecides(mode);
  }

  lemma OctalOdd(x: nat)
    ensures x % 8 % 2 == x % 2
  {
  }

  lemma ModeDecides(mode: nat)
    ensures IsInitMode(mode) <==>
      mode / 0x1000 % 16 == 10 ||
      (mode / 0x1000 % 16 == 8 && (mode / 64 % 2 == 1 || mode / 8 % 2 == 1 || mode % 2 == 1))
  {
  }

  // ---- entries -------------------------------------------------------------

  function Magic(it: Item): (m: Bytes)
    ensures |m| == 6
  {
    Ascii(if it.crc then "070702" else "070701")
  }

  function Checksum(it: Item): (c: nat)
    ensures c < WORD
  {
    if it.crc then Sum(it.body) % WORD else 0
  }

  function PadTo4(n: nat): (z: Bytes)
    ensures n + |z| == A4(n)
  {
    Zeros(A4(n) - n)
  }

  function WriteBody(it: Item): (w: Bytes)
    ensures |w| == A4(|it.body|)
  {
    it.body + PadTo4(|it.body|)
  }

  function WriteName(it: Item): (w: Bytes)
    ensures |w| == A4(HEADER + |it.name| + 1) - HEADER
  {
    it.name + ([0] + PadTo4(HEADER + |it.name| + 1))
  }

  function Header(it: Item): (w: Bytes)
    requires Fits(it)
    ensures |w| == HEADER
  {
    Magic(it) + (it.inode + (Hex8(it.mode, it.caps) + (it.owner + (Hex8(|it.body|, it.caps) +
      (it.device + (Hex8(|it.name| + 1, it.caps) + Hex8(Checksum(it), it.caps)))))))
  }

  function WriteEntry(it: Item): (w: Bytes)
    requires Fits(it)
    ensures |w| == A4(HEADER + |it.name| + 1) + A4(|it.body|)
  {
    Header(it) + (WriteName(it) + WriteBody(it))
  }

  /** The entry the walker sees when `it` is written at `o`. */
  function Placed(it: Item, o: nat): Entry
    requires Fits(it)
  {
    Entry(it.mode, it.name, it.crc, |it.body|, o + A4(HEADER + |it.name| + 1), o + |WriteEntry(it)|)
  }

  lemma AlignedSum(a: int, b: int)
    requires a % 4 == 0 && b % 4 == 0
    ensures (a + b) % 4 == 0
  {
  }

  lemma WrittenIsAligned(it: Item)
    requires Fits(it)
    ensures |WriteEntry(it)| % 4 == 0
  {
    AlignedSum(A4(HEADER + |it.name| + 1), A4(|it.body|));
  }

  lemma AlignedA4(o: nat, x: nat)
    requires o % 4 == 0
    ensures A4(o + x) == o + A4(x)
  {
  }

  lemma HeaderAt(f: Bytes, o: nat, it: Item)
    requires Fits(it) && At(f, o, Header(it))
    ensures At(f, o, Magic(it)) && Field(f, o + 14) == Some(it.mode) && Field(f, o + 54) == Some(|it.body|)
    ensures Field(f, o + 94) == Some(|it.name| + 1) && Field(f, o + 102) == Some(Checksum(it))
  {
    var h7 := Hex8(|it.name| + 1, it.caps) + Hex8(Checksum(it), it.caps);
    var h6 := it.device + h7;
    var h5 := Hex8(|it.body|, it.caps) + h6;
    var h4 := it.owner + h5;
    var h3 := Hex8(it.mode, it.caps) + h4;
    var h2 := it.inode + h3;
    AtSplit(f, o, Magic(it), h2);
    AtSplit(f, o + 6, it.inode, h3);
    AtSplit(f, o + 14, Hex8(it.mode, it.caps), h4);
    AtSplit(f, o + 22, it.owner, h5);
    AtSplit(f, o + 54, Hex8(|it.body|, it.caps), h6);
    AtSplit(f, o + 62, it.device, h7);
    AtSplit(f, o + 94, Hex8(|it.name| + 1, it.caps), Hex8(Checksum(it), it.caps));
    FieldAt(f, o + 14, it.mode, it.caps);
    FieldAt(f, o + 54, |it.body|, it.caps);
    FieldAt(f, o + 94, |it.name| + 1, it.caps);
    FieldAt(f, o + 102, Checksum(it), it.caps);
  }

  lemma NameAt(f: Bytes, o: nat, it: Item)
    requires At(f, o, WriteName(it))
    ensures At(f, o, it.name) && At(f, o + |it.name|, [0])
  {
    var pad := PadTo4(HEADER + |it.name| + 1);
    AtSplit(f, o, it.name, [0] + pad);
    AtSplit(f, o + |it.name|, [0], pad);
  }

  lemma BodyAt(f: Bytes, o: nat, it: Item)
    requires Fits(it) && At(f, o, WriteEntry(it))
    ensures At(f, o, Header(it)) && At(f, o + HEADER, it.name) && At(f, o + HEADER + |it.name|, [0])
    ensures At(f, o + A4(HEADER + |it.name| + 1), it.body)
  {
    AtSplit(f, o, Header(it), WriteName(it) + WriteBody(it));
    AtSplit(f, o + HEADER, WriteName(it), WriteBody(it));
    NameAt(f, o + HEADER, it);
    AtSplit(f, o + A4(HEADER + |it.name| + 1), it.body, PadTo4(|it.body|));
  }

  lemma PlacedAligned(o: nat, it: Item)
    requires Fits(it) && o % 4 == 0
    ensures var e := Placed(it, o);
      (e.data == A4(o + HEADER + |it.name| + 1) && e.end == A4(e.data + e.size))
  {
    hide A4;
    AlignedA4(o, HEADER + |it.name| + 1);
    AlignedSum(o, A4(HEADER + |it.name| + 1));
    AlignedA4(o + A4(HEADER + |it.name| + 1), |it.body|);
  }

  /** An item written at a multiple of 4 is an entry there. */
  lemma EntryWritten(f: Bytes, o: nat, it: Item)
    requires Fits(it) && o % 4 == 0 && At(f, o, WriteEntry(it))
    ensures EntryAt(f, o, Placed(it, o))
  {
    hide Field, Sum, HasChecksum, A4, EntryAt, Header, Hex8;
    PlacedAligned(o, it);
    BodyAt(f, o, it);
    HeaderAt(f, o, it);
    FieldsMakeEntry(f, o, it, Placed(it, o));
  }

  lemma FieldsMakeEntry(f: Bytes, o: nat, it: Item, e: Entry)
    requires Fits(it) && e.mode == it.mode && e.name == it.name && e.crc == it.crc && e.size == |it.body|
    requires e.data == A4(o + HEADER + |it.name| + 1) && e.end == A4(e.data + e.size) && e.end <= |f|
    requires At(f, o, Magic(it)) && At(f, o + HEADER, it.name) && At(f, o + HEADER + |it.name|, [0]) && At(f, e.data, it.body)
    requires Field(f, o + 14) == Some(it.mode) && Field(f, o + 54) == Some(|it.body|)
    requires Field(f, o + 94) == Some(|it.name| + 1) && Field(f, o + 102) == Some(Checksum(it))
    ensures EntryAt(f, o, e)
  {
    hide Field, HasChecksum, A4, Sum;
    var z := o + HEADER + |it.name|;
    assert f[z] == f[z..z + 1][0];
  }

  // ---- archives ------------------------------------------------------------

  predicate AllFit(items: seq<Item>) {
    forall i :: 0 <= i < |items| ==> Fits(items[i])
  }

  function WriteItems(items: seq<Item>): Bytes
    requires AllFit(items)
    decreases |items|
  {
    if items == [] then [] else WriteEntry(items[0]) + WriteItems(items[1..])
  }

  function PlacedAll(items: seq<Item>, o: nat): (es: seq<Entry>)
    requires AllFit(items)
    ensures |es| == |items|
    ensures forall i :: 0 <= i < |items| ==> es[i].name == items[i].name && es[i].mode == items[i].mode
    decreases |items|
  {
    if items == [] then []
    else [Placed(items[0], o)] + PlacedAll(items[1..], o + |WriteEntry(items[0])|)
  }

  /** Well-formed items, of which exactly the last is the trailer. */
  predicate IsArchive(items: seq<Item>) {
    && items != [] && AllFit(items)
    && (forall i :: 0 <= i < |items| ==> (items[i].name == Ascii("TRAILER!!!") <==> i == |items| - 1))
  }

  lemma {:induction false} ArchiveWritten(f: Bytes, o: nat, items: seq<Item>)
    requires IsArchive(items) && o % 4 == 0 && At(f, o, WriteItems(items))
    ensures ArchiveAt(f, o, PlacedAll(items, o), o + |WriteItems(items)|)
    ensures |WriteItems(items)| % 4 == 0
    decreases |items|
  {
    hide EntryAt, WriteEntry, Fits, A4, At;
    var it, rest := items[0], items[1..];
    var next := o + |WriteEntry(it)|;
    AtSplit(f, o, WriteEntry(it), WriteItems(rest));
    EntryWritten(f, o, it);
    WrittenIsAligned(it);
    AlignedSum(o, |WriteEntry(it)|);
    if rest != [] {
      assert IsArchive(rest);
      ArchiveWritten(f, next, rest);
      AlignedSum(|WriteEntry(it)|, |WriteItems(rest)|);
      assert PlacedAll(items, o)[1..] == PlacedAll(rest, next);
    }
  }

  // ---- the image -----------------------------------------------------------

  datatype Archive = Archive(zeros: nat, items: seq<Item>)

  predicate Padding(n: nat) {
    n % 4 == 0 && n <= 0x10_0000
  }

  predicate Writable(archives: seq<Archive>) {
    forall i :: 0 <= i < |archives| ==> Padding(archives[i].zeros) && IsArchive(archives[i].items)
  }

  function WriteArchive(a: Archive): (w: Bytes)
    requires AllFit(a.items)
    ensures |w| == a.zeros + |WriteItems(a.items)|
  {
    Zeros(a.zeros) + WriteItems(a.items)
  }

  function WriteAll(archives: seq<Archive>): Bytes
    requires Writable(archives)
    decreases |archives|
  {
    if archives == [] then [] else WriteArchive(archives[0]) + WriteAll(archives[1..])
  }

  /** Neither a zero nor a cpio magic, or nothing at all. */
  predicate IsPayload(p: Bytes) {
    p == [] || (p[0] != 0 && !MagicAt(p, 0))
  }

  function SegmentsOf(archives: seq<Archive>, o: nat): seq<Segment>
    requires Writable(archives)
    decreases |archives|
  {
    if archives == [] then []
    else
      var a := archives[0];
      var end := o + |WriteArchive(a)|;
      [Segment(a.zeros, PlacedAll(a.items, o + a.zeros), end)] + SegmentsOf(archives[1..], end)
  }

  predicate ItemsHoldInit(items: seq<Item>) {
    exists j :: 0 <= j < |items| - 1 && IsInit(items[j].name, items[j].mode)
  }

  /** Is any entry but the trailers an init? */
  predicate WritesInit(archives: seq<Archive>) {
    exists i :: 0 <= i < |archives| && ItemsHoldInit(archives[i].items)
  }

  lemma PlacedHoldInit(items: seq<Item>, o: nat)
    requires AllFit(items)
    ensures AnyInit(PlacedAll(items, o)) <==> ItemsHoldInit(items)
  {
    var es := PlacedAll(items, o);
    if AnyInit(es) {
      var j :| 0 <= j < |es| - 1 && IsInit(es[j].name, es[j].mode);
      assert IsInit(items[j].name, items[j].mode);
    }
    if ItemsHoldInit(items) {
      var j :| 0 <= j < |items| - 1 && IsInit(items[j].name, items[j].mode);
      assert IsInit(es[j].name, es[j].mode);
    }
  }

  lemma {:induction false} SegmentsHoldInit(archives: seq<Archive>, o: nat)
    requires Writable(archives)
    ensures HoldsInit(SegmentsOf(archives, o)) <==> WritesInit(archives)
    decreases |archives|
  {
    hide IsInit, AnyInit, ItemsHoldInit, WriteArchive, PlacedAll, Fits;
    if archives != [] {
      hide HoldsInit, WritesInit;
      var a, rest := archives[0], archives[1..];
      var end := o + |WriteArchive(a)|;
      HoldsInitCons(SegmentsOf(archives, o));
      assert SegmentsOf(archives, o)[1..] == SegmentsOf(rest, end);
      PlacedHoldInit(a.items, o + a.zeros);
      SegmentsHoldInit(rest, end);
      WritesInitCons(archives);
    }
  }

  lemma WritesInitCons(archives: seq<Archive>)
    requires archives != []
    ensures WritesInit(archives) <==> ItemsHoldInit(archives[0].items) || WritesInit(archives[1..])
  {
    var rest := archives[1..];
    if WritesInit(rest) {
      var i :| 0 <= i < |rest| && ItemsHoldInit(rest[i].items);
      assert archives[i + 1] == rest[i];
    }
    if WritesInit(archives) {
      var i :| 0 <= i < |archives| && ItemsHoldInit(archives[i].items);
      assert i == 0 || rest[i - 1] == archives[i];
    }
  }

  lemma ZerosStand(f: Bytes, o: nat, n: nat)
    requires n <= ZERO_RUN && At(f, o, Zeros(n))
    ensures ZerosAt(f, o, n)
  {
    forall i | o <= i < o + n ensures f[i] == 0 { assert f[i] == f[o..o + n][i - o]; }
  }

  lemma PayloadStops(f: Bytes, off: nat, payload: Bytes)
    requires IsPayload(payload) && off + |payload| == |f| && At(f, off, payload)
    ensures !MagicAt(f, off) && (off == |f| || f[off] != 0)
  {
    assert f[off..] == payload;
    assert off + 6 <= |f| ==> f[off..off + 6] == payload[0..6];
  }

  lemma ImageEnds(f: Bytes, o: nat, zeros: nat, payload: Bytes)
    requires Padding(zeros) && IsPayload(payload) && o + zeros + |payload| == |f|
    requires At(f, o, Zeros(zeros) + payload)
    ensures Layout(f, o, [], o + zeros)
  {
    AtSplit(f, o, Zeros(zeros), payload);
    ZerosStand(f, o, zeros);
    PayloadStops(f, o + zeros, payload);
    LayoutNil(f, o, o + zeros);
  }

  /** One archive with the zeros before it. */
  lemma ArchiveStands(f: Bytes, o: nat, a: Archive)
    requires Padding(a.zeros) && IsArchive(a.items) && o % 4 == 0 && At(f, o, WriteArchive(a))
    ensures ZerosAt(f, o, a.zeros)
    ensures ArchiveAt(f, o + a.zeros, PlacedAll(a.items, o + a.zeros), o + |WriteArchive(a)|)
    ensures (o + |WriteArchive(a)|) % 4 == 0
  {
    hide At, ArchiveAt, PlacedAll, WriteItems, ZerosAt;
    AtSplit(f, o, Zeros(a.zeros), WriteItems(a.items));
    ZerosStand(f, o, a.zeros);
    AlignedSum(o, a.zeros);
    ArchiveWritten(f, o + a.zeros, a.items);
    AlignedSum(o + a.zeros, |WriteItems(a.items)|);
  }

  lemma JoinThree(a: Bytes, b: Bytes, c: Bytes)
    ensures (a + b) + c == a + (b + c)
  {
  }

  lemma FirstIsArchive(archives: seq<Archive>)
    requires Writable(archives) && archives != []
    ensures Writable(archives[1..]) && Padding(archives[0].zeros) && IsArchive(archives[0].items)
  {
    hide IsArchive, Padding;
    forall i | 0 <= i < |archives[1..]| ensures Padding(archives[1..][i].zeros) && IsArchive(archives[1..][i].items) {
      assert archives[1..][i] == archives[i + 1];
    }
  }

  /** The first archive, and the bytes behind it. */
  lemma FirstArchive(archives: seq<Archive>, tail: Bytes)
    requires Writable(archives) && archives != []
    ensures Writable(archives[1..]) && Padding(archives[0].zeros) && IsArchive(archives[0].items)
    ensures |WriteAll(archives)| == |WriteArchive(archives[0])| + |WriteAll(archives[1..])|
    ensures WriteAll(archives) + tail == WriteArchive(archives[0]) + (WriteAll(archives[1..]) + tail)
  {
    FirstIsArchive(archives);
    var first, rest := WriteArchive(archives[0]), WriteAll(archives[1..]);
    hide IsArchive, Padding, Writable, AllFit, WriteArchive, WriteItems;
    assert WriteAll(archives) == first + rest;
    JoinThree(first, rest, tail);
  }

  lemma LayoutFirst(f: Bytes, o: nat, archives: seq<Archive>, off: nat)
    requires Writable(archives) && archives != []
    requires ZerosAt(f, o, archives[0].zeros)
    requires var a := archives[0];
      ArchiveAt(f, o + a.zeros, PlacedAll(a.items, o + a.zeros), o + |WriteArchive(a)|)
    requires var next := o + |WriteArchive(archives[0])|; Layout(f, next, SegmentsOf(archives[1..], next), off)
    ensures Layout(f, o, SegmentsOf(archives, o), off)
  {
    hide ArchiveAt, Layout, ZerosAt, WriteArchive, PlacedAll;
    var a := archives[0];
    var next := o + |WriteArchive(a)|;
    LayoutCons(f, o, Segment(a.zeros, PlacedAll(a.items, o + a.zeros), next), SegmentsOf(archives[1..], next), off);
  }

  lemma {:induction false} ImageLayout(f: Bytes, o: nat, archives: seq<Archive>, zeros: nat, payload: Bytes)
    requires Writable(archives) && Padding(zeros) && IsPayload(payload) && o % 4 == 0
    requires o + |WriteAll(archives)| + zeros + |payload| == |f|
    requires At(f, o, WriteAll(archives) + (Zeros(zeros) + payload))
    ensures Layout(f, o, SegmentsOf(archives, o), o + |WriteAll(archives)| + zeros)
    decreases |archives|
  {
    hide ArchiveAt, Layout, MagicAt, ZerosAt, At, WriteItems, WriteArchive, PlacedAll, IsPayload;
    var tail := Zeros(zeros) + payload;
    if archives == [] {
      assert WriteAll(archives) + tail == tail;
      ImageEnds(f, o, zeros, payload);
    } else {
      var a, rest := archives[0], archives[1..];
      FirstArchive(archives, tail);
      hide WriteAll, SegmentsOf, Writable;
      AtSplit(f, o, WriteArchive(a), WriteAll(rest) + tail);
      ArchiveStands(f, o, a);
      ImageLayout(f, o + |WriteArchive(a)|, rest, zeros, payload);
      LayoutFirst(f, o, archives, o + |WriteAll(archives)| + zeros);
    }
  }

  /** The walker returns exactly the payload's offset, and whether any entry is an init. */
  lemma RoundTrip(archives: seq<Archive>, zeros: nat, payload: Bytes)
    requires Writable(archives) && Padding(zeros) && IsPayload(payload)
    ensures Walk(WriteAll(archives) + (Zeros(zeros) + payload), 0, false) ==
      Ok((|WriteAll(archives)| + zeros, WritesInit(archives)))
  {
    hide Walk, Layout, SegmentsOf, WriteAll, WritesInit, HoldsInit, IsPayload, Writable;
    var f := WriteAll(archives) + (Zeros(zeros) + payload);
    assert f[0..|f|] == f;
    ImageLayout(f, 0, archives, zeros, payload);
    LayoutWalks(f, 0, SegmentsOf(archives, 0), |WriteAll(archives)| + zeros, false);
    SegmentsHoldInit(archives, 0);
  }

  // ---- limits --------------------------------------------------------------

  /** Zeros are skipped up to a mebibyte at a time; more of them are the payload. */
  lemma LongPaddingStops(f: Bytes)
    requires |f| > 0x10_0000 && forall i :: 0 <= i <= 0x10_0000 ==> f[i] == 0
    ensures Walk(f, 0, false) == Ok((0x10_0000, false))
  {
    hide WalkArchive;
    MagicsDiffer();
    assert SkipZeros(f, 0, PadEnd(f, 0)) == 0x10_0000;
    assert 0x10_0000 + 6 <= |f| ==> f[0x10_0000..0x10_0000 + 6][0] == f[0x10_0000];
  }

  /** A name of no bytes, not even its NUL, or of more than 4096, is refused. */
  lemma NameSizeRefused(f: Bytes, o: nat, size: nat)
    requires o + HEADER <= |f| && Spells(f[o + 94..o + 102], size) && (size == 0 || size > 4096)
    ensures ReadEntry(f, o).Err?
  {
    FieldIffWritten(f, o + 94, size);
    hide Field, Sum;
  }
}
