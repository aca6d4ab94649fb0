/**
  The text of a GRUB environment block (bootguard/src/grubenv.rs). One `char` is one
  byte; the parser looks only at ASCII bytes, so this is the text of the block also
  where it is UTF-8. `RoundTripIff` says for which variables the text written is read
  back as the same variables.
*/
module EnvBlock {
  import opened Options

  datatype Var = Var(key: string, value: string)
  type Vars = seq<Var>

  const HEADER := "# GRUB Environment Block\n"

  // ---- reading -------------------------------------------------------------

  /** `c` put before the first line. */
  function Before(c: char, lines: seq<string>): (r: seq<string>)
    requires lines != []
    ensures |r| == |lines|
  {
    [[c] + lines[0]] + lines[1..]
  }

  /** The lines of a body: a backslash takes the next byte as it is, a lone backslash
      at the end is dropped. */
  function Lines(s: string): (lines: seq<string>)
    ensures lines != []
    decreases |s|
  {
    if s == "" then [""]
    else if s[0] == '\n' then [""] + Lines(s[1..])
    else if s[0] != '\\' then Before(s[0], Lines(s[1..]))
    else if |s| == 1 then [""]
    else Before(s[1], Lines(s[2..]))
  }

  function IndexOf(c: char, s: string): (i: nat)
    ensures i <= |s| && c !in s[..i] && (i < |s| ==> s[i] == c)
  {
    if s == "" || s[0] == c then 0
    else
      var i := IndexOf(c, s[1..]);
      assert s[..i + 1] == [s[0]] + s[1..][..i];
      i + 1
  }

  predicate IsComment(line: string) {
    line != "" && line[0] == '#'
  }

  /** The variable on a line, if there is one. */
  function VarOn(line: string): (v: Vars)
    ensures |v| <= 1
    ensures v != [] ==> line == v[0].key + "=" + v[0].value && '=' !in v[0].key && !IsComment(v[0].key)
  {
    var i := IndexOf('=', line);
    if IsComment(line) || i == |line| then [] else [Var(line[..i], line[i + 1..])]
  }

  function VarsOn(lines: seq<string>): Vars {
    if lines == [] then [] else VarOn(lines[0]) + VarsOn(lines[1..])
  }

  predicate HasHeader(data: string) {
    |data| >= |HEADER| && data[..|HEADER|] == HEADER
  }

  function Parsed(data: string): Option<Vars> {
    if HasHeader(data) then Some(VarsOn(Lines(data[|HEADER|..]))) else None
  }

  // ---- writing -------------------------------------------------------------

  predicate Special(c: char) {
    c == '\\' || c == '\n'
  }

  function Escape(c: char): string {
    if Special(c) then ['\\', c] else [c]
  }

  function Escaped(v: string): string {
    if v == "" then "" else Escape(v[0]) + Escaped(v[1..])
  }

  function Record(v: Var): string {
    v.key + "=" + Escaped(v.value) + "\n"
  }

  function Records(vars: Vars): string {
    if vars == [] then "" else Record(vars[0]) + Records(vars[1..])
  }

  function Padding(n: nat): (s: string)
    ensures |s| == n && forall i :: 0 <= i < n ==> s[i] == '#'
  {
    seq(n, i => '#')
  }

  /** The block of `size` bytes, if it is large enough. */
  function Serialized(vars: Vars, size: nat): (r: Option<string>)
    ensures r.Some? ==> |r.value| == size
  {
    var s := HEADER + Records(vars);
    if |s| > size then None else Some(s + Padding(size - |s|))
  }

  // ---- what is written is read back ----------------------------------------

  predicate Plain(k: string) {
    forall i :: 0 <= i < |k| ==> !Special(k[i])
  }

  /** A key that a line can hold. */
  predicate SafeKey(k: string) {
    && !IsComment(k)
    && '=' !in k
    && Plain(k)
  }

  /** `a` put before the first line. */
  function Joined(a: string, lines: seq<string>): (r: seq<string>)
    requires lines != []
    ensures |r| == |lines|
  {
    [a + lines[0]] + lines[1..]
  }

  lemma JoinedNothing(lines: seq<string>)
    requires lines != []
    ensures Joined("", lines) == lines
  {
    assert "" + lines[0] == lines[0];
  }

  lemma BeforeJoined(a: string, lines: seq<string>)
    requires a != "" && lines != []
    ensures Before(a[0], Joined(a[1..], lines)) == Joined(a, lines)
  {
    assert [a[0]] + (a[1..] + lines[0]) == a + lines[0];
  }

  lemma {:induction false} PlainLines(k: string, rest: string)
    requires Plain(k)
    ensures Lines(k + rest) == Joined(k, Lines(rest))
  {
    if k == "" {
      assert k + rest == rest;
      JoinedNothing(Lines(rest));
    } else {
      assert (k + rest)[1..] == k[1..] + rest;
      PlainLines(k[1..], rest);
      BeforeJoined(k, Lines(rest));
    }
  }

  lemma EscapedFirst(c: char, rest: string)
    ensures Lines(Escape(c) + rest) == Before(c, Lines(rest))
  {
    var s := Escape(c) + rest;
    if Special(c) {
      assert s[0] == '\\' && s[1] == c && s[2..] == rest;
    } else {
      assert s[0] == c && s[1..] == rest;
    }
  }

  lemma {:induction false} EscapedLines(v: string, rest: string)
    ensures Lines(Escaped(v) + rest) == Joined(v, Lines(rest))
  {
    if v == "" {
      assert Escaped(v) + rest == rest;
      JoinedNothing(Lines(rest));
    } else {
      EscapedLines(v[1..], rest);
      EscapedFirst(v[0], Escaped(v[1..]) + rest);
      assert Escaped(v) + rest == Escape(v[0]) + (Escaped(v[1..]) + rest);
      BeforeJoined(v, Lines(rest));
    }
  }

  /** A value and its end: whatever the value holds, it is one line. */
  lemma ValueLines(v: string, rest: string)
    ensures Lines(Escaped(v) + "\n" + rest) == [v] + Lines(rest)
  {
    EscapedLines(v, "\n" + rest);
    assert Escaped(v) + "\n" + rest == Escaped(v) + ("\n" + rest);
    assert ("\n" + rest)[1..] == rest;
    assert v + "" == v;
  }

  lemma SafeRecordLines(v: Var, rest: string)
    requires Plain(v.key)
    ensures Lines(Record(v) + rest) == [v.key + "=" + v.value] + Lines(rest)
  {
    var k := v.key + "=";
    PlainLines(k, Escaped(v.value) + "\n" + rest);
    ValueLines(v.value, rest);
    assert Record(v) + rest == k + (Escaped(v.value) + "\n" + rest);
  }

  lemma KeyEnds(k: string, value: string)
    requires '=' !in k
    ensures IndexOf('=', k + "=" + value) == |k|
  {
    var s := k + "=" + value;
    var i := IndexOf('=', s);
    assert s[|k|] == '=';
    assert forall j :: 0 <= j < |k| ==> s[j] == k[j];
    assert forall j :: 0 <= j < i ==> s[..i][j] == s[j];
  }

  lemma SafeVarOn(v: Var)
    requires '=' !in v.key && !IsComment(v.key)
    ensures VarOn(v.key + "=" + v.value) == [v]
  {
    var line := v.key + "=" + v.value;
    KeyEnds(v.key, v.value);
    assert line[..|v.key|] == v.key && line[|v.key| + 1..] == v.value;
    assert line[0] == if v.key == "" then '=' else v.key[0];
  }

  /** The lines of the variables and of the padding behind them. */
  function Read(vars: Vars, pad: nat): Vars {
    VarsOn(Lines(Records(vars) + Padding(pad)))
  }

  lemma {:induction false} PaddingHasNoVars(n: nat)
    ensures Lines(Padding(n)) == [Padding(n)] && VarsOn([Padding(n)]) == []
  {
    PlainLines(Padding(n), "");
    assert Padding(n) + "" == Padding(n);
    assert VarsOn([Padding(n)]) == VarOn(Padding(n)) + VarsOn([]);
  }

  lemma NothingRead(pad: nat)
    ensures Read([], pad) == []
  {
    PaddingHasNoVars(pad);
    assert Records([]) + Padding(pad) == Padding(pad);
  }

  lemma ReadFirst(vars: Vars, pad: nat)
    requires vars != []
    requires Plain(vars[0].key)
    ensures Read(vars, pad) == VarOn(vars[0].key + "=" + vars[0].value) + Read(vars[1..], pad)
  {
    var rest := Records(vars[1..]) + Padding(pad);
    SafeRecordLines(vars[0], rest);
    assert Records(vars) + Padding(pad) == Record(vars[0]) + rest;
    var line := vars[0].key + "=" + vars[0].value;
    assert ([line] + Lines(rest))[1..] == Lines(rest);
  }

  lemma {:induction false} SafeIsReadBack(vars: Vars, pad: nat)
    requires forall v :: v in vars ==> SafeKey(v.key)
    ensures Read(vars, pad) == vars
  {
    if vars == [] {
      NothingRead(pad);
    } else {
      hide VarOn, Read;
      assert vars[0] in vars;
      ReadFirst(vars, pad);
      SafeVarOn(vars[0]);
      SafeIsReadBack(vars[1..], pad);
      assert [vars[0]] + vars[1..] == vars;
    }
  }

  // ---- what is not ---------------------------------------------------------

  function Content(lines: seq<string>): nat {
    if lines == [] then 0 else |lines[0]| + Content(lines[1..])
  }

  function Weight(vars: Vars): nat {
    if vars == [] then 0 else |vars[0].key| + 1 + |vars[0].value| + Weight(vars[1..])
  }

  function Last(lines: seq<string>): string
    requires lines != []
  {
    lines[|lines| - 1]
  }

  lemma BeforeContent(c: char, lines: seq<string>)
    requires lines != []
    ensures Content(Before(c, lines)) == 1 + Content(lines)
    ensures |lines| > 1 ==> Last(Before(c, lines)) == Last(lines)
  {
    assert Before(c, lines)[1..] == lines[1..];
  }

  lemma NewlineContent(rest: string)
    ensures Lines("\n" + rest) == [""] + Lines(rest)
    ensures Content(Lines("\n" + rest)) == Content(Lines(rest))
    ensures Last(Lines("\n" + rest)) == Last(Lines(rest))
  {
    assert ("\n" + rest)[1..] == rest;
    assert ([""] + Lines(rest))[1..] == Lines(rest);
  }

  /** A byte of the key that must not be there is lost from the lines. */
  lemma {:induction false} KeyContent(k: string, rest: string)
    requires |Lines(rest)| > 1
    ensures var lines := Lines(k + "=" + rest);
      |lines| > 1 && Last(lines) == Last(Lines(rest)) &&
      Content(lines) <= |k| + 1 + Content(Lines(rest)) &&
      (!Plain(k) ==> Content(lines) < |k| + 1 + Content(Lines(rest)))
    decreases |k|
  {
    var s := k + "=" + rest;
    if k == "" {
      assert s == ['='] + rest && s[1..] == rest;
      BeforeContent('=', Lines(rest));
    } else if k[0] == '\n' {
      assert s == "\n" + (k[1..] + "=" + rest);
      KeyContent(k[1..], rest);
      NewlineContent(k[1..] + "=" + rest);
    } else if k[0] != '\\' {
      assert s[1..] == k[1..] + "=" + rest;
      KeyContent(k[1..], rest);
      BeforeContent(k[0], Lines(s[1..]));
      assert Plain(k[1..]) ==> Plain(k);
    } else if |k| == 1 {
      assert s[1] == '=' && s[2..] == rest;
      BeforeContent('=', Lines(rest));
    } else {
      assert s[1] == k[1] && s[2..] == k[2..] + "=" + rest;
      KeyContent(k[2..], rest);
      BeforeContent(k[1], Lines(s[2..]));
    }
  }

  lemma RecordContent(v: Var, rest: string)
    ensures var lines := Lines(Record(v) + rest);
      Last(lines) == Last(Lines(rest)) &&
      Content(lines) <= |v.key| + 1 + |v.value| + Content(Lines(rest)) &&
      (!Plain(v.key) ==> Content(lines) < |v.key| + 1 + |v.value| + Content(Lines(rest)))
  {
    var tail := Escaped(v.value) + "\n" + rest;
    ValueLines(v.value, rest);
    assert Lines(tail)[1..] == Lines(rest);
    KeyContent(v.key, tail);
    assert Record(v) + rest == v.key + "=" + tail;
  }

  lemma {:induction false} RecordsContent(vars: Vars, pad: nat)
    ensures var lines := Lines(Records(vars) + Padding(pad));
      Last(lines) == Padding(pad) &&
      Content(lines) <= Weight(vars) + pad &&
      ((exists v :: v in vars && !Plain(v.key)) ==> Content(lines) < Weight(vars) + pad)
  {
    if vars == [] {
      PaddingHasNoVars(pad);
      assert Records(vars) + Padding(pad) == Padding(pad);
      assert Content([Padding(pad)]) == pad + Content([]);
    } else {
      RecordsContent(vars[1..], pad);
      RecordContent(vars[0], Records(vars[1..]) + Padding(pad));
      assert Records(vars) + Padding(pad) == Record(vars[0]) + (Records(vars[1..]) + Padding(pad));
      assert forall v :: v in vars ==> v == vars[0] || v in vars[1..];
    }
  }

  lemma {:induction false} VarsWeight(lines: seq<string>)
    requires lines != [] && VarsOn([Last(lines)]) == []
    ensures Weight(VarsOn(lines)) <= Content(lines) - |Last(lines)|
  {
    if |lines| == 1 {
      assert lines == [Last(lines)];
      assert Content(lines) == |lines[0]| + Content(lines[1..]);
    } else {
      assert Last(lines[1..]) == Last(lines);
      VarsWeight(lines[1..]);
      WeightFirst(VarOn(lines[0]), VarsOn(lines[1..]));
    }
  }

  lemma WeightFirst(first: Vars, rest: Vars)
    requires |first| <= 1
    ensures Weight(first + rest) == Weight(first) + Weight(rest)
  {
    if first == [] {
      assert first + rest == rest;
    } else {
      assert (first + rest)[1..] == rest && first[1..] == [];
      assert Weight(first) == |first[0].key| + 1 + |first[0].value| + Weight([]);
    }
  }

  lemma SpecialKeyIsLost(vars: Vars, pad: nat)
    requires exists v :: v in vars && !Plain(v.key)
    ensures Read(vars, pad) != vars
  {
    RecordsContent(vars, pad);
    PaddingHasNoVars(pad);
    VarsWeight(Lines(Records(vars) + Padding(pad)));
  }

  lemma {:induction false} NoMoreIsRead(vars: Vars, pad: nat)
    requires forall v :: v in vars ==> Plain(v.key)
    ensures |Read(vars, pad)| <= |vars|
  {
    if vars == [] {
      NothingRead(pad);
    } else {
      hide Read, VarOn;
      assert vars[0] in vars;
      ReadFirst(vars, pad);
      NoMoreIsRead(vars[1..], pad);
    }
  }

  lemma {:induction false} OtherKeyIsLost(vars: Vars, pad: nat)
    requires forall v :: v in vars ==> Plain(v.key)
    requires exists v :: v in vars && !SafeKey(v.key)
    ensures Read(vars, pad) != vars
  {
    hide Read, VarOn;
    assert vars[0] in vars;
    ReadFirst(vars, pad);
    var first := VarOn(vars[0].key + "=" + vars[0].value);
    if SafeKey(vars[0].key) {
      SafeVarOn(vars[0]);
      assert forall v :: v in vars ==> v == vars[0] || v in vars[1..];
      OtherKeyIsLost(vars[1..], pad);
      assert Read(vars, pad)[1..] == Read(vars[1..], pad);
    } else if first == [] {
      NoMoreIsRead(vars[1..], pad);
    } else {
      assert Read(vars, pad)[0] == first[0];
    }
  }

  /** The block written is read back as the variables in it exactly when every key is
      one a line can hold; values need nothing. */
  lemma RoundTripIff(vars: Vars, size: nat)
    requires Serialized(vars, size).Some?
    ensures Parsed(Serialized(vars, size).value) == Some(vars) <==> forall v :: v in vars ==> SafeKey(v.key)
  {
    var data := Serialized(vars, size).value;
    var pad := size - |HEADER + Records(vars)|;
    assert data == HEADER + (Records(vars) + Padding(pad));
    assert data[..|HEADER|] == HEADER && data[|HEADER|..] == Records(vars) + Padding(pad);
    assert Parsed(data) == Some(Read(vars, pad));
    if forall v :: v in vars ==> SafeKey(v.key) {
      SafeIsReadBack(vars, pad);
    } else if exists v :: v in vars && !Plain(v.key) {
      SpecialKeyIsLost(vars, pad);
    } else {
      OtherKeyIsLost(vars, pad);
    }
  }

  /** Keys that were read hold no '=' and start no comment, whatever was read. */
  lemma {:induction false} ReadKeys(lines: seq<string>)
    ensures forall v :: v in VarsOn(lines) ==> '=' !in v.key && !IsComment(v.key)
  {
    if lines != [] {
      ReadKeys(lines[1..]);
    }
  }

  /** The header is one line of its own. */
  lemma HeaderIsLine(body: string)
    ensures Parsed("# GRUB Environment Block" + "\n" + body) == Some(VarsOn(Lines(body)))
  {
    var data := "# GRUB Environment Block" + "\n" + body;
    assert data[..|HEADER|] == HEADER && data[|HEADER|..] == body;
  }
}
