/** The file that tells which deployment is on trial on systemd-boot
    (`save_trial` and `parse_trial` in bootguard/src/sdboot.rs). */
module TrialRecord {
  import opened Options
  import Protocol

  // ---- reading -------------------------------------------------------------

  function UpToNewline(s: string): (i: nat)
    ensures i <= |s| && (i < |s| ==> s[i] == '\n') && '\n' !in s[..i]
  {
    if s == "" || s[0] == '\n' then 0
    else
      var i := UpToNewline(s[1..]);
      assert s[..i + 1] == [s[0]] + s[1..][..i];
      i + 1
  }

  /** A carriage return before the newline is not part of the line. */
  function Line(s: string): string {
    if s != "" && s[|s| - 1] == '\r' then s[..|s| - 1] else s
  }

  function StripPrefix(s: string, prefix: string): Option<string> {
    if |prefix| <= |s| && s[..|prefix|] == prefix then Some(s[|prefix|..]) else None
  }

  /** The text behind `key=` on the first line that starts so. */
  function Value(text: string, key: string): Option<string>
    decreases |text|
  {
    if text == "" then None
    else
      var i := UpToNewline(text);
      var rest := StripPrefix(if i < |text| then Line(text[..i]) else text, key);
      var value := if rest.Some? then StripPrefix(rest.value, "=") else None;
      if value.Some? then value
      else if i < |text| then Value(text[i + 1..], key)
      else None
  }

  function Parse(text: string): Option<(string, string)> {
    var target, verity := Value(text, "target"), Value(text, "verity");
    if target.None? || verity.None? then None else Some((target.value, verity.value))
  }

  // ---- writing -------------------------------------------------------------

  function Written(key: string, value: string): string {
    key + "=" + value + "\n"
  }

  /** None where the ids are refused. */
  function Save(target: string, verity: string): Option<string> {
    if !Protocol.IsSafeId(target) || !Protocol.IsSafeId(verity) then None
    else Some(Written("target", target) + Written("verity", verity))
  }

  predicate IsAlnum(c: char) {
    'a' <= c <= 'z' || 'A' <= c <= 'Z' || '0' <= c <= '9'
  }

  /** Parts of letters and digits, put together with a colon, a dot, an underscore or a dash,
      are ids, as digests and composefs ids are; with any other character they are none. */
  lemma IdsOfParts(a: string, sep: char, b: string)
    requires a != "" && (forall c :: c in a ==> IsAlnum(c)) && (forall c :: c in b ==> IsAlnum(c))
    ensures Protocol.IsSafeId(a) && !Protocol.IsSafeId("")
    ensures Protocol.IsSafeId(a + [sep] + b) <==>
      IsAlnum(sep) || sep == ':' || sep == '.' || sep == '_' || sep == '-'
  {
    var id := a + [sep] + b;
    assert id[|a|] == sep;
    assert forall c :: c in id <==> c in a || c == sep || c in b;
  }

  lemma SafeIdIsOneLine(id: string)
    requires Protocol.IsSafeId(id)
    ensures '\n' !in id && id[|id| - 1] != '\r'
  {
    assert id[|id| - 1] in id;
  }

  lemma WrittenLine(key: string, value: string, rest: string)
    requires '\n' !in key && Protocol.IsSafeId(value)
    ensures var text := Written(key, value) + rest;
      var i := UpToNewline(text);
      i < |text| && Line(text[..i]) == key + "=" + value && text[i + 1..] == rest
  {
    var line := key + "=" + value;
    var text := Written(key, value) + rest;
    SafeIdIsOneLine(value);
    assert text == line + ("\n" + rest);
    var i := UpToNewline(text);
    assert text[|line|] == '\n';
    assert forall j :: 0 <= j < |line| ==> text[j] == line[j];
    assert forall j :: 0 <= j < i ==> text[..i][j] == text[j];
    assert i == |line| && text[..i] == line;
    assert line[|line| - 1] == value[|value| - 1];
  }

  lemma OwnKey(key: string, value: string, rest: string)
    requires '\n' !in key && Protocol.IsSafeId(value)
    ensures Value(Written(key, value) + rest, key) == Some(value)
  {
    WrittenLine(key, value, rest);
    var line := key + "=" + value;
    assert line[..|key|] == key && line[|key|..] == "=" + value;
    assert ("=" + value)[1..] == value;
  }

  lemma OtherKey(value: string, rest: string)
    requires Protocol.IsSafeId(value)
    ensures Value(Written("target", value) + rest, "verity") == Value(rest, "verity")
  {
    WrittenLine("target", value, rest);
    var line := "target=" + value;
    assert line[..6][0] == 't';
  }

  /** What `arm` saves is what the next boot loads. */
  lemma RoundTrip(target: string, verity: string)
    ensures Save(target, verity).Some? ==> Parse(Save(target, verity).value) == Some((target, verity))
  {
    if Save(target, verity).Some? {
      var second := Written("verity", verity);
      OwnKey("target", target, second);
      OtherKey(target, second);
      OwnKey("verity", verity, "");
      assert second + "" == second;
    }
  }

  /** One line, with or without a carriage return at its end. */
  function Row(key: string, value: string, cr: bool): string {
    key + "=" + value + (if cr then "\r\n" else "\n")
  }

  lemma OneLine(own: string, key: string, value: string, cr: bool, rest: string)
    requires own in ["target", "verity"] && key in ["target", "verity"] && Protocol.IsSafeId(value)
    ensures Value(Row(own, value, cr) + rest, key) ==
      if own == key then Some(value) else Value(rest, key)
  {
    var line, end := own + "=" + value, if cr then "\r" else "";
    var text := line + end + "\n" + rest;
    assert Row(own, value, cr) + rest == text;
    SafeIdIsOneLine(value);
    NewlineAt(line + end, rest);
    assert line[|line| - 1] == value[|value| - 1] != '\r';
    assert Line(line + end) == line by { assert (line + end)[..|line|] == line; }
    assert line[..|own|] == own && line[|own|..] == "=" + value && ("=" + value)[1..] == value;
    if own != key { assert line[0] == own[0] != key[0]; }
  }

  lemma NewlineAt(line: string, rest: string)
    requires '\n' !in line
    ensures var text := line + "\n" + rest;
      UpToNewline(text) == |line| && text[..|line|] == line && text[|line| + 1..] == rest
  {
    var text := line + "\n" + rest;
    var i := UpToNewline(text);
    assert text[|line|] == '\n';
    assert forall j :: 0 <= j < |line| ==> text[j] == line[j];
    assert forall j :: 0 <= j < i ==> text[..i][j] == text[j];
  }

  lemma LastLine(value: string)
    requires Protocol.IsSafeId(value)
    ensures Value("verity=" + value, "verity") == Some(value)
  {
    var line := "verity=" + value;
    SafeIdIsOneLine(value);
    assert '\n' !in line && UpToNewline(line) == |line|;
    assert line[..6] == "verity" && line[6..] == "=" + value && ("=" + value)[1..] == value;
  }

  /** Lines that end as in a DOS file, and a last line that does not end, are read too. */
  lemma LooseRecord(target: string, verity: string, cr: bool)
    requires Protocol.IsSafeId(target) && Protocol.IsSafeId(verity)
    ensures Parse(Row("target", target, cr) + Row("verity", verity, cr)) == Some((target, verity))
    ensures Parse(Row("target", target, cr) + ("verity=" + verity)) == Some((target, verity))
  {
    hide Value, Row;
    var second, last := Row("verity", verity, cr), "verity=" + verity;
    OneLine("target", "target", target, cr, second);
    OneLine("target", "verity", target, cr, second);
    OneLine("target", "target", target, cr, last);
    OneLine("target", "verity", target, cr, last);
    OneLine("verity", "verity", verity, cr, "");
    LastLine(verity);
    assert second + "" == second;
  }
}
