/**
  What is read of the environment block after a write that was cut short. The block is
  rewritten from its start, so it holds the first bytes of the new text and the rest of the
  old one. `TornReads` says what such a text holds; `AddedTorn` and `DroppedTorn` are the two
  cases in which the new text is the longer or the shorter one.
*/
module TornWrites {
  import opened Options
  import opened EnvBlock
  import opened GrubEnv

  predicate PlainVars(vars: Vars) {
    forall v :: v in vars ==> SafeKey(v.key) && Plain(v.value)
  }

  function Line(v: Var): string {
    v.key + "=" + v.value
  }

  lemma {:induction false} PlainEscaped(v: string)
    requires Plain(v)
    ensures Escaped(v) == v
  {
    if v != "" {
      PlainEscaped(v[1..]);
    }
  }

  lemma PlainRecord(v: Var)
    requires Plain(v.value)
    ensures Record(v) == Line(v) + "\n"
  {
    PlainEscaped(v.value);
  }

  lemma RecordReads(v: Var, rest: string)
    requires SafeKey(v.key)
    ensures VarsOn(Lines(Record(v) + rest)) == [v] + VarsOn(Lines(rest))
  {
    SafeRecordLines(v, rest);
    SafeVarOn(v);
    assert ([Line(v)] + Lines(rest))[1..] == Lines(rest);
  }

  /** How many records are whole in the first `j` bytes. */
  function Whole(vars: Vars, j: nat): (i: nat)
    ensures i <= |vars|
  {
    if vars == [] || j < |Record(vars[0])| then 0 else 1 + Whole(vars[1..], j - |Record(vars[0])|)
  }

  /** What was written of the line after those. */
  function Begun(vars: Vars, j: nat): string {
    if vars == [] then Padding(j)
    else if j < |Record(vars[0])| then Record(vars[0])[..j]
    else Begun(vars[1..], j - |Record(vars[0])|)
  }

  lemma {:induction false} BegunIsPlain(vars: Vars, j: nat)
    requires PlainVars(vars)
    ensures Plain(Begun(vars, j))
  {
    if vars != [] {
      var v := vars[0];
      assert v in vars;
      if j < |Record(v)| {
        PlainRecord(v);
        assert Record(v)[..j] == Line(v)[..j];
      } else {
        BegunIsPlain(vars[1..], j - |Record(v)|);
      }
    }
  }

  lemma {:induction false} WrittenReads(vars: Vars, pad: nat, j: nat, rest: string)
    requires PlainVars(vars) && j <= |Records(vars)| + pad
    ensures VarsOn(Lines((Records(vars) + Padding(pad))[..j] + rest)) ==
      vars[..Whole(vars, j)] + VarsOn(Lines(Begun(vars, j) + rest))
  {
    hide Lines, VarsOn, Record;
    var text := Records(vars) + Padding(pad);
    if vars == [] {
      assert text[..j] == Padding(j);
    } else {
      var r := Record(vars[0]);
      assert vars[0] in vars;
      var text1 := Records(vars[1..]) + Padding(pad);
      assert text == r + text1;
      if j < |r| {
        assert text[..j] == r[..j];
      } else {
        WrittenReads(vars[1..], pad, j - |r|, rest);
        assert text[..j] + rest == r + (text1[..j - |r|] + rest);
        RecordReads(vars[0], text1[..j - |r|] + rest);
        assert vars[..Whole(vars, j)] == [vars[0]] + vars[1..][..Whole(vars[1..], j - |r|)];
      }
    }
  }

  /** The variables written whole, then one line whose start is new and whose end is old, then
      what the rest of the old text says. */
  function Spliced(vars: Vars, j: nat, rest: string): Vars {
    vars[..Whole(vars, j)] + (VarOn(Begun(vars, j) + Lines(rest)[0]) + VarsOn(Lines(rest)[1..]))
  }

  /** So a file is read, whatever it held, of which `stored` bytes were rewritten. */
  lemma TornReads(data: string, vars: Vars, stored: nat)
    requires HasHeader(data) && PlainVars(vars) && Serialized(vars, |data|).Some?
    requires |HEADER| <= stored <= |data|
    ensures Parsed(Torn(data, Serialized(vars, |data|).value, stored)) ==
      Some(Spliced(vars, stored - |HEADER|, data[stored..]))
  {
    hide *;
    var pad := SerializedBody(vars, |data|);
    var body, j, rest := Records(vars) + Padding(pad), stored - |HEADER|, data[stored..];
    TornBody(data, body, stored);
    BodyReads(vars, pad, j, rest);
  }

  lemma SerializedBody(vars: Vars, size: nat) returns (pad: nat)
    requires Serialized(vars, size).Some?
    ensures |HEADER| + |Records(vars)| + pad == size
    ensures Serialized(vars, size).value == HEADER + (Records(vars) + Padding(pad))
  {
    pad := size - |HEADER + Records(vars)|;
  }

  lemma BodyReads(vars: Vars, pad: nat, j: nat, rest: string)
    requires PlainVars(vars) && j <= |Records(vars)| + pad
    ensures VarsOn(Lines((Records(vars) + Padding(pad))[..j] + rest)) == Spliced(vars, j, rest)
  {
    hide Records, Lines, VarsOn;
    WrittenReads(vars, pad, j, rest);
    BegunIsPlain(vars, j);
    PlainLines(Begun(vars, j), rest);
    FirstLine(Begun(vars, j), Lines(rest));
  }

  lemma TornBody(data: string, body: string, stored: nat)
    requires HasHeader(data) && |HEADER| + |body| == |data| && |HEADER| <= stored <= |data|
    ensures Parsed(Torn(data, HEADER + body, stored)) == Some(VarsOn(Lines(body[..stored - |HEADER|] + data[stored..])))
  {
    var torn := Torn(data, HEADER + body, stored);
    assert torn == HEADER + (body[..stored - |HEADER|] + data[stored..]);
    assert torn[..|HEADER|] == HEADER && torn[|HEADER|..] == body[..stored - |HEADER|] + data[stored..];
  }

  lemma FirstLine(start: string, lines: seq<string>)
    requires lines != []
    ensures VarsOn(Joined(start, lines)) == VarOn(start + lines[0]) + VarsOn(lines[1..])
  {
    assert Joined(start, lines)[1..] == lines[1..];
  }

  lemma {:induction false} RecordsBehind(vars: Vars, more: Vars)
    ensures Records(vars + more) == Records(vars) + Records(more)
  {
    hide Record;
    if vars == [] {
      assert vars + more == more;
    } else {
      assert (vars + more)[1..] == vars[1..] + more;
      RecordsBehind(vars[1..], more);
    }
  }

  lemma SameStart(before: string, after: string, stored: nat)
    requires |before| == |after| && stored <= |after| && before[..stored] == after[..stored]
    ensures Torn(before, after, stored) == before
  {
    assert before == before[..stored] + before[stored..];
  }

  lemma SamePrefix(a: string, b: string, c: string, d: string, stored: nat)
    requires stored <= |a| + |b|
    ensures (a + (b + c))[..stored] == (a + (b + d))[..stored]
  {
  }

  /** Where the old and the new text agree, nothing is torn. */
  lemma SameRecords(data: string, vars: Vars, ends: Vars, ends': Vars, stored: nat)
    requires Serialized(vars + ends, |data|) == Some(data) && Serialized(vars + ends', |data|).Some?
    requires stored <= |HEADER| + |Records(vars)|
    ensures Torn(data, Serialized(vars + ends', |data|).value, stored) == data
  {
    hide *;
    var pad := SerializedBody(vars + ends, |data|);
    var pad' := SerializedBody(vars + ends', |data|);
    RecordsBehind(vars, ends);
    RecordsBehind(vars, ends');
    SamePrefix(HEADER, Records(vars), Records(ends) + Padding(pad), Records(ends') + Padding(pad'), stored);
    assert Records(vars) + (Records(ends) + Padding(pad)) == (Records(vars) + Records(ends)) + Padding(pad);
    assert Records(vars) + (Records(ends') + Padding(pad')) == (Records(vars) + Records(ends')) + Padding(pad');
    SameStart(data, Serialized(vars + ends', |data|).value, stored);
  }

  lemma HeaderIsThere(data: string, body: string)
    requires data == HEADER + body
    ensures HasHeader(data) && data[|HEADER|..] == body
  {
  }

  // ---- variables added behind the others -----------------------------------

  /** A line cut short before its end, and padding behind it. */
  lemma BrokenVar(v: Var, j: nat, pad: nat)
    requires SafeKey(v.key) && j <= |Line(v)|
    ensures VarOn(Line(v)[..j] + Padding(pad)) ==
      if j <= |v.key| then [] else [Var(v.key, v.value[..j - |v.key| - 1] + Padding(pad))]
  {
    var line := Line(v)[..j] + Padding(pad);
    if j <= |v.key| {
      assert line == v.key[..j] + Padding(pad);
      assert '=' !in line;
    } else {
      var w := Var(v.key, v.value[..j - |v.key| - 1] + Padding(pad));
      assert line == Line(w);
      SafeVarOn(w);
    }
  }

  /** The value of `k` in the text of `vars` after `j` bytes, with padding behind. */
  function CutValue(vars: Vars, k: string, j: nat, pad: nat): Option<string> {
    if vars == [] then None
    else
      var v := vars[0];
      if j >= |Record(v)| then if v.key == k then Some(v.value) else CutValue(vars[1..], k, j - |Record(v)|, pad)
      else if v.key == k && |k| < j < |Record(v)| && j - |k| - 1 <= |v.value|
      then Some(v.value[..j - |k| - 1] + Padding(pad)) else None
  }

  lemma {:induction false} CutGet(vars: Vars, k: string, j: nat, pad: nat)
    requires PlainVars(vars)
    ensures Get(vars[..Whole(vars, j)] + VarOn(Begun(vars, j) + Padding(pad)), k) == CutValue(vars, k, j, pad)
  {
    hide VarOn, Get, Record;
    if vars == [] {
      NothingGot(j, pad, k);
    } else {
      var v := vars[0];
      assert v in vars;
      if j < |Record(v)| {
        FirstGot(v, k, j, pad);
      } else {
        var j1 := j - |Record(v)|;
        CutGet(vars[1..], k, j1, pad);
        var rest := vars[1..][..Whole(vars[1..], j1)] + VarOn(Begun(vars[1..], j1) + Padding(pad));
        assert vars[..Whole(vars, j)] + VarOn(Begun(vars, j) + Padding(pad)) == [v] + rest;
        GetFirst(v, rest, k);
      }
    }
  }

  lemma NothingGot(j: nat, pad: nat, k: string)
    ensures Get([] + VarOn(Padding(j) + Padding(pad)), k) == None
  {
    PaddingHasNoVars(j + pad);
    assert Padding(j) + Padding(pad) == Padding(j + pad);
    assert VarsOn([Padding(j + pad)]) == VarOn(Padding(j + pad)) + VarsOn([Padding(j + pad)][1..]);
  }

  lemma FirstGot(v: Var, k: string, j: nat, pad: nat)
    requires SafeKey(v.key) && Plain(v.value) && j < |Record(v)|
    ensures |Record(v)| == |v.key| + |v.value| + 2
    ensures Get([] + VarOn(Record(v)[..j] + Padding(pad)), k) ==
      if v.key == k && |k| < j then Some(v.value[..j - |k| - 1] + Padding(pad)) else None
  {
    hide VarOn;
    PlainRecord(v);
    BrokenVar(v, j, pad);
    assert Record(v)[..j] == Line(v)[..j];
    assert [] + VarOn(Record(v)[..j] + Padding(pad)) == VarOn(Record(v)[..j] + Padding(pad));
  }

  lemma GetFirst(v: Var, rest: Vars, k: string)
    ensures Get([v] + rest, k) == if v.key == k then Some(v.value) else Get(rest, k)
  {
  }

  lemma {:induction false} CutBehind(vars: Vars, more: Vars, k: string, j: nat, pad: nat)
    requires j >= |Records(vars)| && forall v :: v in vars ==> v.key != k
    ensures CutValue(vars + more, k, j, pad) == CutValue(more, k, j - |Records(vars)|, pad)
  {
    hide Record;
    if vars == [] {
      assert vars + more == more;
    } else {
      assert (vars + more)[1..] == vars[1..] + more;
      assert vars[0] in vars;
      CutBehind(vars[1..], more, k, j - |Record(vars[0])|, pad);
    }
  }

  lemma AddedTorn(data: string, vars: Vars, more: Vars, stored: nat, k: string)
    requires Serialized(vars, |data|) == Some(data) && Serialized(vars + more, |data|).Some?
    requires PlainVars(vars + more) && (forall v :: v in vars ==> v.key != k)
    requires |HEADER| + |Records(vars)| <= stored <= |data|
    ensures var torn := Torn(data, Serialized(vars + more, |data|).value, stored);
      && Parsed(torn).Some?
      && Get(Parsed(torn).value, k) == CutValue(more, k, stored - |HEADER| - |Records(vars)|, |data| - stored)
  {
    hide *;
    var left := |data| - stored;
    var pad := SerializedBody(vars, |data|);
    PaddingIsLeft(data, HEADER, Records(vars), pad, stored);
    HeaderIsThere(data, Records(vars) + Padding(pad));
    TornReads(data, vars + more, stored);
    PaddingSpliced(vars + more, stored - |HEADER|, left);
    CutGet(vars + more, k, stored - |HEADER|, left);
    CutBehind(vars, more, k, stored - |HEADER|, left);
  }

  lemma PaddingIsLeft(data: string, a: string, b: string, pad: nat, stored: nat)
    requires data == a + (b + Padding(pad)) && |a| + |b| <= stored <= |data|
    ensures data[stored..] == Padding(|data| - stored)
  {
  }

  lemma PaddingSpliced(vars: Vars, j: nat, left: nat)
    ensures Spliced(vars, j, Padding(left)) == vars[..Whole(vars, j)] + VarOn(Begun(vars, j) + Padding(left))
  {
    PaddingHasNoVars(left);
    assert [Padding(left)][1..] == [];
  }

  // ---- variables dropped from the end --------------------------------------

  /** How many of `vars` are gone when the first `j` bytes of their text are, and part of the
      line that comes next. */
  function Gone(vars: Vars, j: nat): (i: nat)
    ensures i <= |vars|
  {
    if vars == [] then 0 else if j < |Record(vars[0])| then 1 else 1 + Gone(vars[1..], j - |Record(vars[0])|)
  }

  lemma {:induction false} RestReads(vars: Vars, pad: nat, j: nat)
    requires PlainVars(vars) && j <= |Records(vars)| + pad
    ensures VarsOn(Lines((Records(vars) + Padding(pad))[j..])[1..]) == vars[Gone(vars, j)..]
  {
    hide VarsOn, Record, Lines;
    var text := Records(vars) + Padding(pad);
    if vars == [] {
      assert text[j..] == Padding(pad - j);
      PaddingHasNoVars(pad - j);
      NoVarsLeft(Padding(pad - j));
    } else {
      var r, text1 := Record(vars[0]), Records(vars[1..]) + Padding(pad);
      assert vars[0] in vars && text == r + text1;
      if j < |r| {
        assert text[j..] == r[j..] + text1;
        RestOfLine(vars[0], j, text1);
        SafeIsReadBack(vars[1..], pad);
      } else {
        assert text[j..] == text1[j - |r|..];
        RestReads(vars[1..], pad, j - |r|);
      }
    }
  }

  lemma NoVarsLeft(line: string)
    ensures VarsOn([line][1..]) == []
  {
  }

  lemma RestOfLine(v: Var, j: nat, rest: string)
    requires SafeKey(v.key) && Plain(v.value) && j < |Record(v)|
    ensures Lines(Record(v)[j..] + rest)[1..] == Lines(rest)
  {
    PlainRecord(v);
    var left := Line(v)[j..];
    assert Record(v)[j..] + rest == left + ("\n" + rest);
    PlainLines(left, "\n" + rest);
    NewlineContent(rest);
    assert Joined(left, [""] + Lines(rest))[1..] == Lines(rest);
  }

  lemma {:induction false} WholeAll(vars: Vars, j: nat)
    requires j >= |Records(vars)|
    ensures Whole(vars, j) == |vars| && Begun(vars, j) == Padding(j - |Records(vars)|)
  {
    if vars != [] {
      WholeAll(vars[1..], j - |Record(vars[0])|);
    }
  }

  /** Padding over the start of `more` makes a comment of the line it ends in. */
  lemma DroppedTorn(data: string, vars: Vars, more: Vars, stored: nat)
    requires Serialized(vars + more, |data|) == Some(data) && Serialized(vars, |data|).Some?
    requires PlainVars(vars) && PlainVars(more)
    requires |HEADER| + |Records(vars)| < stored <= |data|
    ensures Parsed(Torn(data, Serialized(vars, |data|).value, stored)) ==
      Some(vars + more[Gone(more, stored - |HEADER| - |Records(vars)|)..])
  {
    hide *;
    var pad := SerializedBody(vars + more, |data|);
    RecordsBehind(vars, more);
    var rest, j := data[stored..], stored - |HEADER| - |Records(vars)|;
    assert data == HEADER + (Records(vars) + (Records(more) + Padding(pad)));
    HeaderIsThere(data, Records(vars) + (Records(more) + Padding(pad)));
    TextIsLeft(data, HEADER, Records(vars), Records(more) + Padding(pad), stored);
    TornReads(data, vars, stored);
    WholeAll(vars, stored - |HEADER|);
    CommentReads(j, Lines(rest)[0]);
    RestReads(more, pad, j);
    AllSpliced(vars, stored - |HEADER|, rest);
  }

  lemma TextIsLeft(data: string, a: string, b: string, c: string, stored: nat)
    requires data == a + (b + c) && |a| + |b| <= stored <= |data|
    ensures data[stored..] == c[stored - |a| - |b|..]
  {
  }

  lemma CommentReads(n: nat, line: string)
    requires n > 0
    ensures VarOn(Padding(n) + line) == []
  {
  }

  lemma AllSpliced(vars: Vars, j: nat, rest: string)
    requires Whole(vars, j) == |vars| && VarOn(Begun(vars, j) + Lines(rest)[0]) == []
    ensures Spliced(vars, j, rest) == vars + VarsOn(Lines(rest)[1..])
  {
    hide Lines, VarsOn, VarOn, Whole, Begun;
    assert vars[..|vars|] == vars;
  }
}
