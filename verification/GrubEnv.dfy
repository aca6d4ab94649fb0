/**
  The variables of the GRUB environment block and their edits in place
  (bootguard/src/grubenv.rs, and `update_env`, `arm` and `clear_trial` of
  bootguard/src/grub.rs).
*/
module GrubEnv {
  import opened Options
  import opened Decimal
  import opened EnvBlock
  import Protocol

  const V_COUNTER := "bg_counter"
  const V_TARGET := "bg_target"
  const V_FALLBACK := "fallback"

  // ---- variables by name ---------------------------------------------------

  /** The value of the first variable named `k`. */
  function Get(vars: Vars, k: string): Option<string> {
    if vars == [] then None
    else if vars[0].key == k then Some(vars[0].value)
    else Get(vars[1..], k)
  }

  predicate IsSpace(c: char) {
    c in " \t\n\r" || c as int == 11 || c as int == 12
  }

  function TrimStart(s: string): string {
    if s != "" && IsSpace(s[0]) then TrimStart(s[1..]) else s
  }

  function TrimEnd(s: string): string {
    if s != "" && IsSpace(s[|s| - 1]) then TrimEnd(s[..|s| - 1]) else s
  }

  function GetI32(vars: Vars, k: string): Option<int> {
    var v := Get(vars, k);
    if v.Some? then ParseI32(TrimEnd(TrimStart(v.value))) else None
  }

  function WithVar(vars: Vars, k: string, v: string): Vars {
    if vars == [] then [Var(k, v)]
    else if vars[0].key == k then [Var(k, v)] + vars[1..]
    else [vars[0]] + WithVar(vars[1..], k, v)
  }

  function Without(vars: Vars, k: string): Vars {
    if vars == [] then []
    else if vars[0].key == k then Without(vars[1..], k)
    else [vars[0]] + Without(vars[1..], k)
  }

  lemma {:induction false} GetWithVar(vars: Vars, k: string, v: string, q: string)
    ensures Get(WithVar(vars, k, v), q) == if q == k then Some(v) else Get(vars, q)
  {
    if vars != [] && vars[0].key != k {
      GetWithVar(vars[1..], k, v, q);
    }
  }

  lemma {:induction false} GetWithout(vars: Vars, k: string, q: string)
    ensures Get(Without(vars, k), q) == if q == k then None else Get(vars, q)
  {
    if vars != [] {
      GetWithout(vars[1..], k, q);
    }
  }

  /** To set a variable leaves all others where they are. */
  lemma {:induction false} WithoutWithVar(vars: Vars, k: string, v: string)
    ensures Without(WithVar(vars, k, v), k) == Without(vars, k)
  {
    if vars != [] {
      if vars[0].key != k {
        WithoutWithVar(vars[1..], k, v);
      } else {
        assert ([Var(k, v)] + vars[1..])[1..] == vars[1..];
      }
    }
  }

  lemma {:induction false} WithoutCommutes(vars: Vars, j: string, k: string)
    ensures Without(Without(vars, j), k) == Without(Without(vars, k), j)
  {
    if vars != [] {
      WithoutCommutes(vars[1..], j, k);
    }
  }

  lemma {:induction false} WithoutTwice(vars: Vars, k: string)
    ensures Without(Without(vars, k), k) == Without(vars, k)
  {
    if vars != [] {
      WithoutTwice(vars[1..], k);
    }
  }

  lemma {:induction false} WithVarAt(vars: Vars, k: string, v: string, i: nat)
    requires i < |vars| && vars[i].key == k && forall j :: 0 <= j < i ==> vars[j].key != k
    ensures WithVar(vars, k, v) == vars[i := Var(k, v)]
  {
    if i > 0 {
      WithVarAt(vars[1..], k, v, i - 1);
      assert vars[i := Var(k, v)] == [vars[0]] + vars[1..][i - 1 := Var(k, v)];
    }
  }

  lemma {:induction false} WithVarMissing(vars: Vars, k: string, v: string)
    requires forall j :: 0 <= j < |vars| ==> vars[j].key != k
    ensures WithVar(vars, k, v) == vars + [Var(k, v)]
  {
    if vars != [] {
      WithVarMissing(vars[1..], k, v);
      assert vars + [Var(k, v)] == [vars[0]] + (vars[1..] + [Var(k, v)]);
    }
  }

  lemma {:induction false} WithoutSnoc(vars: Vars, last: Var, k: string)
    ensures Without(vars + [last], k) == Without(vars, k) + if last.key == k then [] else [last]
  {
    if vars == [] {
      assert [] + [last] == [last] && [last][1..] == [];
    } else {
      WithoutSnoc(vars[1..], last, k);
      assert (vars + [last])[1..] == vars[1..] + [last];
    }
  }

  predicate PlainKeys(vars: Vars) {
    forall v :: v in vars ==> Plain(v.key)
  }

  lemma {:induction false} PlainWithVar(vars: Vars, k: string, v: string)
    requires Plain(k)
    ensures PlainKeys(WithVar(vars, k, v)) == PlainKeys(vars)
  {
    if vars != [] {
      assert PlainKeys(vars) <==> Plain(vars[0].key) && PlainKeys(vars[1..]) by {
        assert vars == [vars[0]] + vars[1..];
      }
      if vars[0].key != k {
        PlainWithVar(vars[1..], k, v);
        PlainCons(vars[0], WithVar(vars[1..], k, v));
      } else {
        PlainCons(Var(k, v), vars[1..]);
      }
    }
  }

  lemma PlainCons(first: Var, rest: Vars)
    ensures PlainKeys([first] + rest) <==> Plain(first.key) && PlainKeys(rest)
  {
    assert forall v :: v in rest ==> v in [first] + rest;
    assert first in [first] + rest;
  }

  lemma {:induction false} PlainWithout(vars: Vars, k: string)
    requires Plain(k)
    ensures PlainKeys(Without(vars, k)) == PlainKeys(vars)
  {
    if vars != [] {
      assert vars == [vars[0]] + vars[1..];
      PlainCons(vars[0], vars[1..]);
      PlainWithout(vars[1..], k);
      PlainCons(vars[0], Without(vars[1..], k));
    }
  }

  // ---- the block in memory -------------------------------------------------

  predicate HasSpecial(s: string) {
    exists i :: 0 <= i < |s| && Special(s[i])
  }

  /** The lines of what is still to be read, after a backslash if `esc`. */
  function LinesFrom(rest: string, esc: bool): (lines: seq<string>)
    ensures lines != []
  {
    if !esc then Lines(rest)
    else if rest == "" then [""]
    else Before(rest[0], Lines(rest[1..]))
  }

  lemma OneMoreByte(lines: seq<string>, cur: string, esc: bool, rest: string)
    requires rest != ""
    ensures var c := rest[0];
      lines + Joined(cur, LinesFrom(rest, esc)) ==
        if esc then lines + Joined(cur + [c], LinesFrom(rest[1..], false))
        else if c == '\\' then lines + Joined(cur, LinesFrom(rest[1..], true))
        else if c == '\n' then lines + [cur] + Joined("", LinesFrom(rest[1..], false))
        else lines + Joined(cur + [c], LinesFrom(rest[1..], false))
  {
    var c, tail := rest[0], Lines(rest[1..]);
    assert cur + ([c] + tail[0]) == cur + [c] + tail[0];
    assert rest[1..] != "" ==> rest[1..][0] == rest[1] && rest[1..][1..] == rest[2..];
    JoinedNothing(tail);
    assert cur + "" == cur;
    assert ([""] + tail)[1..] == tail;
  }

  lemma NothingMore(lines: seq<string>, cur: string, esc: bool)
    ensures lines + Joined(cur, LinesFrom("", esc)) == lines + [cur]
  {
    assert LinesFrom("", esc)[0] == "";
    assert cur + "" == cur;
    assert Joined(cur, LinesFrom("", esc)) == [cur];
  }

  lemma {:induction false} RecordsSnoc(vars: Vars, v: Var)
    ensures Records(vars + [v]) == Records(vars) + Record(v)
  {
    hide Record, Escaped;
    if vars == [] {
      assert [] + [v] == [v] && [v][1..] == [];
      assert Records([v]) == Record(v) + "" == "" + Record(v);
    } else {
      RecordsSnoc(vars[1..], v);
      assert (vars + [v])[1..] == vars[1..] + [v];
      var a, b, c := Record(vars[0]), Records(vars[1..]), Record(v);
      assert a + (b + c) == (a + b) + c;
    }
  }

  lemma {:induction false} EscapedSnoc(v: string, c: char)
    ensures Escaped(v + [c]) == Escaped(v) + Escape(c)
  {
    if v == "" {
      assert "" + [c] == [c] && [c][1..] == "";
      assert Escaped([c]) == Escape(c) + "" == "" + Escape(c);
    } else {
      EscapedSnoc(v[1..], c);
      assert (v + [c])[1..] == v[1..] + [c];
      assert Escape(v[0]) + (Escaped(v[1..]) + Escape(c)) == (Escape(v[0]) + Escaped(v[1..])) + Escape(c);
    }
  }

  lemma EscapedMore(start: string, v: string, j: nat)
    requires j < |v|
    ensures start + Escaped(v[..j + 1]) == (start + Escaped(v[..j])) + Escape(v[j])
  {
    EscapedSnoc(v[..j], v[j]);
    assert v[..j + 1] == v[..j] + [v[j]];
  }

  lemma JoinFive(a: string, b: string, c: string, d: string, e: string)
    ensures a + (b + c + d + e) == a + b + c + d + e
  {
  }

  lemma RecordsMore(start: string, vars: Vars, i: nat)
    requires i < |vars|
    ensures start + Records(vars[..i + 1]) ==
      start + Records(vars[..i]) + vars[i].key + "=" + Escaped(vars[i].value) + "\n"
  {
    RecordsSnoc(vars[..i], vars[i]);
    assert vars[..i + 1] == vars[..i] + [vars[i]];
    JoinFive(start + Records(vars[..i]), vars[i].key, "=", Escaped(vars[i].value), "\n");
    hide Records, Escaped;
    assert start + (Records(vars[..i]) + Record(vars[i])) == (start + Records(vars[..i])) + Record(vars[i]);
  }

  class Env {
    var vars: Vars

    constructor (vars: Vars)
      ensures this.vars == vars
    {
      this.vars := vars;
    }

    static method Parse(data: string) returns (r: Result<Env>)
      ensures r.Ok? <==> Parsed(data).Some?
      ensures r.Ok? ==> fresh(r.value) && Parsed(data) == Some(r.value.vars)
    {
      if !HasHeader(data) {
        return Err("missing GRUB environment block header");
      }
      var body := data[|HEADER|..];
      var lines, cur, esc := [], "", false;
      JoinedNothing(Lines(body));
      assert body[0..] == body;
      hide Lines, LinesFrom, Joined, Before, VarsOn;
      for i := 0 to |body|
        invariant lines + Joined(cur, LinesFrom(body[i..], esc)) == Lines(body)
      {
        var c := body[i];
        OneMoreByte(lines, cur, esc, body[i..]);
        assert body[i..][1..] == body[i + 1..];
        if esc {
          cur, esc := cur + [c], false;
        } else if c == '\\' {
          esc := true;
        } else if c == '\n' {
          lines, cur := lines + [cur], "";
        } else {
          cur := cur + [c];
        }
      }
      assert body[|body|..] == "";
      NothingMore(lines, cur, esc);
      lines := lines + [cur];
      var env := new Env(VarsOn(lines));
      return Ok(env);
    }

    method Serialize(size: nat) returns (r: Result<string>)
      ensures r.Ok? <==> Serialized(vars, size).Some?
      ensures r.Ok? ==> Serialized(vars, size) == Some(r.value)
    {
      var s := HEADER;
      for i := 0 to |vars|
        invariant s == HEADER + Records(vars[..i])
      {
        var v := vars[i];
        var start := s + v.key + "=";
        s := start;
        for j := 0 to |v.value|
          invariant s == start + Escaped(v.value[..j])
        {
          EscapedMore(start, v.value, j);
          ghost var before := s;
          if Special(v.value[j]) {
            s := s + ['\\'];
          }
          s := s + [v.value[j]];
          assert s == before + Escape(v.value[j]);
        }
        assert v.value[..|v.value|] == v.value;
        s := s + "\n";
        RecordsMore(HEADER, vars, i);
      }
      assert vars[..|vars|] == vars;
      if |s| > size {
        return Err("GRUB environment block too small");
      }
      return Ok(s + Padding(size - |s|));
    }

    /** A value the block could not hold literally is refused and nothing changes; else the
        variable reads back and all others read as before, in their order. */
    method Set(k: string, v: string) returns (ok: bool)
      modifies this
      ensures ok <==> !HasSpecial(v)
      ensures vars == if ok then WithVar(old(vars), k, v) else old(vars)
      ensures ok ==> Get(vars, k) == Some(v) && Without(vars, k) == Without(old(vars), k)
    {
      if exists i :: 0 <= i < |v| && Special(v[i]) {
        return false;
      }
      GetWithVar(vars, k, v, k);
      WithoutWithVar(vars, k, v);
      for i := 0 to |vars|
        invariant vars == old(vars)
        invariant forall j :: 0 <= j < i ==> vars[j].key != k
      {
        if vars[i].key == k {
          WithVarAt(vars, k, v, i);
          vars := vars[i := Var(k, v)];
          return true;
        }
      }
      WithVarMissing(vars, k, v);
      vars := vars + [Var(k, v)];
      return true;
    }

    /** The variable is gone, the others are kept in their order. */
    method Unset(k: string)
      modifies this
      ensures vars == Without(old(vars), k)
      ensures Get(vars, k) == None && forall q :: q != k ==> Get(vars, q) == Get(old(vars), q)
    {
      var kept: Vars := [];
      for i := 0 to |vars|
        invariant vars == old(vars)
        invariant kept == Without(vars[..i], k)
      {
        WithoutSnoc(vars[..i], vars[i], k);
        assert vars[..i + 1] == vars[..i] + [vars[i]];
        if vars[i].key != k {
          kept := kept + [vars[i]];
        }
      }
      assert vars[..|vars|] == vars;
      forall q ensures Get(Without(vars, k), q) == if q == k then None else Get(vars, q) {
        GetWithout(vars, k, q);
      }
      vars := kept;
    }
  }

  // ---- the edits of the file -----------------------------------------------

  datatype Edit = ArmTrial(digest: string, attempts: nat) | ClearTrial

  /** The variables after the edit; None if the digest cannot be stored. */
  function Edited(vars: Vars, edit: Edit): Option<Vars> {
    match edit
    case ArmTrial(digest, attempts) =>
      if HasSpecial(digest) then None
      else Some(WithVar(WithVar(WithVar(vars, V_COUNTER, Text(attempts)), V_TARGET, digest), V_FALLBACK, "1"))
    case ClearTrial => Some(Without(Without(Without(vars, V_COUNTER), V_TARGET), V_FALLBACK))
  }

  /** The bytes of the file after the edit, if it can be made. */
  function Updated(data: string, edit: Edit): Option<string> {
    var vars := Parsed(data);
    if vars.None? then None
    else
      var edited := Edited(vars.value, edit);
      if edited.None? then None else Serialized(edited.value, |data|)
  }

  lemma TextHasNoSpecial(n: nat)
    ensures !HasSpecial(Text(n))
  {
    assert forall i :: 0 <= i < |Text(n)| ==> IsDigit(Text(n)[i]);
  }

  method Apply(env: Env, edit: Edit) returns (ok: bool)
    modifies env
    ensures ok <==> Edited(old(env.vars), edit).Some?
    ensures ok ==> Edited(old(env.vars), edit) == Some(env.vars)
  {
    match edit {
      case ArmTrial(digest, attempts) =>
        TextHasNoSpecial(attempts);
        ok := env.Set(V_COUNTER, Text(attempts));
        ok := env.Set(V_TARGET, digest);
        if ok {
          ok := env.Set(V_FALLBACK, "1");
        }
      case ClearTrial =>
        var ks := [V_COUNTER, V_TARGET, V_FALLBACK];
        env.Unset(ks[0]);
        env.Unset(ks[1]);
        env.Unset(ks[2]);
        ok := true;
    }
  }

  /** The file after a write of which only the first `stored` bytes were accepted. */
  function Torn(before: string, after: string, stored: nat): string
    requires |before| == |after|
  {
    var k := if stored < |after| then stored else |after|;
    after[..k] + before[k..]
  }

  /** Rewritten in place, with no truncation: what the device accepts of the block and not
      one byte more. */
  method WriteInPlace(file: array<char>, bytes: string, stored: nat) returns (ok: bool)
    requires |bytes| == file.Length
    modifies file
    ensures file[..] == Torn(old(file[..]), bytes, stored)
    ensures ok <==> file.Length <= stored
  {
    ghost var before := file[..];
    var i := 0;
    while i < file.Length && i < stored
      invariant i <= file.Length && i <= stored
      invariant forall j :: 0 <= j < i ==> file[j] == bytes[j]
      invariant forall j :: i <= j < file.Length ==> file[j] == before[j]
    {
      file[i] := bytes[i];
      i := i + 1;
    }
    assert file[..] == bytes[..i] + before[i..];
    return i == file.Length;
  }

  /** Read, edit, write back, checkpoint /boot. Unless the edit can be made and the file
      opened, not one byte changes. A write cut short, and a failed checkpoint, are reported
      after the fact. */
  method UpdateEnv(file: array<char>, edit: Edit, writable: bool, stored: nat, checkpointed: bool) returns (ok: bool)
    modifies file
    ensures var data := Updated(old(file[..]), edit);
      && (data.Some? ==> |data.value| == file.Length)
      && file[..] == (if data.Some? && writable then Torn(old(file[..]), data.value, stored) else old(file[..]))
      && ok == (data.Some? && writable && file.Length <= stored && checkpointed)
  {
    ghost var before := file[..];
    var env := Env.Parse(file[..]);
    if env.Err? {
      return false;
    }
    var made := Apply(env.value, edit);
    if !made {
      return false;
    }
    var bytes := env.value.Serialize(file.Length);
    if bytes.Err? || !writable {
      return false;
    }
    assert Updated(before, edit) == Some(bytes.value);
    ok := WriteInPlace(file, bytes.value, stored);
    ok := ok && checkpointed;
  }

  /** A write cut short, wherever, leaves a block of the same size that can be read. */
  lemma TornIsReadable(data: string, edit: Edit, stored: nat)
    requires Updated(data, edit).Some?
    ensures var torn := Torn(data, Updated(data, edit).value, stored);
      |torn| == |data| && Parsed(torn).Some?
    ensures stored >= |data| ==> Torn(data, Updated(data, edit).value, stored) == Updated(data, edit).value
  {
    var after := Updated(data, edit).value;
    var torn := Torn(data, after, stored);
    var n := |HEADER|;
    assert after[..n] == HEADER && data[..n] == HEADER;
    forall i | 0 <= i < n ensures torn[i] == HEADER[i] {
      assert after[i] == after[..n][i] && data[i] == data[..n][i];
    }
    assert torn[..n] == HEADER;
  }

  // ---- what an edit does to the trial --------------------------------------

  /** All variables that are not about the trial, in order. */
  function Others(vars: Vars): Vars {
    Without(Without(Without(vars, V_COUNTER), V_TARGET), V_FALLBACK)
  }

  /** In memory, an edit changes the variables of the trial and no others. */
  lemma EditedMeans(vars: Vars, edit: Edit)
    requires Edited(vars, edit).Some?
    ensures var vars' := Edited(vars, edit).value;
      && Others(vars') == Others(vars)
      && (edit.ArmTrial? ==>
            Get(vars', V_COUNTER) == Some(Text(edit.attempts)) &&
            Get(vars', V_TARGET) == Some(edit.digest) && Get(vars', V_FALLBACK) == Some("1"))
      && (edit.ClearTrial? ==>
            Get(vars', V_COUNTER) == Get(vars', V_TARGET) == Get(vars', V_FALLBACK) == None)
  {
    if edit.ArmTrial? {
      ArmMeans(vars, Text(edit.attempts), edit.digest);
    } else {
      ClearMeans(vars);
    }
  }

  lemma ArmMeans(vars: Vars, counter: string, target: string)
    ensures var vars' := WithVar(WithVar(WithVar(vars, V_COUNTER, counter), V_TARGET, target), V_FALLBACK, "1");
      && Others(vars') == Others(vars)
      && Get(vars', V_COUNTER) == Some(counter) && Get(vars', V_TARGET) == Some(target)
      && Get(vars', V_FALLBACK) == Some("1")
  {
    hide Get, WithVar, Without;
    var one := WithVar(vars, V_COUNTER, counter);
    var two := WithVar(one, V_TARGET, target);
    var vars' := WithVar(two, V_FALLBACK, "1");
    GetWithVar(two, V_FALLBACK, "1", V_COUNTER);
    GetWithVar(two, V_FALLBACK, "1", V_TARGET);
    GetWithVar(two, V_FALLBACK, "1", V_FALLBACK);
    GetWithVar(one, V_TARGET, target, V_COUNTER);
    GetWithVar(one, V_TARGET, target, V_TARGET);
    GetWithVar(vars, V_COUNTER, counter, V_COUNTER);
    assert |V_COUNTER| == 10 && |V_TARGET| == 9 && |V_FALLBACK| == 8;
    OthersWithVar(vars, counter, target);
  }

  lemma OthersWithVar(vars: Vars, counter: string, target: string)
    ensures var vars' := WithVar(WithVar(WithVar(vars, V_COUNTER, counter), V_TARGET, target), V_FALLBACK, "1");
      Others(vars') == Others(vars)
  {
    hide WithVar, Without;
    var one := WithVar(vars, V_COUNTER, counter);
    var two := WithVar(one, V_TARGET, target);
    OthersOf(WithVar(two, V_FALLBACK, "1"));
    OthersOf(two);
    WithoutWithVar(two, V_FALLBACK, "1");
    WithoutWithVar(one, V_TARGET, target);
    WithoutWithVar(vars, V_COUNTER, counter);
    OthersOf(one);
    OthersOf(vars);
  }

  /** The three names may be dropped in any order. */
  lemma OthersOf(vars: Vars)
    ensures Others(vars) == Without(Without(Without(vars, V_FALLBACK), V_COUNTER), V_TARGET)
    ensures Others(vars) == Without(Without(Without(vars, V_TARGET), V_COUNTER), V_FALLBACK)
  {
    hide Without;
    WithoutCommutes(vars, V_COUNTER, V_TARGET);
    WithoutCommutes(Without(vars, V_COUNTER), V_TARGET, V_FALLBACK);
    WithoutCommutes(vars, V_COUNTER, V_FALLBACK);
  }

  lemma ClearMeans(vars: Vars)
    ensures var vars' := Others(vars);
      && Others(vars') == vars'
      && Get(vars', V_COUNTER) == Get(vars', V_TARGET) == Get(vars', V_FALLBACK) == None
  {
    hide Get, Without;
    var one := Without(vars, V_COUNTER);
    var two := Without(one, V_TARGET);
    GetWithout(two, V_FALLBACK, V_COUNTER);
    GetWithout(two, V_FALLBACK, V_TARGET);
    GetWithout(two, V_FALLBACK, V_FALLBACK);
    GetWithout(one, V_TARGET, V_COUNTER);
    GetWithout(one, V_TARGET, V_TARGET);
    GetWithout(vars, V_COUNTER, V_COUNTER);
    assert |V_COUNTER| == 10 && |V_TARGET| == 9 && |V_FALLBACK| == 8;
    OthersTwice(vars);
  }

  lemma OthersTwice(vars: Vars)
    ensures Others(Others(vars)) == Others(vars)
  {
    hide Without;
    var a := Without(vars, V_COUNTER);
    var b := Without(a, V_TARGET);
    var c := Without(b, V_FALLBACK);
    OthersOf(c);
    WithoutTwice(b, V_FALLBACK);
    assert Others(c) == Without(Without(c, V_COUNTER), V_TARGET);
    WithoutCommutes(b, V_FALLBACK, V_COUNTER);
    WithoutCommutes(a, V_TARGET, V_COUNTER);
    WithoutTwice(vars, V_COUNTER);
    assert Without(c, V_COUNTER) == c;
    WithoutCommutes(b, V_FALLBACK, V_TARGET);
    WithoutTwice(a, V_TARGET);
  }

  lemma EditedKeepsPlain(vars: Vars, edit: Edit)
    requires Edited(vars, edit).Some?
    ensures PlainKeys(Edited(vars, edit).value) == PlainKeys(vars)
  {
    hide WithVar, Without;
    if edit.ArmTrial? {
      var one := WithVar(vars, V_COUNTER, Text(edit.attempts));
      var two := WithVar(one, V_TARGET, edit.digest);
      PlainWithVar(vars, V_COUNTER, Text(edit.attempts));
      PlainWithVar(one, V_TARGET, edit.digest);
      PlainWithVar(two, V_FALLBACK, "1");
    } else {
      PlainWithout(vars, V_COUNTER);
      PlainWithout(Without(vars, V_COUNTER), V_TARGET);
      PlainWithout(Without(Without(vars, V_COUNTER), V_TARGET), V_FALLBACK);
    }
  }

  predicate KeysAsRead(vars: Vars) {
    forall v :: v in vars ==> '=' !in v.key && !IsComment(v.key)
  }

  lemma {:induction false} WithVarKeys(vars: Vars, k: string, v: string)
    requires KeysAsRead(vars) && '=' !in k && !IsComment(k)
    ensures KeysAsRead(WithVar(vars, k, v))
  {
    if vars != [] && vars[0].key != k {
      WithVarKeys(vars[1..], k, v);
    }
  }

  lemma {:induction false} WithoutKeys(vars: Vars, k: string)
    requires KeysAsRead(vars)
    ensures KeysAsRead(Without(vars, k))
  {
    if vars != [] {
      WithoutKeys(vars[1..], k);
    }
  }

  lemma EditedKeys(vars: Vars, edit: Edit)
    requires KeysAsRead(vars) && Edited(vars, edit).Some?
    ensures KeysAsRead(Edited(vars, edit).value)
  {
    hide WithVar, Without, KeysAsRead;
    if edit.ArmTrial? {
      var one := WithVar(vars, V_COUNTER, Text(edit.attempts));
      WithVarKeys(vars, V_COUNTER, Text(edit.attempts));
      WithVarKeys(one, V_TARGET, edit.digest);
      WithVarKeys(WithVar(one, V_TARGET, edit.digest), V_FALLBACK, "1");
    } else {
      WithoutKeys(vars, V_COUNTER);
      WithoutKeys(Without(vars, V_COUNTER), V_TARGET);
      WithoutKeys(Without(Without(vars, V_COUNTER), V_TARGET), V_FALLBACK);
    }
  }

  /** A whole edit of the file keeps the size of the block, and the block holds exactly
      the variables meant, unless one the file already held has a backslash or a
      newline in its name: then some variable is lost or changed. */
  lemma UpdateIsFaithfulIff(data: string, edit: Edit)
    requires Updated(data, edit).Some?
    ensures |Updated(data, edit).value| == |data|
    ensures Parsed(Updated(data, edit).value) == Edited(Parsed(data).value, edit) <==>
      PlainKeys(Parsed(data).value)
  {
    var vars := Parsed(data).value;
    var edited := Edited(vars, edit).value;
    ReadKeys(Lines(data[|HEADER|..]));
    assert KeysAsRead(vars);
    EditedKeys(vars, edit);
    EditedKeepsPlain(vars, edit);
    RoundTripIff(edited, |data|);
    hide Edited, Parsed, Serialized, Plain;
    assert (forall v :: v in edited ==> SafeKey(v.key)) <==> PlainKeys(edited);
  }

  lemma {:induction false} EscapedIsLonger(v: string)
    ensures |Escaped(v)| >= |v|
  {
    if v != "" {
      EscapedIsLonger(v[1..]);
    }
  }

  /** A block with the one variable `k`, written so that every name is read back. */
  function OneVariable(k: string, v: string): string {
    HEADER + (Escaped(k) + ("=" + Escaped(v) + "\n"))
  }

  lemma OneVariableLines(k: string, v: string)
    ensures Lines(Escaped(k) + ("=" + Escaped(v) + "\n")) == [k + "=" + v, ""]
  {
    var value := Escaped(v) + "\n";
    assert "=" + Escaped(v) + "\n" == "=" + value && value + "" == value;
    ValueLines(v, "");
    assert Lines(value) == [v, ""];
    PlainLines("=", value);
    assert Lines("=" + value) == ["=" + v, ""];
    EscapedLines(k, "=" + value);
    assert k + ("=" + v) == k + "=" + v;
  }

  lemma OneVariableIsRead(k: string, v: string)
    requires '=' !in k && !IsComment(k)
    ensures Parsed(OneVariable(k, v)) == Some([Var(k, v)])
  {
    var data, line := OneVariable(k, v), k + "=" + v;
    assert data[..|HEADER|] == HEADER && data[|HEADER|..] == Escaped(k) + ("=" + Escaped(v) + "\n");
    OneVariableLines(k, v);
    SafeVarOn(Var(k, v));
    TwoLines(line);
  }

  lemma TwoLines(line: string)
    ensures VarsOn([line, ""]) == VarOn(line)
  {
    var last: seq<string> := [line, ""][1..];
    assert last == [""] && VarOn("") == [];
    assert VarsOn(last) == VarOn(last[0]) + VarsOn(last[1..]);
    assert VarsOn(last[1..]) == [];
    assert VarsOn([line, ""]) == VarOn(line) + VarsOn(last);
  }

  /** The variables for which an edit is not faithful do occur: a file may hold any name,
      with its backslashes and newlines escaped. Then to clear a trial that is not even there
      loses or changes the variable. */
  lemma EscapedKeyIsLost(k: string, v: string)
    requires '=' !in k && !IsComment(k) && !Plain(k)
    ensures var data := OneVariable(k, v);
      && Parsed(data) == Some([Var(k, v)]) && !PlainKeys([Var(k, v)])
      && Updated(data, ClearTrial).Some?
      && Parsed(Updated(data, ClearTrial).value) != Some([Var(k, v)])
  {
    var data, vars := OneVariable(k, v), [Var(k, v)];
    OneVariableIsRead(k, v);
    NothingToClear(Var(k, v));
    OneVariableFits(k, v);
    hide Parsed, Edited, Serialized, OneVariable;
    assert vars[0] in vars;
    UpdateIsFaithfulIff(data, ClearTrial);
  }

  lemma OneVariableFits(k: string, v: string)
    ensures Serialized([Var(k, v)], |OneVariable(k, v)|).Some?
  {
    var vars := [Var(k, v)];
    EscapedIsLonger(k);
    assert vars[1..] == [] && Records(vars) == Record(vars[0]) + Records([]);
  }

  lemma NothingToClear(v: Var)
    requires !Plain(v.key)
    ensures Edited([v], ClearTrial) == Some([v])
  {
    assert Plain(V_COUNTER) && Plain(V_TARGET) && Plain(V_FALLBACK);
    OnlyOther(v, V_COUNTER);
    OnlyOther(v, V_TARGET);
    OnlyOther(v, V_FALLBACK);
  }

  lemma OnlyOther(v: Var, k: string)
    requires v.key != k
    ensures Without([v], k) == [v]
  {
    var rest: Vars := [v][1..];
    assert rest == [];
    assert Without(rest, k) == [];
    assert Without([v], k) == [v] + Without(rest, k);
  }

  /** What `trial` reads of the file. */
  function CounterIn(data: string): Option<int> {
    if Parsed(data).None? then None else GetI32(Parsed(data).value, V_COUNTER)
  }

  function TargetIn(data: string): Option<string> {
    if Parsed(data).None? then None else Get(Parsed(data).value, V_TARGET)
  }

  lemma ReadAttempts(n: nat)
    requires n <= MAX_I32
    ensures ParseI32(TrimEnd(TrimStart(Text(n)))) == Some(n)
  {
    var s := Text(n);
    ReadI32(n);
    hide ParseI32, Text;
    assert IsDigit(s[0]) && IsDigit(s[|s| - 1]);
    assert !IsSpace(s[0]) && !IsSpace(s[|s| - 1]);
  }

  predicate AllSpace(s: string) {
    forall i :: 0 <= i < |s| ==> s[i] == ' ' || 9 <= s[i] as int <= 13
  }

  lemma {:induction false} TrimsStart(a: string, s: string)
    requires AllSpace(a) && s != "" && !IsSpace(s[0])
    ensures TrimStart(a + s) == s
  {
    if a == "" {
      assert a + s == s;
    } else {
      assert IsSpace(a[0]) && (a + s)[1..] == a[1..] + s;
      TrimsStart(a[1..], s);
    }
  }

  lemma {:induction false} TrimsEnd(s: string, b: string)
    requires AllSpace(b) && s != "" && !IsSpace(s[|s| - 1])
    ensures TrimEnd(s + b) == s
  {
    if b == "" {
      assert s + b == s;
    } else {
      var k := |b| - 1;
      assert IsSpace(b[k]) && (s + b)[..|s + b| - 1] == s + b[..k];
      TrimsEnd(s, b[..k]);
    }
  }

  /** White space around a counter is ignored. */
  lemma SpacedCounter(vars: Vars, k: string, a: string, n: int, b: string)
    requires Get(vars, k) == Some(a + SignedText(n) + b) && AllSpace(a) && AllSpace(b) && -MAX_I32 - 1 <= n <= MAX_I32
    ensures GetI32(vars, k) == Some(n)
  {
    var s := SignedText(n);
    ReadI32(n);
    SignedEnds(n);
    hide ParseI32, SignedText, Text;
    assert (s + b)[0] == s[0];
    assert a + s + b == a + (s + b);
    TrimsStart(a, s + b);
    TrimsEnd(s, b);
  }

  lemma SignedEnds(n: int)
    ensures var s := SignedText(n); s != "" && !IsSpace(s[0]) && !IsSpace(s[|s| - 1])
  {
    var text := Text(if n < 0 then -n else n);
    assert IsDigit(text[0]) && IsDigit(text[|text| - 1]);
  }

  /** An armed trial is read back with its target and its attempts, a cleared one not at
      all, and every other variable is still there in its place. */
  lemma TrialRoundTrip(data: string, edit: Edit)
    requires Updated(data, edit).Some? && PlainKeys(Parsed(data).value)
    requires edit.ArmTrial? ==> edit.attempts <= MAX_I32
    ensures var data' := Updated(data, edit).value;
      && Parsed(data').Some?
      && Others(Parsed(data').value) == Others(Parsed(data).value)
      && CounterIn(data') == (if edit.ArmTrial? then Some(edit.attempts) else None)
      && TargetIn(data') == (if edit.ArmTrial? then Some(edit.digest) else None)
  {
    UpdateIsFaithfulIff(data, edit);
    EditedMeans(Parsed(data).value, edit);
    if edit.ArmTrial? {
      ReadAttempts(edit.attempts);
    }
  }

  /** The boot state as the protocol sees it. */
  function DiskOf(data: string, order: seq<Protocol.Deployment>): Protocol.Disk {
    var fallback := Parsed(data).Some? && Get(Parsed(data).value, V_FALLBACK) == Some("1");
    Protocol.Grub(CounterIn(data), TargetIn(data), fallback, order)
  }

  /** The edits of the file are the protocol's effects: arming writes its armed disk, and
      clearing forgets the trial, whatever else the block holds. */
  lemma EditsAreEffects(data: string, dep: Protocol.Deployment, attempts: nat, order: seq<Protocol.Deployment>)
    requires Parsed(data).Some? && PlainKeys(Parsed(data).value) && attempts <= MAX_I32
    ensures var armed := Updated(data, ArmTrial(dep.digest, attempts));
      armed.Some? ==> DiskOf(armed.value, order) == Protocol.ArmedDisk(DiskOf(data, order), dep, attempts)
    ensures var cleared := Updated(data, ClearTrial);
      cleared.Some? ==> DiskOf(cleared.value, order) == Protocol.Forget(DiskOf(data, order))
  {
    hide Parsed, Edited, Serialized, PlainKeys, Get, Others;
    var arm := ArmTrial(dep.digest, attempts);
    if Updated(data, arm).Some? {
      TrialRoundTrip(data, arm);
      UpdateIsFaithfulIff(data, arm);
      EditedMeans(Parsed(data).value, arm);
    }
    if Updated(data, ClearTrial).Some? {
      TrialRoundTrip(data, ClearTrial);
      UpdateIsFaithfulIff(data, ClearTrial);
      EditedMeans(Parsed(data).value, ClearTrial);
    }
  }

  /** An edit that leaves room is made: arming can only fail for lack of room, given a
      digest the protocol lets through. */
  lemma SafeDigestIsStored(vars: Vars, digest: string, attempts: nat)
    requires Protocol.IsSafeId(digest)
    ensures Edited(vars, ArmTrial(digest, attempts)).Some?
  {
    assert forall i :: 0 <= i < |digest| ==> digest[i] in digest;
    assert forall i :: 0 <= i < |digest| ==> !Special(digest[i]);
  }
}
