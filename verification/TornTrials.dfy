/**
  Which trial is read after a torn `arm` of a block without one, and after a torn clear of a
  block that ends with one: the counter, the target, the fallback, and how the next boot is
  judged.
*/
module TornTrials {
  import opened Options
  import opened Assessments
  import opened Decimal
  import opened EnvBlock
  import opened GrubEnv
  import opened TornWrites
  import Protocol

  // ---- a torn arm ----------------------------------------------------------

  predicate NoTrial(vars: Vars) {
    forall v :: v in vars ==> v.key !in [V_COUNTER, V_TARGET, V_FALLBACK]
  }

  function TrialVars(counter: string, target: string): (vars: Vars)
    ensures |vars| == 3
  {
    [Var(V_COUNTER, counter), Var(V_TARGET, target), Var(V_FALLBACK, "1")]
  }

  lemma {:induction false} GetMissing(vars: Vars, more: Vars, k: string)
    requires forall v :: v in vars ==> v.key != k
    ensures Get(vars + more, k) == Get(more, k)
  {
    if vars == [] {
      assert vars + more == more;
    } else {
      assert (vars + more)[1..] == vars[1..] + more;
      assert vars[0] in vars;
      GetMissing(vars[1..], more, k);
    }
  }

  lemma ArmAppends(vars: Vars, digest: string, attempts: nat)
    requires NoTrial(vars) && !HasSpecial(digest)
    ensures Edited(vars, ArmTrial(digest, attempts)) == Some(vars + TrialVars(Text(attempts), digest))
  {
    assert |V_COUNTER| == 10 && |V_TARGET| == 9 && |V_FALLBACK| == 8;
    forall i | 0 <= i < |vars| ensures vars[i].key !in [V_COUNTER, V_TARGET, V_FALLBACK] {
      assert vars[i] in vars;
    }
    var c, t := Var(V_COUNTER, Text(attempts)), Var(V_TARGET, digest);
    WithVarMissing(vars, c.key, c.value);
    WithVarMissing(vars + [c], t.key, t.value);
    WithVarMissing(vars + [c] + [t], V_FALLBACK, "1");
    assert vars + [c] + [t] + [Var(V_FALLBACK, "1")] == vars + TrialVars(Text(attempts), digest);
  }

  lemma {:induction false} HashStays(s: string)
    requires s != "" && s[|s| - 1] == '#'
    ensures TrimStart(s) != "" && TrimStart(s)[|TrimStart(s)| - 1] == '#'
  {
    if IsSpace(s[0]) {
      HashStays(s[1..]);
    }
  }

  lemma HashIsNoDigit(s: string)
    requires s != "" && s[|s| - 1] == '#'
    ensures Digits(s) == None
  {
    assert !IsDigit(s[|s| - 1]);
  }

  /** A number cut short is no number. */
  lemma BrokenNumber(s: string)
    requires s != "" && s[|s| - 1] == '#'
    ensures ParseI32(TrimEnd(TrimStart(s))) == None
  {
    HashStays(s);
    var t := TrimStart(s);
    assert !IsSpace('#') && TrimEnd(t) == t;
    HashIsNoDigit(t);
    if |t| > 1 {
      HashIsNoDigit(t[1..]);
    } else {
      assert t[1..] == "" && Digits("") == None;
    }
    assert ParseI32(t) == None;
  }

  /** Where in the file the variables of the trial end: one after the other, behind `vars`. */
  function EndOf(vars: Vars, counter: string, target: string, i: nat): nat
    requires 0 <= i <= 3
  {
    |HEADER + Records(vars)| + (if i > 0 then |V_COUNTER| + |counter| + 2 else 0)
      + (if i > 1 then |V_TARGET| + |target| + 2 else 0) + (if i > 2 then |V_FALLBACK| + 3 else 0)
  }

  lemma TrialCut(counter: string, target: string, j: nat, pad: nat)
    requires Plain(counter) && Plain(target)
    ensures var vars := TrialVars(counter, target);
      var j1, j2 := |V_COUNTER| + |counter| + 2, |V_COUNTER| + |counter| + 2 + |V_TARGET| + |target| + 2;
      && CutValue(vars, V_COUNTER, j, pad) ==
           (if j >= j1 then Some(counter)
            else if j <= |V_COUNTER| then None
            else Some(counter[..j - |V_COUNTER| - 1] + Padding(pad)))
      && CutValue(vars, V_TARGET, j, pad) ==
           (if j >= j2 then Some(target)
            else if j <= j1 + |V_TARGET| then None
            else Some(target[..j - j1 - |V_TARGET| - 1] + Padding(pad)))
      && CutValue(vars, V_FALLBACK, j, pad) ==
           (if j >= j2 + |V_FALLBACK| + 3 then Some("1")
            else if j <= j2 + |V_FALLBACK| then None
            else Some("1"[..j - j2 - |V_FALLBACK| - 1] + Padding(pad)))
  {
    var vars := TrialVars(counter, target);
    assert |V_COUNTER| == 10 && |V_TARGET| == 9 && |V_FALLBACK| == 8;
    forall v | v in vars ensures Record(v) == Line(v) + "\n" {
      PlainRecord(v);
    }
    hide Record;
    assert vars[0] in vars && vars[1] in vars && vars[2] in vars;
    var one, two := vars[1..], vars[2..];
    assert one[1..] == two && two[1..] == [];
    assert |Record(vars[2])| == |V_FALLBACK| + 3;
    assert |Record(vars[1])| == |V_TARGET| + |target| + 2;
    assert |Record(vars[0])| == |V_COUNTER| + |counter| + 2;
    if j >= |Record(vars[0])| + |Record(vars[1])| {
      var j3 := j - |Record(vars[0])| - |Record(vars[1])|;
      assert CutValue(vars, V_FALLBACK, j, pad) == CutValue(one, V_FALLBACK, j - |Record(vars[0])|, pad);
      assert CutValue(one, V_FALLBACK, j - |Record(vars[0])|, pad) == CutValue(two, V_FALLBACK, j3, pad);
    }
  }

  lemma TrialVarsArePlain(vars: Vars, counter: string, target: string)
    requires PlainVars(vars) && Plain(counter) && Plain(target)
    ensures PlainVars(vars + TrialVars(counter, target))
  {
    TrialKeysAreSafe();
    hide SafeKey, Plain;
    var all := vars + TrialVars(counter, target);
    forall v | v in all ensures SafeKey(v.key) && Plain(v.value) {
      assert v in vars || v in TrialVars(counter, target);
    }
  }

  lemma TrialKeysAreSafe()
    ensures SafeKey(V_COUNTER) && SafeKey(V_TARGET) && SafeKey(V_FALLBACK) && Plain("1")
  {
  }

  lemma SafeIsPlain(id: string)
    requires Protocol.IsSafeId(id)
    ensures Plain(id) && !HasSpecial(id)
  {
    assert forall i :: 0 <= i < |id| ==> id[i] in id;
  }

  /** What `arm` writes over a block that holds `vars`. */
  lemma ArmedText(data: string, vars: Vars, digest: string, attempts: nat)
    requires Serialized(vars, |data|) == Some(data) && PlainVars(vars) && NoTrial(vars) && !HasSpecial(digest)
    ensures Parsed(data) == Some(vars)
    ensures Updated(data, ArmTrial(digest, attempts)) == Serialized(vars + TrialVars(Text(attempts), digest), |data|)
  {
    RoundTripIff(vars, |data|);
    ArmAppends(vars, digest, attempts);
  }

  /** `k` reads as its record in the trial was written. */
  predicate Holds(vars: Vars, k: string, counter: string, target: string, stored: nat, start: nat, pad: nat) {
    Get(vars, k) == if stored <= start then None else CutValue(TrialVars(counter, target), k, stored - start, pad)
  }

  lemma ArmTorn(data: string, vars: Vars, digest: string, attempts: nat, stored: nat, k: string)
    requires Serialized(vars, |data|) == Some(data) && PlainVars(vars) && NoTrial(vars) && Protocol.IsSafeId(digest)
    requires Updated(data, ArmTrial(digest, attempts)).Some? && stored <= |data|
    requires k in [V_COUNTER, V_TARGET, V_FALLBACK]
    ensures var torn := Torn(data, Updated(data, ArmTrial(digest, attempts)).value, stored);
      var start := EndOf(vars, Text(attempts), digest, 0);
      Parsed(torn).Some? && Holds(Parsed(torn).value, k, Text(attempts), digest, stored, start, |data| - stored)
  {
    var more := TrialVars(Text(attempts), digest);
    var start := EndOf(vars, Text(attempts), digest, 0);
    SafeIsPlain(digest);
    ArmedText(data, vars, digest, attempts);
    hide Parsed, Get, Records, Serialized, Updated, CutValue;
    if stored <= start {
      assert vars + [] == vars;
      SameRecords(data, vars, [], more, stored);
      GetMissing(vars, [], k);
      NothingHeld(k);
    } else {
      TextIsPlain(attempts);
      TrialVarsArePlain(vars, Text(attempts), digest);
      AddedTorn(data, vars, more, stored, k);
    }
  }

  lemma NothingHeld(k: string)
    ensures Get([], k) == None
  {
  }

  lemma TextIsPlain(n: nat)
    ensures Plain(Text(n))
  {
    assert forall i :: 0 <= i < |Text(n)| ==> IsDigit(Text(n)[i]);
  }

  /** A value of which `j` bytes were written, and padding behind it unless its end was. */
  function CutText(s: string, j: nat, pad: nat): string {
    if j > |s| then s else s[..j] + Padding(pad)
  }

  /** Of a torn `arm`, the counter is read if its line was written to the end, the target also
      if it was cut short, and then with padding behind it. */
  lemma TornArmReads(data: string, vars: Vars, digest: string, attempts: nat, stored: nat, order: seq<Protocol.Deployment>)
    requires Serialized(vars, |data|) == Some(data) && PlainVars(vars) && NoTrial(vars)
    requires Protocol.IsSafeId(digest) && attempts <= MAX_I32
    requires Updated(data, ArmTrial(digest, attempts)).Some? && stored <= |data|
    ensures var torn := Torn(data, Updated(data, ArmTrial(digest, attempts)).value, stored);
      var counterEnd := EndOf(vars, Text(attempts), digest, 1);
      var targetStart := counterEnd + |V_TARGET| + 1;
      && CounterIn(torn) == (if stored >= counterEnd then Some(attempts) else None)
      && TargetIn(torn) ==
           (if stored < targetStart then None else Some(CutText(digest, stored - targetStart, |data| - stored)))
      && (DiskOf(torn, order).fallback <==> stored >= EndOf(vars, Text(attempts), digest, 3))
  {
    hide *;
    var text := Text(attempts);
    SafeIsPlain(digest);
    TextIsPlain(attempts);
    ArmedText(data, vars, digest, attempts);
    TrialFits(vars, text, digest, |data|);
    Ends(vars, text, digest);
    var torn := Torn(data, Updated(data, ArmTrial(digest, attempts)).value, stored);
    ArmTorn(data, vars, digest, attempts, stored, V_COUNTER);
    ArmTorn(data, vars, digest, attempts, stored, V_TARGET);
    ArmTorn(data, vars, digest, attempts, stored, V_FALLBACK);
    ReadTrial(torn, order);
    var start, pad := EndOf(vars, text, digest, 0), |data| - stored;
    ReadCut(Parsed(torn).value, text, digest, stored, start, pad);
    ReadCutCounter(Parsed(torn).value, attempts, digest, stored, start, pad);
  }

  lemma Ends(vars: Vars, counter: string, target: string)
    ensures EndOf(vars, counter, target, 0) == |HEADER| + |Records(vars)|
    ensures EndOf(vars, counter, target, 1) == EndOf(vars, counter, target, 0) + |V_COUNTER| + |counter| + 2
    ensures EndOf(vars, counter, target, 2) == EndOf(vars, counter, target, 1) + |V_TARGET| + |target| + 2
    ensures EndOf(vars, counter, target, 3) == EndOf(vars, counter, target, 2) + |V_FALLBACK| + 3
  {
  }

  lemma ReadTrial(data: string, order: seq<Protocol.Deployment>)
    requires Parsed(data).Some?
    ensures CounterIn(data) == GetI32(Parsed(data).value, V_COUNTER)
    ensures TargetIn(data) == Get(Parsed(data).value, V_TARGET)
    ensures DiskOf(data, order).fallback <==> Get(Parsed(data).value, V_FALLBACK) == Some("1")
  {
  }

  lemma TrialFits(vars: Vars, counter: string, target: string, size: nat)
    requires Plain(counter) && Plain(target) && Serialized(vars + TrialVars(counter, target), size).Some?
    ensures EndOf(vars, counter, target, 3) <= size
  {
    var more := TrialVars(counter, target);
    RecordsBehind(vars, more);
    TrialLength(counter, target);
  }

  lemma TrialLength(counter: string, target: string)
    requires Plain(counter) && Plain(target)
    ensures |Records(TrialVars(counter, target))| ==
      |V_COUNTER| + |counter| + 2 + |V_TARGET| + |target| + 2 + |V_FALLBACK| + 3
  {
    var vars := TrialVars(counter, target);
    var one, two := vars[1..], vars[2..];
    forall v | v in vars ensures |Record(v)| == |v.key| + |v.value| + 2 {
      PlainRecord(v);
    }
    hide Record;
    assert vars[0] in vars && vars[1] in vars && vars[2] in vars;
    assert one[1..] == two && two[1..] == [];
    assert Records(two) == Record(vars[2]) + Records([]);
    assert Records(one) == Record(vars[1]) + Records(two);
  }

  lemma ReadCut(vars: Vars, counter: string, target: string, stored: nat, start: nat, pad: nat)
    requires Plain(counter) && Plain(target)
    requires Holds(vars, V_TARGET, counter, target, stored, start, pad)
    requires Holds(vars, V_FALLBACK, counter, target, stored, start, pad)
    requires pad > 0 || stored >= start + |V_COUNTER| + |counter| + 2 + |V_TARGET| + |target| + 2 + |V_FALLBACK| + 3
    ensures var targetStart := start + |V_COUNTER| + |counter| + 2 + |V_TARGET| + 1;
      && Get(vars, V_TARGET) ==
           (if stored < targetStart then None else Some(CutText(target, stored - targetStart, pad)))
      && (Get(vars, V_FALLBACK) == Some("1") <==> stored >= targetStart + |target| + 1 + |V_FALLBACK| + 3)
  {
    hide Get, CutValue;
    if stored > start {
      TrialCut(counter, target, stored - start, pad);
      assert forall s: string :: |s + Padding(pad)| == |s| + pad;
      assert Padding(1) != "1" by { assert Padding(1)[0] == '#'; }
    }
  }

  lemma ReadCutCounter(vars: Vars, attempts: nat, target: string, stored: nat, start: nat, pad: nat)
    requires attempts <= MAX_I32 && Plain(target)
    requires Holds(vars, V_COUNTER, Text(attempts), target, stored, start, pad)
    requires pad > 0 || stored >= start + |V_COUNTER| + |Text(attempts)| + 2
    ensures GetI32(vars, V_COUNTER) ==
      if stored >= start + |V_COUNTER| + |Text(attempts)| + 2 then Some(attempts) else None
  {
    var text := Text(attempts);
    TextIsPlain(attempts);
    ReadAttempts(attempts);
    hide Get, CutValue, ParseI32, TrimEnd, TrimStart, Text;
    if stored > start {
      var j := stored - start;
      TrialCut(text, target, j, pad);
      if |V_COUNTER| < j < |V_COUNTER| + |text| + 2 {
        BrokenNumber(text[..j - |V_COUNTER| - 1] + Padding(pad));
      }
    }
  }

  /** A digest cut short is none that a trial can be written for. */
  lemma CutIdIsNotSafe(id: string, j: nat, pad: nat)
    ensures j > |id| ==> CutText(id, j, pad) == id
    ensures j <= |id| && pad > 0 ==> !Protocol.IsSafeId(CutText(id, j, pad))
  {
    if j <= |id| && pad > 0 {
      var s := CutText(id, j, pad);
      assert s[j] == '#';
      assert s[j] in s;
    }
  }

  /** How the next boot judges it. An update that is not whole in the file is never taken for
      the deployment that runs; one that is whole is, and the trial is then in progress. */
  lemma TornArmJudged(data: string, vars: Vars, digest: string, attempts: nat, stored: nat, order: seq<Protocol.Deployment>, s: Protocol.Session)
    requires Serialized(vars, |data|) == Some(data) && PlainVars(vars) && NoTrial(vars)
    requires Protocol.IsSafeId(digest) && Protocol.IsSafeId(s.booted.digest) && attempts <= MAX_I32
    requires Updated(data, ArmTrial(digest, attempts)).Some? && stored <= |data|
    ensures var torn := Torn(data, Updated(data, ArmTrial(digest, attempts)).value, stored);
      var targetStart := EndOf(vars, Text(attempts), digest, 1) + |V_TARGET| + 1;
      Protocol.Judge(DiskOf(torn, order), s) ==
        if stored < EndOf(vars, Text(attempts), digest, 1) then Quiet
        else if stored < targetStart then Stale
        else if stored >= EndOf(vars, Text(attempts), digest, 2) && s.booted.digest == digest then TrialInProgress
        else FellBack(CutText(digest, stored - targetStart, |data| - stored))
  {
    hide *;
    var text := Text(attempts);
    SafeIsPlain(digest);
    TextIsPlain(attempts);
    ArmedText(data, vars, digest, attempts);
    TrialFits(vars, text, digest, |data|);
    Ends(vars, text, digest);
    var torn := Torn(data, Updated(data, ArmTrial(digest, attempts)).value, stored);
    TornArmReads(data, vars, digest, attempts, stored, order);
    JudgedByRead(torn, order, s);
    var targetStart := EndOf(vars, text, digest, 1) + |V_TARGET| + 1;
    if stored < targetStart {
      AssessedBy(attempts, digest, s.booted.digest);
    } else {
      var target := CutText(digest, stored - targetStart, |data| - stored);
      CutIdIsNotSafe(digest, stored - targetStart, |data| - stored);
      AssessedBy(attempts, target, s.booted.digest);
    }
  }

  lemma JudgedByRead(data: string, order: seq<Protocol.Deployment>, s: Protocol.Session)
    ensures Protocol.Judge(DiskOf(data, order), s) == Assess(CounterIn(data), TargetIn(data), s.booted.digest)
  {
  }

  lemma AssessedBy(counter: nat, target: string, booted: string)
    ensures Assess(None, None, booted) == Quiet && Assess(Some(counter), None, booted) == Stale
    ensures Assess(Some(counter), Some(target), booted) == if target == booted then TrialInProgress else FellBack(target)
    ensures Assess(None, Some(target), booted) == if target == booted then Exhausted(target) else FellBack(target)
  {
  }

  // ---- a torn clear --------------------------------------------------------

  lemma ClearDrops(vars: Vars, counter: string, target: string)
    requires NoTrial(vars)
    ensures Edited(vars + TrialVars(counter, target), ClearTrial) == Some(vars)
  {
    hide Without;
    assert |V_COUNTER| == 10 && |V_TARGET| == 9 && |V_FALLBACK| == 8;
    var c, t, f := Var(V_COUNTER, counter), Var(V_TARGET, target), Var(V_FALLBACK, "1");
    assert vars + TrialVars(counter, target) == vars + [c] + [t] + [f];
    WithoutSnoc(vars + [c] + [t], f, V_COUNTER);
    WithoutSnoc(vars + [c], t, V_COUNTER);
    WithoutSnoc(vars, c, V_COUNTER);
    NothingWithout(vars, V_COUNTER);
    assert vars + [] == vars;
    assert Without(vars + TrialVars(counter, target), V_COUNTER) == vars + [t] + [f];
    WithoutSnoc(vars + [t], f, V_TARGET);
    WithoutSnoc(vars, t, V_TARGET);
    NothingWithout(vars, V_TARGET);
    assert Without(vars + [t] + [f], V_TARGET) == vars + [f];
    WithoutSnoc(vars, f, V_FALLBACK);
    NothingWithout(vars, V_FALLBACK);
  }

  lemma {:induction false} NothingWithout(vars: Vars, k: string)
    requires forall v :: v in vars ==> v.key != k
    ensures Without(vars, k) == vars
  {
    if vars != [] {
      assert vars[0] in vars;
      NothingWithout(vars[1..], k);
    }
  }

  /** What a clear writes over a block that ends with a trial. */
  lemma ClearedText(data: string, vars: Vars, counter: string, target: string)
    requires Serialized(vars + TrialVars(counter, target), |data|) == Some(data)
    requires PlainVars(vars) && NoTrial(vars) && Plain(counter) && Plain(target)
    ensures Parsed(data) == Some(vars + TrialVars(counter, target))
    ensures Updated(data, ClearTrial) == Serialized(vars, |data|) && Serialized(vars, |data|).Some?
  {
    var more := TrialVars(counter, target);
    TrialVarsArePlain(vars, counter, target);
    RoundTripIff(vars + more, |data|);
    ClearDrops(vars, counter, target);
    RecordsBehind(vars, more);
  }

  lemma GoneOfTrial(counter: string, target: string, j: nat)
    requires Plain(counter) && Plain(target)
    ensures Gone(TrialVars(counter, target), j) ==
      if j < |V_COUNTER| + |counter| + 2 then 1
      else if j < |V_COUNTER| + |counter| + 2 + |V_TARGET| + |target| + 2 then 2 else 3
  {
    var vars := TrialVars(counter, target);
    forall v | v in vars ensures |Record(v)| == |v.key| + |v.value| + 2 {
      PlainRecord(v);
    }
    hide Record;
    assert vars[0] in vars && vars[1] in vars;
    var one, two := vars[1..], vars[2..];
    assert one[1..] == two && two[1..] == [];
    if j >= |Record(vars[0])| {
      assert Gone(vars, j) == 1 + Gone(one, j - |Record(vars[0])|);
    }
    if j >= |Record(vars[0])| + |Record(vars[1])| {
      assert Gone(one, j - |Record(vars[0])|) == 1 + Gone(two, j - |Record(vars[0])| - |Record(vars[1])|);
    }
  }

  lemma TrialVarsOnly(counter: string, target: string)
    requires Plain(counter) && Plain(target)
    ensures PlainVars(TrialVars(counter, target))
  {
    TrialVarsArePlain([], counter, target);
    assert [] + TrialVars(counter, target) == TrialVars(counter, target);
  }

  /** What is left of the trial of a torn clear, behind the other variables. */
  lemma TornClearVars(data: string, vars: Vars, counter: string, target: string, stored: nat)
    requires Serialized(vars + TrialVars(counter, target), |data|) == Some(data)
    requires PlainVars(vars) && NoTrial(vars) && Plain(counter) && Plain(target) && stored <= |data|
    ensures Updated(data, ClearTrial).Some?
    ensures
      var i := FirstLeft(vars, counter, target, stored);
      Parsed(Torn(data, Updated(data, ClearTrial).value, stored)) == Some(vars + TrialVars(counter, target)[i..])
  {
    hide *;
    var more := TrialVars(counter, target);
    ClearedText(data, vars, counter, target);
    Ends(vars, counter, target);
    FirstOfLeft(vars, counter, target, stored);
    if stored <= EndOf(vars, counter, target, 0) {
      assert vars + [] == vars;
      SameRecords(data, vars, more, [], stored);
      assert more[0..] == more;
    } else {
      TrialVarsOnly(counter, target);
      DroppedTorn(data, vars, more, stored);
    }
  }

  /** The first variable of the trial that the clear has not come to. */
  function FirstLeft(vars: Vars, counter: string, target: string, stored: nat): (i: nat)
    ensures i <= 3
  {
    if stored <= EndOf(vars, counter, target, 0) then 0
    else if stored < EndOf(vars, counter, target, 1) then 1
    else if stored < EndOf(vars, counter, target, 2) then 2
    else 3
  }

  lemma FirstOfLeft(vars: Vars, counter: string, target: string, stored: nat)
    requires Plain(counter) && Plain(target)
    ensures stored <= EndOf(vars, counter, target, 0) ==> FirstLeft(vars, counter, target, stored) == 0
    ensures stored > EndOf(vars, counter, target, 0) ==>
      FirstLeft(vars, counter, target, stored) ==
        Gone(TrialVars(counter, target), stored - EndOf(vars, counter, target, 0))
  {
    if stored > EndOf(vars, counter, target, 0) {
      GoneOfTrial(counter, target, stored - EndOf(vars, counter, target, 0));
    }
  }

  /** Of a torn clear, the counter is lost first: until its line is overwritten, the target is
      still read, and until that of the target is, the fallback. */
  lemma TornClearReads(data: string, vars: Vars, counter: string, target: string, stored: nat, order: seq<Protocol.Deployment>)
    requires Serialized(vars + TrialVars(counter, target), |data|) == Some(data)
    requires PlainVars(vars) && NoTrial(vars) && Plain(counter) && Plain(target) && stored <= |data|
    ensures Updated(data, ClearTrial).Some?
    ensures var torn := Torn(data, Updated(data, ClearTrial).value, stored);
      && CounterIn(torn) == (if stored <= EndOf(vars, counter, target, 0) then CounterIn(data) else None)
      && TargetIn(torn) == (if stored < EndOf(vars, counter, target, 1) then Some(target) else None)
      && (DiskOf(torn, order).fallback <==> stored < EndOf(vars, counter, target, 2))
  {
    hide *;
    ClearedText(data, vars, counter, target);
    TornClearVars(data, vars, counter, target, stored);
    Ends(vars, counter, target);
    ReadTrial(data, order);
    ReadTrial(Torn(data, Updated(data, ClearTrial).value, stored), order);
    var i := FirstLeft(vars, counter, target, stored);
    LeftReads(vars, counter, target, i, stored);
    LeftReads(vars, counter, target, 0, stored);
    assert TrialVars(counter, target)[0..] == TrialVars(counter, target);
  }

  lemma LeftReads(vars: Vars, counter: string, target: string, i: nat, stored: nat)
    requires NoTrial(vars) && i <= 3
    ensures var left := vars + TrialVars(counter, target)[i..];
      && GetI32(left, V_COUNTER) == (if i == 0 then ParseI32(TrimEnd(TrimStart(counter))) else None)
      && Get(left, V_TARGET) == (if i <= 1 then Some(target) else None)
      && (Get(left, V_FALLBACK) == Some("1") <==> i <= 2)
    ensures i == FirstLeft(vars, counter, target, stored) ==>
      && (i == 0 <==> stored <= EndOf(vars, counter, target, 0))
      && (i <= 1 <==> stored < EndOf(vars, counter, target, 1))
      && (i <= 2 <==> stored < EndOf(vars, counter, target, 2))
  {
    hide Get, ParseI32, TrimEnd, TrimStart, Records, TrialVars;
    var left := TrialVars(counter, target)[i..];
    GetMissing(vars, left, V_COUNTER);
    GetMissing(vars, left, V_TARGET);
    GetMissing(vars, left, V_FALLBACK);
    TrialGet(counter, target, i);
  }

  lemma {:induction false} TrialGet(counter: string, target: string, i: nat)
    requires i <= 3
    ensures var left := TrialVars(counter, target)[i..];
      && Get(left, V_COUNTER) == (if i == 0 then Some(counter) else None)
      && Get(left, V_TARGET) == (if i <= 1 then Some(target) else None)
      && Get(left, V_FALLBACK) == (if i <= 2 then Some("1") else None)
    decreases 3 - i
  {
    assert |V_COUNTER| == 10 && |V_TARGET| == 9 && |V_FALLBACK| == 8;
    var more := TrialVars(counter, target);
    if i < 3 {
      TrialGet(counter, target, i + 1);
      assert more[i..][1..] == more[i + 1..];
    }
  }

  /** A clear torn inside the line of the counter leaves the target without it: the deployment
      of that target is then judged used up, also one that was being confirmed. */
  lemma TornClearJudged(data: string, vars: Vars, counter: string, target: string, stored: nat, order: seq<Protocol.Deployment>, s: Protocol.Session)
    requires Serialized(vars + TrialVars(counter, target), |data|) == Some(data)
    requires PlainVars(vars) && NoTrial(vars) && Plain(counter) && Plain(target) && stored <= |data|
    ensures Updated(data, ClearTrial).Some?
    ensures Protocol.Judge(DiskOf(Torn(data, Updated(data, ClearTrial).value, stored), order), s) ==
      if stored <= EndOf(vars, counter, target, 0) then Protocol.Judge(DiskOf(data, order), s)
      else if stored >= EndOf(vars, counter, target, 1) then Quiet
      else if s.booted.digest == target then Exhausted(target) else FellBack(target)
  {
    hide *;
    ClearedText(data, vars, counter, target);
    TornClearReads(data, vars, counter, target, stored, order);
    TornClearReads(data, vars, counter, target, 0, order);
    var torn := Torn(data, Updated(data, ClearTrial).value, stored);
    JudgedByRead(torn, order, s);
    JudgedByRead(data, order, s);
    Ends(vars, counter, target);
    TornNothing(data, Updated(data, ClearTrial).value);
    AssessedBy(0, target, s.booted.digest);
  }

  lemma TornNothing(before: string, after: string)
    requires |before| == |after|
    ensures Torn(before, after, 0) == before
  {
  }
}
