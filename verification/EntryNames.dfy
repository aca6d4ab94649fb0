/**
  The boot counter in the file name of a boot entry (bootguard/src/sdboot.rs, and
  section "Boot counting" of the UAPI.1 Boot Loader Specification): `x+3-1.conf` has
  three tries left and one made, `x+3.conf` three left and none made.
*/
module EntryNames {
  import opened Options
  import opened Decimal
  import Protocol

  type Tries = Protocol.Tries

  const CONF := ".conf"

  predicate EndsWith(s: string, suffix: string) {
    |suffix| <= |s| && s[|s| - |suffix|..] == suffix
  }

  function Before(s: string, suffix: string): string
    requires EndsWith(s, suffix)
  {
    s[..|s| - |suffix|]
  }

  /** The parts around the first `c`. */
  function SplitOnce(s: string, c: char): (r: Option<(string, string)>)
    ensures r.None? <==> c !in s
    ensures r.Some? ==> s == r.value.0 + [c] + r.value.1 && c !in r.value.0
  {
    if s == "" then None
    else if s[0] == c then Some(("", s[1..]))
    else
      var r := SplitOnce(s[1..], c);
      if r.Some? then
        assert s == [s[0]] + s[1..];
        Some(([s[0]] + r.value.0, r.value.1))
      else None
  }

  /** The parts around the last `c`. */
  function RSplitOnce(s: string, c: char): (r: Option<(string, string)>)
    ensures r.None? <==> c !in s
    ensures r.Some? ==> s == r.value.0 + [c] + r.value.1 && c !in r.value.1
  {
    if s == "" then None
    else
      var r := RSplitOnce(s[1..], c);
      assert s == [s[0]] + s[1..];
      if r.Some? then Some(([s[0]] + r.value.0, r.value.1))
      else if s[0] == c then Some(("", s[1..]))
      else None
  }

  lemma SplitOnceAt(a: string, c: char, b: string)
    requires c !in a
    ensures SplitOnce(a + [c] + b, c) == Some((a, b))
  {
    var s := a + [c] + b;
    assert s[|a|] == c;
    var (x, y) := SplitOnce(s, c).value;
    assert s == x + [c] + y && s[|x|] == c;
    assert forall i :: 0 <= i < |a| ==> a[i] == s[i];
    assert forall i :: 0 <= i < |x| ==> x[i] == s[i];
    assert |x| == |a|;
    assert x == s[..|x|] && y == s[|x| + 1..] && a == s[..|a|] && b == s[|a| + 1..];
  }

  /** Behind the last `c` there is none. */
  lemma NoneBehind(a: string, c: char, b: string)
    requires c !in b
    ensures forall i :: |a| < i < |a + [c] + b| ==> (a + [c] + b)[i] != c
  {
    forall i | |a| < i < |a + [c] + b| ensures (a + [c] + b)[i] != c {
      assert (a + [c] + b)[i] == b[i - |a| - 1];
    }
  }

  lemma RSplitOnceAt(a: string, c: char, b: string)
    requires c !in b
    ensures RSplitOnce(a + [c] + b, c) == Some((a, b))
  {
    var s := a + [c] + b;
    assert s[|a|] == c;
    var (x, y) := RSplitOnce(s, c).value;
    assert s == x + [c] + y && s[|x|] == c;
    NoneBehind(a, c, b);
    NoneBehind(x, c, y);
    SameSplit(a, x, c, b, y);
  }

  lemma SameSplit(a: string, x: string, c: char, b: string, y: string)
    requires a + [c] + b == x + [c] + y && |a| == |x|
    ensures a == x && b == y
  {
    var s := a + [c] + b;
    assert a == s[..|a|] && x == s[..|x|] && b == s[|a| + 1..] && y == s[|x| + 1..];
  }

  // ---- the codec -----------------------------------------------------------

  /** Both numbers of a counter: what follows the last plus sign. */
  function ParseTries(counter: string): Option<Tries> {
    var parts := SplitOnce(counter, '-');
    var left := ParseU32(if parts.Some? then parts.value.0 else counter);
    var done := ParseU32(if parts.Some? then parts.value.1 else "0");
    if left.Some? && done.Some? then Some(Protocol.Tries(left.value, done.value)) else None
  }

  function ParseCounter(file: string): Option<Tries> {
    if !EndsWith(file, CONF) then None
    else
      var parts := RSplitOnce(Before(file, CONF), '+');
      if parts.None? then None else ParseTries(parts.value.1)
  }

  /** A counter, if the name has one, is cut off; the extension stays. */
  function BaseName(file: string): string {
    if ParseCounter(file).None? then file
    else RSplitOnce(Before(file, CONF), '+').value.0 + CONF
  }

  function Stem(file: string): string {
    var base := BaseName(file);
    if EndsWith(base, CONF) then Before(base, CONF) else base
  }

  function CounterText(left: nat, done: Option<nat>): string {
    Text(left) + (if done.Some? then "-" + Text(done.value) else "")
  }

  function WithTries(file: string, left: nat, done: Option<nat>): string {
    Stem(file) + "+" + CounterText(left, done) + CONF
  }

  lemma ConfEnds(s: string)
    ensures EndsWith(s + CONF, CONF) && Before(s + CONF, CONF) == s
  {
  }

  lemma ReadCounterText(left: nat, done: Option<nat>)
    requires left <= MAX_U32 && (done.Some? ==> done.value <= MAX_U32)
    ensures '+' !in CounterText(left, done)
    ensures ParseTries(CounterText(left, done)) == Some(Protocol.Tries(left, if done.Some? then done.value else 0))
  {
    ReadU32(left);
    if done.Some? {
      ReadU32(done.value);
      assert CounterText(left, done) == Text(left) + ['-'] + Text(done.value);
      SplitOnceAt(Text(left), '-', Text(done.value));
    } else {
      assert CounterText(left, done) == Text(left);
      assert Text(0) == "0";
      ReadU32(0);
    }
  }

  /** The counter written into any file name is read back; the stem stays. */
  lemma {:induction false} CounterRoundTrip(file: string, left: nat, done: Option<nat>)
    requires left <= MAX_U32 && (done.Some? ==> done.value <= MAX_U32)
    ensures ParseCounter(WithTries(file, left, done)) ==
      Some(Protocol.Tries(left, if done.Some? then done.value else 0))
    ensures BaseName(WithTries(file, left, done)) == Stem(file) + CONF
  {
    var stem, text := Stem(file), CounterText(left, done);
    var f := WithTries(file, left, done);
    assert f == stem + ['+'] + text + CONF;
    ConfEnds(stem + ['+'] + text);
    ReadCounterText(left, done);
    RSplitOnceAt(stem, '+', text);
  }

  /** Counting an entry keeps its base name exactly when it is a .conf file. */
  lemma {:induction false} BaseNameKept(file: string, left: nat, done: Option<nat>)
    requires left <= MAX_U32 && (done.Some? ==> done.value <= MAX_U32)
    ensures BaseName(WithTries(file, left, done)) == BaseName(file) <==> EndsWith(file, CONF)
  {
    CounterRoundTrip(file, left, done);
    var base := BaseName(file);
    ConfEnds(Stem(file));
    if ParseCounter(file).Some? {
      ConfEnds(RSplitOnce(Before(file, CONF), '+').value.0);
    } else {
      assert base == file;
    }
    if EndsWith(base, CONF) {
      assert base == Before(base, CONF) + CONF;
    }
  }

  // ---- a trial, in file names ----------------------------------------------

  /** One attempt: the boot loader takes a try; at zero it leaves the entry as it is
      but for the tries made. */
  function Attempted(file: string): string {
    var t := ParseCounter(file);
    if t.None? then file
    else WithTries(file, if t.value.left > 0 then t.value.left - 1 else 0, Some(t.value.done + 1))
  }

  function AttemptedTimes(file: string, n: nat): string {
    if n == 0 then file else Attempted(AttemptedTimes(file, n - 1))
  }

  /** Demotion by name: no tries left, those made kept. */
  function DemotedName(file: string): string {
    var t := ParseCounter(file);
    if t.Some? && t.value.left == 0 then file
    else WithTries(file, 0, if t.Some? then Some(t.value.done) else None)
  }

  lemma WithTriesIsConf(file: string, left: nat, done: Option<nat>)
    ensures EndsWith(WithTries(file, left, done), CONF)
  {
    ConfEnds(Stem(file) + "+" + CounterText(left, done));
  }

  /** The whole of one renaming of a .conf file. */
  lemma Renamed(file: string, left: nat, done: Option<nat>)
    requires EndsWith(file, CONF)
    requires left <= MAX_U32 && (done.Some? ==> done.value <= MAX_U32)
    ensures var f := WithTries(file, left, done);
      EndsWith(f, CONF) && BaseName(f) == BaseName(file) &&
      ParseCounter(f) == Some(Protocol.Tries(left, if done.Some? then done.value else 0))
  {
    CounterRoundTrip(file, left, done);
    BaseNameKept(file, left, done);
    WithTriesIsConf(file, left, done);
  }

  /** After `n` attempts of an entry armed with `tries`, the name says so: tries left and
      made add up to those given, and the base name is still that of the staged entry. */
  lemma {:induction false} AttemptsInName(file: string, tries: nat, n: nat)
    requires EndsWith(file, CONF) && n <= tries <= MAX_U32
    ensures var f := AttemptedTimes(WithTries(file, tries, None), n);
      EndsWith(f, CONF) && BaseName(f) == BaseName(file) &&
      ParseCounter(f) == Some(Protocol.Tries(tries - n, n))
  {
    hide EndsWith, BaseName, ParseCounter, WithTries;
    if n == 0 {
      Renamed(file, tries, None);
    } else {
      AttemptsInName(file, tries, n - 1);
      Renamed(AttemptedTimes(WithTries(file, tries, None), n - 1), tries - n, Some(n));
    }
  }

  /** A whole trial of an entry that had no counter: after any number of attempts, to
      strip the counter gives back the very name it was staged under. */
  lemma {:induction false} TrialGivesNameBack(file: string, tries: nat, n: nat)
    requires EndsWith(file, CONF) && ParseCounter(file).None? && n <= tries <= MAX_U32
    ensures BaseName(AttemptedTimes(WithTries(file, tries, None), n)) == file
  {
    AttemptsInName(file, tries, n);
  }

  /** The renamings are the steps of the protocol: read as a counter, a name after an
      attempt, a demotion or a stripping is the entry after that step. */
  lemma {:induction false} NamesFollowEntries(file: string, dep: Protocol.Deployment)
    requires EndsWith(file, CONF)
    requires ParseCounter(file).Some? ==> ParseCounter(file).value.done < MAX_U32
    ensures Protocol.Entry(dep, ParseCounter(Attempted(file))) ==
      Protocol.Bumped(Protocol.Entry(dep, ParseCounter(file)))
    ensures Protocol.Entry(dep, ParseCounter(DemotedName(file))) ==
      Protocol.Demoted(Protocol.Entry(dep, ParseCounter(file)))
    ensures BaseName(Attempted(file)) == BaseName(DemotedName(file)) == BaseName(file)
  {
    TriesInRange(file);
    hide EndsWith, BaseName, ParseCounter, WithTries;
    var t := ParseCounter(file);
    if t.Some? {
      Renamed(file, if t.value.left > 0 then t.value.left - 1 else 0, Some(t.value.done + 1));
    }
    if t.None? || t.value.left > 0 {
      Renamed(file, 0, if t.Some? then Some(t.value.done) else None);
    }
  }

  lemma TriesInRange(file: string)
    ensures var t := ParseCounter(file);
      t.Some? ==> t.value.left <= MAX_U32 && t.value.done <= MAX_U32
  {
  }

  /** Stripping leaves a counter behind exactly when the base name ends in one itself:
      of `x+1+3.conf` remains `x+1.conf`. */
  lemma {:induction false} StrippingUncoversTheStem(stem: string, tries: nat)
    requires tries <= MAX_U32
    ensures var f := stem + "+" + Text(tries) + CONF;
      ParseCounter(f).Some? && ParseCounter(BaseName(f)) == ParseCounter(stem + CONF)
  {
    ReadCounterText(tries, None);
    assert CounterText(tries, None) == Text(tries);
    ConfEnds(stem + "+" + Text(tries));
    RSplitOnceAt(stem, '+', Text(tries));
  }

  /** A counter of two parts is read if and only if both are numbers. */
  lemma CounterReadIff(stem: string, a: string, b: string)
    requires '+' !in a && '-' !in a && '+' !in b
    ensures ParseCounter(stem + "+" + a + "-" + b + ".conf") ==
      if ParseU32(a).Some? && ParseU32(b).Some?
      then Some(Protocol.Tries(ParseU32(a).value, ParseU32(b).value)) else None
  {
    var counter := a + ['-'] + b;
    var f := stem + ['+'] + counter;
    assert stem + "+" + a + "-" + b + ".conf" == f + CONF;
    hide ParseU32;
    ConfEnds(f);
    RSplitOnceAt(stem, '+', counter);
    SplitOnceAt(a, '-', b);
  }
}
