/**
  One systemd-boot trial of the deployment `t`, with `p` the deployment that was
  running when `t` was staged: the entry of `t` sorts first, the entry of `p` carries
  no counter. As for GRUB, every statement is about every run. What the counter of a boot
  was stays known for that boot after it is stripped, so a later check of the same boot is
  still a trial (see LateChecks).
*/
module SdTrial {
  import opened Options
  import opened Assessments
  import opened Protocol

  /** The counted entry of `t`: tries left and tries made always add up to `n`. */
  predicate CountedEntry(e: Entry, t: Deployment, n: nat) {
    e.dep == t && e.tries.Some? && e.tries.value.left + e.tries.value.done == n
  }

  /** The entry of `t` demoted: no tries left, those made kept. */
  predicate DemotedEntry(e: Entry, t: Deployment, n: nat) {
    e.dep == t && Bad(e) && e.tries.value.done <= n
  }

  /** A stripped entry demoted again: no tries left, and none made. */
  predicate Revoked(e: Entry) {
    e.tries == Some(Tries(0, 0))
  }

  predicate Entries(d: Disk, t: Deployment, p: Deployment, n: nat) {
    && d.SdBoot? && |d.entries| == 2
    && d.entries[0].dep == t
    && (CountedEntry(d.entries[0], t, n) || d.entries[0].tries.None? || DemotedEntry(d.entries[0], t, n))
    && d.entries[1] == Entry(p, None)
    && (d.record == None || d.record == Some(t))
    && (d.entries[0].tries.None? || Revoked(d.entries[0]) ==> d.record.None?)
  }

  predicate TargetBad(d: Disk) {
    d.SdBoot? && |d.entries| == 2 && Bad(d.entries[0])
  }

  /** The entry we booted still has its counter. */
  predicate Pending(d: Disk, s: Session) {
    d.SdBoot? && |d.entries| == 2 && s.selected == Some(d.entries[0])
  }

  predicate BootedOk(d: Disk, s: Session, t: Deployment, p: Deployment, n: nat) {
    d.SdBoot? && |d.entries| == 2 &&
    if s.booted == p then s.selected.None? && TargetBad(d)
    else
      s.booted == t &&
      if s.selected.None? then d.entries[0].tries.None?
      else CountedEntry(s.selected.value, t, n) && s.selected.value.tries.value.done > 0 && ComesFrom(d.entries[0], s.selected.value)
  }

  /** All that can become of the entry we booted: kept, demoted, stripped, or both. */
  predicate ComesFrom(e: Entry, booted: Entry) {
    e == booted || e == Demoted(booted) || e.tries.None? || Revoked(e)
  }

  /** Booted `t` on its last attempt. */
  predicate LastAttempt(s: Session) {
    s.selected.Some? && Bad(s.selected.value)
  }

  predicate PcOk(d: Disk, s: Session, t: Deployment, p: Deployment)
    requires d.SdBoot?
  {
    match s.pc
    case Demote(pc) => DemoteOk(d, s, pc, t, p)
    case Clear(pc) => ClearOk(d, s, pc, t, p)
    case Check(pc) =>
      pc.Checking? || pc.Rereading? ==>
        s.booted == t && s.selected.Some? && pc.counter == TrialCounter(d, s)
    case Arm(pc) => ArmsNothing(pc)
    case _ => true
  }

  predicate DemoteOk(d: Disk, s: Session, pc: DemotePc, t: Deployment, p: Deployment)
    requires d.SdBoot?
  {
    (pc.MarkingBad? || pc.Recording?) &&
    pc.path.target == t.digest && s.booted == (if pc.path.FallBack? then p else t) &&
    (pc.path.RollBack? ==> s.selected.Some? && (pc.path.inCheck ==> LastAttempt(s))) &&
    (pc.Recording? ==> TargetBad(d)) &&
    (pc.MarkingBad? && pc.path.FallBack? ==> d.record.Some?)
  }

  predicate ClearOk(d: Disk, s: Session, pc: ClearPc, t: Deployment, p: Deployment)
    requires d.SdBoot?
  {
    if pc.why.Confirmed? then
      s.booted == t && s.selected.Some? && (pc.Blessing? ==> d.record.None?)
    else
      (pc.why.FellBackHome? || pc.why.RolledBack?) && pc.Forgetting? && TargetBad(d) &&
      s.booted == (if pc.why.FellBackHome? then p else t)
  }

  predicate Trial(m: Machine, t: Deployment, p: Deployment, n: nat) {
    && t.digest != p.digest && t.id != p.id && n >= 1
    && Entries(m.disk, t, p, n)
    && (m.up.On? ==> BootedOk(m.disk, m.up.session, t, p, n) && PcOk(m.disk, m.up.session, t, p))
  }

  /** The state the finalizer leaves behind an armed update. */
  predicate Start(m: Machine, t: Deployment, p: Deployment, n: nat) {
    && t.digest != p.digest && t.id != p.id && n >= 1 && m.up.Off?
    && m.disk == SdBoot([Entry(t, Some(Tries(n, 0))), Entry(p, None)], Some(t))
  }

  lemma JudgePrevious(d: Disk, s: Session, t: Deployment, p: Deployment, n: nat)
    requires Entries(d, t, p, n) && BootedOk(d, s, t, p, n) && t.digest != p.digest && s.booted == p
    ensures Judge(d, s) == if d.record.Some? then FellBack(t.digest) else Quiet
  {
  }

  lemma JudgeTarget(d: Disk, s: Session, t: Deployment, p: Deployment, n: nat)
    requires Entries(d, t, p, n) && BootedOk(d, s, t, p, n) && s.booted == t != p
    ensures Judge(d, s) == if s.selected.Some? then TrialInProgress else Quiet
    ensures TrialCounter(d, s) == if s.selected.Some? then Some(s.selected.value.tries.value.left) else None
  {
  }

  lemma Chooses(d: Disk, t: Deployment, p: Deployment, n: nat)
    requires Entries(d, t, p, n)
    ensures Choice(d.entries) == if Bad(d.entries[0]) then 1 else 0
  {
    assert FirstGood(d.entries[1..]) == 0;
  }

  lemma {:induction false} BootKeepsTrial(m: Machine, loads: bool, t: Deployment, p: Deployment, n: nat)
    requires Trial(m, t, p, n) && m.up.Off?
    ensures Trial(SdBootBoot(m, loads), t, p, n)
  {
    Chooses(m.disk, t, p, n);
    if Bad(m.disk.entries[0]) {
      assert m.disk.entries[1 := Bumped(m.disk.entries[1])] == m.disk.entries;
    }
  }

  lemma {:induction false} JudgeAny(m: Machine, t: Deployment, p: Deployment, n: nat)
    requires Trial(m, t, p, n) && m.up.On?
    ensures Judge(m.disk, m.up.session) ==
      if m.up.session.booted == p then (if m.disk.record.Some? then FellBack(t.digest) else Quiet)
      else if m.up.session.selected.Some? then TrialInProgress else Quiet
  {
    if m.up.session.booted == p { JudgePrevious(m.disk, m.up.session, t, p, n); }
    else { JudgeTarget(m.disk, m.up.session, t, p, n); }
  }

  /** What a load judges that may not see the counter of its boot, or the record. */
  lemma {:induction false} JudgeUnseen(m: Machine, o: Outcome, t: Deployment, p: Deployment, n: nat)
    requires Trial(m, t, p, n) && m.up.On? && (o.Unread? || o == Done)
    ensures JudgeSeen(m.disk, m.up.session, o) ==
      var recorded := SeenDisk(m.disk, o).record.Some?;
      if m.up.session.booted == p then (if recorded then FellBack(t.digest) else Quiet)
      else if SeenSession(m.disk, m.up.session, o).selected.Some? then TrialInProgress
      else if recorded then Exhausted(t.digest)
      else Quiet
  {
  }

  lemma {:induction false} AssessKeepsTrial(m: Machine, o: Outcome, t: Deployment, p: Deployment, n: nat)
    requires Trial(m, t, p, n) && m.up.On? && m.up.session.pc.Loading?
    ensures Trial(At(m, LoadedPc(m.disk, m.up.session, o)), t, p, n)
  {
    if Loads(m.disk, o) { JudgeUnseen(m, o, t, p, n); }
  }

  lemma {:induction false} GuardKeepsTrial(m: Machine, pc: GuardPc, o: Outcome, t: Deployment, p: Deployment, n: nat)
    requires Trial(m, t, p, n) && m.up.On? && m.up.session.pc == Guard(pc)
    ensures Trial(GuardEffect(m, pc, o), t, p, n)
  {
  }

  /** Marking the target's entry bad changes nothing when it has no tries left. */
  lemma MarkBadMarks(d: Disk, t: Deployment, p: Deployment, n: nat)
    requires Entries(d, t, p, n)
    ensures MarkBad(d.entries, t.id) == [Demoted(d.entries[0]), d.entries[1]]
    ensures FindEntry(d.entries, t.id) == Some(0)
    ensures TargetBad(d) ==> MarkBad(d.entries, t.id) == d.entries
  {
    assert d.entries[0 := Demoted(d.entries[0])] == [Demoted(d.entries[0]), d.entries[1]];
    assert d.entries == [d.entries[0], d.entries[1]];
  }

  lemma {:induction false} DemoteKeepsTrial(m: Machine, pc: DemotePc, o: Outcome, t: Deployment, p: Deployment, n: nat)
    requires Trial(m, t, p, n) && m.up.On? && m.up.session.pc == Demote(pc)
    ensures Trial(DemoteEffect(m, pc, o), t, p, n)
  {
    MarkBadMarks(m.disk, t, p, n);
  }

  /** Blessing strips the entry we booted if it still has its counter. */
  lemma BlessStrips(d: Disk, s: Session, t: Deployment, p: Deployment, n: nat)
    requires Entries(d, t, p, n) && BootedOk(d, s, t, p, n) && s.booted == t != p && s.selected.Some? && n >= 1
    ensures Bless(d, s.selected) == if Pending(d, s) then d.(entries := [Entry(t, None), Entry(p, None)]) else d
  {
    var x, es := s.selected.value, d.entries;
    var rest := es[1..];
    assert rest[1..] == [];
    assert Strip(rest, x) == [rest[0]] + Strip(rest[1..], x) == [es[1]];
    assert Strip(es, x) == [if es[0] == x then x.(tries := None) else es[0]] + Strip(rest, x);
    assert es == [es[0], es[1]];
  }

  lemma {:induction false} ClearKeepsTrial(m: Machine, pc: ClearPc, o: Outcome, t: Deployment, p: Deployment, n: nat)
    requires Trial(m, t, p, n) && m.up.On? && m.up.session.pc == Clear(pc)
    ensures Trial(ClearEffect(m, pc, o), t, p, n)
  {
    if pc.why.Confirmed? { BlessStrips(m.disk, m.up.session, t, p, n); }
  }

  lemma {:induction false} CheckKeepsTrial(m: Machine, pc: CheckPc, o: Outcome, t: Deployment, p: Deployment, n: nat)
    requires Trial(m, t, p, n) && m.up.On? && m.up.session.pc == Check(pc)
    ensures Trial(CheckEffect(m, pc, o), t, p, n)
  {
    if Loads(m.disk, o) { JudgeUnseen(m, o, t, p, n); }
    if m.up.session.booted == t { JudgeTarget(m.disk, m.up.session, t, p, n); }
  }

  lemma {:induction false} EffectKeepsTrial(m: Machine, o: Outcome, t: Deployment, p: Deployment, n: nat)
    requires Trial(m, t, p, n) && m.up.On? && TrialEvent(m, Do(o))
    ensures Trial(Effect(m, o), t, p, n)
  {
    match m.up.session.pc
    case Loading => AssessKeepsTrial(m, o, t, p, n);
    case Guard(pc) => GuardKeepsTrial(m, pc, o, t, p, n);
    case Demote(pc) => DemoteKeepsTrial(m, pc, o, t, p, n);
    case Clear(pc) => ClearKeepsTrial(m, pc, o, t, p, n);
    case Check(pc) => CheckKeepsTrial(m, pc, o, t, p, n);
    case Arm(pc) => ArmingNothing(m, pc, o);
    case _ =>
  }

  lemma {:induction false} StepKeepsTrial(m: Machine, e: Event, t: Deployment, p: Deployment, n: nat)
    requires Trial(m, t, p, n) && TrialEvent(m, e)
    ensures Trial(Step(m, e), t, p, n)
  {
    if m.up.Off? {
      if e.PowerOn? { BootKeepsTrial(m, e.loads, t, p, n); }
    } else if e.Do? {
      EffectKeepsTrial(m, e.o, t, p, n);
    }
  }

  lemma {:induction false} TrialInvariant(m: Machine, es: seq<Event>, t: Deployment, p: Deployment, n: nat)
    requires Trial(m, t, p, n) && TrialEvents(m, es)
    ensures Trial(Run(m, es), t, p, n)
    ensures Entries(Run(m, es).disk, t, p, n)
    decreases |es|
  {
    if es != [] {
      TrialInvariant(m, es[..|es| - 1], t, p, n);
      StepKeepsTrial(Run(m, es[..|es| - 1]), es[|es| - 1], t, p, n);
    }
  }
}
