/**
  Checks on systemd-boot after the trial of this boot was confirmed. `Backend::trial` reads
  the counter of the boot, not that of the entry, so such a check still takes the boot for
  a trial. If it was the last attempt and the check fails, the confirmed deployment is
  demoted. That happens if and only if a check starts so; without one, a confirmation is
  permanent.
*/
module LateChecks {
  import opened Options
  import opened Assessments
  import opened Protocol
  import opened History
  import opened Services
  import opened SdTrial
  import opened SdServices
  import opened SdSafety

  /** A check runs that will take this boot for a trial on its last attempt. */
  predicate LastCheck(s: Session) {
    LastAttempt(s) && s.pc.Check? && (s.pc.check.Reading? || s.pc.check.Checking? || s.pc.check.Rereading?)
  }

  /** The entry was not demoted after a confirmation, and no running command will do that. */
  predicate Orderly(m: Machine) {
    m.disk.SdBoot? && |m.disk.entries| == 2 && !Revoked(m.disk.entries[0]) &&
    (m.up.On? && (LastCheck(m.up.session) || Demoting(m)) ==> m.disk.entries[0].tries.Some?)
  }

  lemma StartIsOrderly(m: Machine, t: Deployment, p: Deployment, n: nat)
    requires Start(m, t, p, n)
    ensures Trial(m, t, p, n) && Orderly(m)
  {
  }

  lemma {:induction false} CheckKeepsOrderly(m: Machine, pc: CheckPc, o: Outcome, t: Deployment, p: Deployment, n: nat)
    requires Trial(m, t, p, n) && m.up.On? && m.up.session.pc == Check(pc) && Orderly(m)
    ensures Orderly(CheckEffect(m, pc, o))
  {
  }

  lemma {:induction false} DemoteKeepsOrderly(m: Machine, pc: DemotePc, o: Outcome, t: Deployment, p: Deployment, n: nat)
    requires Trial(m, t, p, n) && m.up.On? && m.up.session.pc == Demote(pc) && Orderly(m)
    ensures Orderly(DemoteEffect(m, pc, o))
  {
    DemoteTouchesEntry(m, pc, o, t, p, n);
  }

  lemma {:induction false} ClearKeepsOrderly(m: Machine, pc: ClearPc, o: Outcome, t: Deployment, p: Deployment, n: nat)
    requires Trial(m, t, p, n) && m.up.On? && m.up.session.pc == Clear(pc) && Orderly(m)
    ensures Orderly(ClearEffect(m, pc, o))
  {
    ClearTouchesEntry(m, pc, o, t, p, n);
  }

  lemma {:induction false} LoadKeepsOrderly(m: Machine, o: Outcome, t: Deployment, p: Deployment, n: nat)
    requires Trial(m, t, p, n) && AtPc(m, Loading) && Orderly(m)
    ensures Orderly(At(m, LoadedPc(m.disk, m.up.session, o)))
  {
    if Loads(m.disk, o) { JudgeUnseen(m, o, t, p, n); }
  }

  lemma {:induction false} ArmKeepsOrderly(m: Machine, pc: ArmPc, o: Outcome, t: Deployment, p: Deployment, n: nat)
    requires Trial(m, t, p, n) && m.up.On? && m.up.session.pc == Arm(pc) && !pc.Writing? && Orderly(m)
    ensures Orderly(ArmEffect(m, pc, o))
  {
    ArmingNothing(m, pc, o);
  }

  lemma {:induction false} EffectKeepsOrderly(m: Machine, o: Outcome, t: Deployment, p: Deployment, n: nat)
    requires Trial(m, t, p, n) && m.up.On? && TrialEvent(m, Do(o)) && Orderly(m)
    ensures Orderly(Effect(m, o))
  {
    hide DemoteEffect, ClearEffect, CheckEffect, ArmEffect, LoadedPc, Trial;
    match m.up.session.pc
    case Loading => LoadKeepsOrderly(m, o, t, p, n);
    case Guard(pc) =>
    case Demote(pc) => DemoteKeepsOrderly(m, pc, o, t, p, n);
    case Clear(pc) => ClearKeepsOrderly(m, pc, o, t, p, n);
    case Check(pc) => CheckKeepsOrderly(m, pc, o, t, p, n);
    case Arm(pc) => ArmKeepsOrderly(m, pc, o, t, p, n);
    case _ =>
  }

  lemma {:induction false} StepKeepsOrderly(m: Machine, e: Event, t: Deployment, p: Deployment, n: nat)
    requires Trial(m, t, p, n) && TrialEvent(m, e) && Orderly(m) && !Is(LateCheck, m, e)
    ensures Orderly(Step(m, e))
  {
    if m.up.Off? {
      Chooses(m.disk, t, p, n);
    } else if e.Do? {
      EffectKeepsOrderly(m, e.o, t, p, n);
    }
  }

  lemma {:induction false} RunKeepsOrderly(m: Machine, es: seq<Event>, t: Deployment, p: Deployment, n: nat)
    requires Trial(m, t, p, n) && TrialEvents(m, es) && Orderly(m) && Count(m, es, LateCheck) == 0
    ensures Orderly(Run(m, es))
    decreases |es|
  {
    if es != [] {
      var prefix, e := es[..|es| - 1], es[|es| - 1];
      RunKeepsOrderly(m, prefix, t, p, n);
      TrialInvariant(m, prefix, t, p, n);
      StepKeepsOrderly(Run(m, prefix), e, t, p, n);
    }
  }

  /** Nor was the entry demoted by a boot service that could not read its counter. */
  predicate Intact(m: Machine, t: Deployment, n: nat) {
    Orderly(m) &&
    (CountedEntry(m.disk.entries[0], t, n) || m.disk.entries[0].tries.None?) &&
    (Demoting(m) ==> LastAttempt(m.up.session))
  }

  lemma {:induction false} LoadKeepsIntact(m: Machine, o: Outcome, t: Deployment, p: Deployment, n: nat)
    requires Trial(m, t, p, n) && AtPc(m, Loading) && Intact(m, t, n) && !Is(UnreadCounter(true), m, Do(o))
    ensures Intact(At(m, LoadedPc(m.disk, m.up.session, o)), t, n)
  {
    if Loads(m.disk, o) { JudgeUnseen(m, o, t, p, n); }
  }

  lemma {:induction false} DemoteKeepsIntact(m: Machine, pc: DemotePc, o: Outcome, t: Deployment, p: Deployment, n: nat)
    requires Trial(m, t, p, n) && m.up.On? && m.up.session.pc == Demote(pc) && Intact(m, t, n)
    ensures Intact(DemoteEffect(m, pc, o), t, n)
  {
    DemoteTouchesEntry(m, pc, o, t, p, n);
  }

  lemma {:induction false} ClearKeepsIntact(m: Machine, pc: ClearPc, o: Outcome, t: Deployment, p: Deployment, n: nat)
    requires Trial(m, t, p, n) && m.up.On? && m.up.session.pc == Clear(pc) && Intact(m, t, n)
    ensures Intact(ClearEffect(m, pc, o), t, n)
  {
    ClearTouchesEntry(m, pc, o, t, p, n);
  }

  lemma {:induction false} CheckKeepsIntact(m: Machine, pc: CheckPc, o: Outcome, t: Deployment, p: Deployment, n: nat)
    requires Trial(m, t, p, n) && m.up.On? && m.up.session.pc == Check(pc) && Intact(m, t, n)
    ensures Intact(CheckEffect(m, pc, o), t, n)
  {
    CheckKeepsOrderly(m, pc, o, t, p, n);
    CheckKeepsTrial(m, pc, o, t, p, n);
  }

  lemma {:induction false} ArmKeepsIntact(m: Machine, pc: ArmPc, o: Outcome, t: Deployment, p: Deployment, n: nat)
    requires Trial(m, t, p, n) && m.up.On? && m.up.session.pc == Arm(pc) && !pc.Writing? && Intact(m, t, n)
    ensures Intact(ArmEffect(m, pc, o), t, n)
  {
    ArmingNothing(m, pc, o);
  }

  lemma {:induction false} EffectKeepsIntact(m: Machine, o: Outcome, t: Deployment, p: Deployment, n: nat)
    requires Trial(m, t, p, n) && m.up.On? && TrialEvent(m, Do(o)) && Intact(m, t, n)
    requires !Is(UnreadCounter(true), m, Do(o))
    ensures Intact(Effect(m, o), t, n)
  {
    hide DemoteEffect, ClearEffect, CheckEffect, ArmEffect, LoadedPc, Trial;
    match m.up.session.pc
    case Loading => LoadKeepsIntact(m, o, t, p, n);
    case Guard(pc) =>
    case Demote(pc) => DemoteKeepsIntact(m, pc, o, t, p, n);
    case Clear(pc) => ClearKeepsIntact(m, pc, o, t, p, n);
    case Check(pc) => CheckKeepsIntact(m, pc, o, t, p, n);
    case Arm(pc) => ArmKeepsIntact(m, pc, o, t, p, n);
    case _ =>
  }

  lemma {:induction false} StepKeepsIntact(m: Machine, e: Event, t: Deployment, p: Deployment, n: nat)
    requires Trial(m, t, p, n) && TrialEvent(m, e) && Intact(m, t, n)
    requires !Is(LateCheck, m, e) && !Is(UnreadCounter(true), m, e)
    ensures Intact(Step(m, e), t, n)
  {
    if m.up.Off? {
      Chooses(m.disk, t, p, n);
    } else if e.Do? {
      EffectKeepsIntact(m, e.o, t, p, n);
    }
  }

  lemma {:induction false} RunKeepsIntact(m: Machine, es: seq<Event>, t: Deployment, p: Deployment, n: nat)
    requires Trial(m, t, p, n) && TrialEvents(m, es) && Intact(m, t, n)
    requires Count(m, es, LateCheck) == 0 && Count(m, es, UnreadCounter(true)) == 0
    ensures Intact(Run(m, es), t, n)
    decreases |es|
  {
    if es != [] {
      var prefix, e := es[..|es| - 1], es[|es| - 1];
      RunKeepsIntact(m, prefix, t, p, n);
      TrialInvariant(m, prefix, t, p, n);
      StepKeepsIntact(Run(m, prefix), e, t, p, n);
    }
  }

  /** Without late checks the name of an entry that has a counter tells the attempts made,
      and if every boot service also read its counter, or saw no record, those left. */
  lemma {:induction false} NameTellsTheTries(m: Machine, es: seq<Event>, t: Deployment, p: Deployment, n: nat)
    requires Start(m, t, p, n) && TrialEvents(m, es) && Count(m, es, LateCheck) == 0
    ensures Run(m, es).disk.SdBoot? && |Run(m, es).disk.entries| == 2
    ensures var e := Run(m, es).disk.entries[0];
      e.tries.Some? ==>
        && e.tries.value.done == Count(m, es, BumpedTry(t))
        && (Count(m, es, UnreadCounter(true)) == 0 ==> e.tries.value.left == n - Count(m, es, BumpedTry(t)))
  {
    StartIsOrderly(m, t, p, n);
    TriesAreConserved(m, es, t, p, n);
    RunKeepsOrderly(m, es, t, p, n);
    if Count(m, es, UnreadCounter(true)) == 0 { RunKeepsIntact(m, es, t, p, n); }
  }

  lemma {:induction false} StepKeepsStripped(m: Machine, e: Event, t: Deployment, p: Deployment, n: nat)
    requires Trial(m, t, p, n) && TrialEvent(m, e) && Orderly(m) && m.disk.entries[0].tries.None?
    ensures Step(m, e).disk.SdBoot? && |Step(m, e).disk.entries| == 2 && Step(m, e).disk.entries[0].tries.None?
  {
    if m.up.Off? {
      Chooses(m.disk, t, p, n);
    } else if e.Do? {
      EffectTouchesEntry(m, e.o, t, p, n);
    }
  }

  /** Without late checks a confirmed deployment stays confirmed. */
  lemma {:induction false} ConfirmationIsPermanent(m: Machine, es: seq<Event>, t: Deployment, p: Deployment, n: nat)
    requires Trial(m, t, p, n) && TrialEvents(m, es) && Orderly(m) && m.disk.entries[0].tries.None?
    requires Count(m, es, LateCheck) == 0
    ensures Trial(Run(m, es), t, p, n) && Run(m, es).disk.entries[0].tries.None?
    decreases |es|
  {
    if es != [] {
      var prefix, e := es[..|es| - 1], es[|es| - 1];
      ConfirmationIsPermanent(m, prefix, t, p, n);
      RunKeepsOrderly(m, prefix, t, p, n);
      StepKeepsTrial(Run(m, prefix), e, t, p, n);
      StepKeepsStripped(Run(m, prefix), e, t, p, n);
    }
  }

  lemma RevokedBootsPrevious(m: Machine, t: Deployment, p: Deployment)
    requires m.up.Off? && m.disk == SdBoot([Entry(t, Some(Tries(0, 0))), Entry(p, None)], None)
    ensures var next := Step(m, PowerOn(true, true));
      next.up.On? && next.up.session.booted == p
  {
    assert FirstGood(m.disk.entries[1..]) == 0;
  }

  lemma {:induction false} LateCheckRevokes(m: Machine, t: Deployment, p: Deployment, n: nat)
    requires Trial(m, t, p, n) && Is(LateCheck, m, StartCheck) && !Revoked(m.disk.entries[0])
    ensures var m' := Checked(m, false);
      var next := Step(m', PowerOn(true, true));
      && m.disk.entries[0] == Entry(t, None) && t.digest in m'.rejected
      && m'.up.Off? && m'.disk == SdBoot([Entry(t, Some(Tries(0, 0))), Entry(p, None)], None)
      && next.up.On? && next.up.session.booted == p
  {
    assert m.up.session.booted == t && !Pending(m.disk, m.up.session) && LastAttempt(m.up.session);
    CheckCompletes(m, false, t, p, n);
    assert Demoted(m.disk.entries[0]) == Entry(t, Some(Tries(0, 0)));
    RevokedBootsPrevious(Checked(m, false), t, p);
  }

  lemma PendingUnlessLate(m: Machine, t: Deployment, p: Deployment, n: nat)
    requires Trial(m, t, p, n) && AtPc(m, Idle) && !Is(LateCheck, m, StartCheck) && LastAttempt(m.up.session)
    ensures Pending(m.disk, m.up.session) && Demoted(m.disk.entries[0]) == m.disk.entries[0]
  {
    assert m.up.session.selected.value in m.disk.entries;
  }

  lemma {:induction false} OtherCheckDoesNot(m: Machine, t: Deployment, p: Deployment, n: nat)
    requires Trial(m, t, p, n) && AtPc(m, Idle) && !Is(LateCheck, m, StartCheck) && !Revoked(m.disk.entries[0])
    ensures var m' := Checked(m, false);
      m'.disk.SdBoot? && |m'.disk.entries| == 2 && m'.disk.entries[0] == m.disk.entries[0]
  {
    JudgeAny(m, t, p, n);
    hide Step, AllDone, Judge, Is;
    if Judge(m.disk, m.up.session) != TrialInProgress {
      CheckWithoutTrial(m, false);
    } else {
      CheckCompletes(m, false, t, p, n);
      if LastAttempt(m.up.session) {
        PendingUnlessLate(m, t, p, n);
      }
    }
  }

  /** From any state between two commands, a check that fails demotes the deployment after
      its confirmation if and only if it starts on the last attempt with the counter of the
      booted entry gone. Then the deployment is rejected and `p` boots next; otherwise the
      entry of `t` stays as it is. */
  lemma {:induction false} FailedCheckRevokesIff(m: Machine, t: Deployment, p: Deployment, n: nat)
    requires Trial(m, t, p, n) && AtPc(m, Idle) && !Revoked(m.disk.entries[0])
    ensures Checked(m, false).disk.SdBoot? && |Checked(m, false).disk.entries| == 2
    ensures Revoked(Checked(m, false).disk.entries[0]) <==> Is(LateCheck, m, StartCheck)
    ensures Is(LateCheck, m, StartCheck) ==>
      var next := Step(Checked(m, false), PowerOn(true, true));
      t.digest in Checked(m, false).rejected && next.up.On? && next.up.session.booted == p
  {
    hide Step, Is, AllDone;
    if Is(LateCheck, m, StartCheck) {
      LateCheckRevokes(m, t, p, n);
    } else {
      OtherCheckDoesNot(m, t, p, n);
    }
  }

  /** It does happen: one attempt, a check that passes, and another that fails. */
  lemma {:induction false} SecondCheckRevokes(m: Machine, t: Deployment, p: Deployment)
    requires Start(m, t, p, 1)
    ensures var confirmed := Checked(Booted(m), true);
      var m' := Checked(confirmed, false);
      && AtPc(confirmed, Idle) && confirmed.disk == SdBoot([Entry(t, None), Entry(p, None)], None)
      && m'.disk == SdBoot([Entry(t, Some(Tries(0, 0))), Entry(p, None)], None)
      && t.digest in m'.rejected
  {
    LastBoot(m, t, p);
    var booted := Booted(m);
    CheckCompletes(booted, true, t, p, 1);
    var confirmed := Checked(booted, true);
    assert Trial(confirmed, t, p, 1);
    CheckCompletes(confirmed, false, t, p, 1);
  }
}
