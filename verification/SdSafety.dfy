/** What no run of a systemd-boot trial can do. See SdTrial for the setting. */
module SdSafety {
  import opened Options
  import opened Assessments
  import opened Protocol
  import opened History
  import opened Rejection
  import opened SdTrial

  // ---- confirmation --------------------------------------------------------

  /** The entry of `t` still carries its counter. */
  predicate Unconfirmed(m: Machine) {
    m.disk.SdBoot? && |m.disk.entries| == 2 && m.disk.entries[0].tries.Some? && !Confirming(m)
  }

  lemma {:induction false} ClearTouchesEntry(m: Machine, pc: ClearPc, o: Outcome, t: Deployment, p: Deployment, n: nat)
    requires Trial(m, t, p, n) && m.up.On? && m.up.session.pc == Clear(pc)
    ensures ClearEffect(m, pc, o).disk.SdBoot?
    ensures var m' := ClearEffect(m, pc, o);
      (m'.disk.entries == m.disk.entries || (pc.why.Confirmed? && m'.disk.entries == [Entry(t, None), Entry(p, None)]))
    ensures Confirming(ClearEffect(m, pc, o)) ==> Confirming(m)
  {
    if pc.why.Confirmed? { BlessStrips(m.disk, m.up.session, t, p, n); }
  }

  lemma {:induction false} DemoteTouchesEntry(m: Machine, pc: DemotePc, o: Outcome, t: Deployment, p: Deployment, n: nat)
    requires Trial(m, t, p, n) && m.up.On? && m.up.session.pc == Demote(pc)
    ensures var m' := DemoteEffect(m, pc, o);
      m'.disk.SdBoot? && m'.disk.record == m.disk.record &&
      (m'.disk.entries == m.disk.entries ||
       (Demoting(m) && m'.disk.entries == [Demoted(m.disk.entries[0]), Entry(p, None)]))
    ensures !Confirming(DemoteEffect(m, pc, o))
  {
    MarkBadMarks(m.disk, t, p, n);
  }

  /** A roll-back is about to mark the entry bad. */
  predicate Demoting(m: Machine) {
    m.up.On? && m.up.session.pc.Demote? && m.up.session.pc.demote.MarkingBad? && m.up.session.pc.demote.path.RollBack?
  }

  lemma {:induction false} CheckTouchesNothing(m: Machine, pc: CheckPc, o: Outcome)
    requires m.up.On? && m.up.session.pc == Check(pc)
    ensures CheckEffect(m, pc, o).disk == m.disk && !Confirming(CheckEffect(m, pc, o))
  {
  }

  lemma {:induction false} ArmTouchesNothing(m: Machine, pc: ArmPc, o: Outcome, t: Deployment, p: Deployment, n: nat)
    requires Trial(m, t, p, n) && m.up.On? && m.up.session.pc == Arm(pc) && !pc.Writing?
    ensures ArmEffect(m, pc, o).disk == m.disk && !Confirming(ArmEffect(m, pc, o))
  {
    ArmingNothing(m, pc, o);
  }

  /** Only the blessing strips the counter, only a roll-back sets it, to no tries left, and
      only a verdict starts a confirmation. */
  lemma {:induction false} EffectTouchesEntry(m: Machine, o: Outcome, t: Deployment, p: Deployment, n: nat)
    requires Trial(m, t, p, n) && m.up.On? && TrialEvent(m, Do(o))
    ensures Effect(m, o).disk.SdBoot?
    ensures var m' := Effect(m, o);
      m'.disk.entries == m.disk.entries ||
      (Confirming(m) && m'.disk.entries == [Entry(t, None), Entry(p, None)]) ||
      (Demoting(m) && m'.disk.entries == [Demoted(m.disk.entries[0]), Entry(p, None)])
    ensures Confirming(Effect(m, o)) ==> Confirming(m)
  {
    hide DemoteEffect, ClearEffect, CheckEffect, ArmEffect;
    match m.up.session.pc
    case Loading => if Loads(m.disk, o) { JudgeUnseen(m, o, t, p, n); }
    case Demote(pc) => DemoteTouchesEntry(m, pc, o, t, p, n);
    case Clear(pc) => ClearTouchesEntry(m, pc, o, t, p, n);
    case Guard(pc) =>
    case Check(pc) => CheckTouchesNothing(m, pc, o);
    case Arm(pc) => ArmTouchesNothing(m, pc, o, t, p, n);
    case _ =>
  }

  lemma {:induction false} StepNeedsPass(m: Machine, e: Event, t: Deployment, p: Deployment, n: nat)
    requires Trial(m, t, p, n) && TrialEvent(m, e) && Unconfirmed(m) && !Is(HealthPass(t), m, e)
    ensures Unconfirmed(Step(m, e))
  {
    if m.up.Off? {
      Chooses(m.disk, t, p, n);
    } else if e.Do? {
      EffectTouchesEntry(m, e.o, t, p, n);
    }
  }

  /** The counter of `t` is stripped only after a boot of `t` in which every health check
      succeeded. */
  lemma {:induction false} ConfirmationNeedsHealthPass(m: Machine, es: seq<Event>, t: Deployment, p: Deployment, n: nat)
    requires Trial(m, t, p, n) && TrialEvents(m, es) && Unconfirmed(m)
    requires Count(m, es, HealthPass(t)) == 0
    ensures Unconfirmed(Run(m, es))
    decreases |es|
  {
    if es != [] {
      var prefix, e := es[..|es| - 1], es[|es| - 1];
      ConfirmationNeedsHealthPass(m, prefix, t, p, n);
      TrialInvariant(m, prefix, t, p, n);
      StepNeedsPass(Run(m, prefix), e, t, p, n);
    }
  }

  // ---- rejection -----------------------------------------------------------

  /** Whenever a trial is cleared with a fallback or roll-back verdict, `t` is in the
      rejected list before, unless the append to that list was lost. */
  lemma {:induction false} RejectedBeforeForgotten(m: Machine, es: seq<Event>, t: Deployment, p: Deployment, n: nat)
    requires Trial(m, t, p, n) && TrialEvents(m, es) && !Condemning(m)
    requires Count(m, es, LostRecord) == 0
    ensures Condemning(Run(m, es)) ==> t.digest in Run(m, es).rejected
    decreases |es|
  {
    if es != [] {
      var prefix, e := es[..|es| - 1], es[|es| - 1];
      RejectedBeforeForgotten(m, prefix, t, p, n);
      TrialInvariant(m, prefix, t, p, n);
      if Condemning(Run(m, es)) { CondemnedByRecording(Run(m, prefix), e); }
    }
  }

  /** A trial that no check passed loses its record only when out of tries and rejected. */
  predicate EndsRejected(m: Machine, t: Deployment) {
    m.disk.SdBoot? && (m.disk.record.None? ==> TargetBad(m.disk) && t.digest in m.rejected)
  }

  lemma {:induction false} StepEndsRejected(m: Machine, e: Event, t: Deployment, p: Deployment, n: nat)
    requires Trial(m, t, p, n) && TrialEvent(m, e) && Unconfirmed(m) && EndsRejected(m, t)
    requires Condemning(m) ==> t.digest in m.rejected
    ensures EndsRejected(Step(m, e), t)
  {
    if m.up.Off? {
      Chooses(m.disk, t, p, n);
    } else if e.Do? {
      match m.up.session.pc
      case Demote(pc) => DemoteTouchesEntry(m, pc, e.o, t, p, n);
      case Clear(pc) =>
      case Guard(pc) =>
      case Check(pc) =>
      case Arm(pc) => ArmingNothing(m, pc, e.o);
      case _ =>
    }
  }

  /** Hence a trial that is over and that no check ever passed is rejected, too. */
  lemma {:induction false} ForgottenUnpassedIsRejected(m: Machine, es: seq<Event>, t: Deployment, p: Deployment, n: nat)
    requires Start(m, t, p, n) && TrialEvents(m, es)
    requires Count(m, es, HealthPass(t)) == 0 && Count(m, es, LostRecord) == 0
    ensures EndsRejected(Run(m, es), t)
    decreases |es|
  {
    if es != [] {
      var prefix, e := es[..|es| - 1], es[|es| - 1];
      ForgottenUnpassedIsRejected(m, prefix, t, p, n);
      TrialInvariant(m, prefix, t, p, n);
      ConfirmationNeedsHealthPass(m, prefix, t, p, n);
      RejectedBeforeForgotten(m, prefix, t, p, n);
      StepEndsRejected(Run(m, prefix), e, t, p, n);
    }
  }

  // ---- attempts ------------------------------------------------------------

  lemma {:induction false} StepMakesOneTry(m: Machine, e: Event, t: Deployment, p: Deployment, n: nat)
    requires Trial(m, t, p, n) && TrialEvent(m, e)
    ensures Step(m, e).disk.SdBoot? && |Step(m, e).disk.entries| == 2
    ensures var e0, e1 := m.disk.entries[0], Step(m, e).disk.entries[0];
      && (CountedEntry(e1, t, n) ==> CountedEntry(e0, t, n))
      && (e1.tries.Some? && !Revoked(e1) ==>
            (e0.tries.Some? && e1.tries.value.done == e0.tries.value.done + if Is(BumpedTry(t), m, e) then 1 else 0))
    ensures Is(BumpedTry(t), m, e) ==>
      CountedEntry(m.disk.entries[0], t, n) && CountedEntry(Step(m, e).disk.entries[0], t, n)
    ensures Is(Entered(t), m, e) && m.disk.entries[0].tries.Some? ==> Is(BumpedTry(t), m, e)
  {
    StepKeepsTrial(m, e, t, p, n);
    if m.up.Off? {
      Chooses(m.disk, t, p, n);
    } else if e.Do? {
      EffectTouchesEntry(m, e.o, t, p, n);
    }
  }

  /** A counter that is not that of a revoked entry tells the attempts made; those left are
      the rest of the n, or none. There are at most n attempts in all, stripped, demoted or
      revoked later or not. */
  lemma {:induction false} TriesAreConserved(m: Machine, es: seq<Event>, t: Deployment, p: Deployment, n: nat)
    requires Start(m, t, p, n) && TrialEvents(m, es)
    ensures Trial(Run(m, es), t, p, n)
    ensures var e := Run(m, es).disk.entries[0];
      e.tries.Some? && !Revoked(e) ==>
        e.tries.value.done == Count(m, es, BumpedTry(t)) &&
        (e.tries.value.left == n - Count(m, es, BumpedTry(t)) || e.tries.value.left == 0)
    ensures Count(m, es, BumpedTry(t)) <= n
    decreases |es|
  {
    if es != [] {
      var prefix, e := es[..|es| - 1], es[|es| - 1];
      TriesAreConserved(m, prefix, t, p, n);
      StepKeepsTrial(Run(m, prefix), e, t, p, n);
      StepMakesOneTry(Run(m, prefix), e, t, p, n);
    }
  }

  // ---- an interrupted confirmation -----------------------------------------

  /** A stop after the record was removed and before the counter was stripped. With tries
      left the next boot of `t` is a trial again, which one passing check still blesses, or
      none for a load that cannot read its counter; with none left `p` boots and finds no
      trial. */
  lemma {:induction false} InterruptedConfirm(m: Machine, saved: bool, t: Deployment, p: Deployment, n: nat)
    requires Trial(m, t, p, n) && Confirming(m)
    requires m.disk.record.None? && m.disk.entries[0].tries.Some?
    ensures var off := Step(m, Cut);
      var m' := Step(off, PowerOn(true, saved));
      && m'.up.On? && Trial(m', t, p, n)
      && (m.disk.entries[0].tries.value.left > 0 ==>
            && m'.up.session.booted == t
            && Judge(m'.disk, m'.up.session) == TrialInProgress
            && (forall record :: JudgeSeen(m'.disk, m'.up.session, Unread(true, record)) == Quiet)
            && Bless(m'.disk, m'.up.session.selected) == m'.disk.(entries := [Entry(t, None), Entry(p, None)]))
      && (m.disk.entries[0].tries.value.left == 0 ==>
            m'.up.session.booted == p && Judge(m'.disk, m'.up.session) == Quiet)
  {
    var off := Step(m, Cut);
    StepKeepsTrial(m, Cut, t, p, n);
    var m' := Step(off, PowerOn(true, saved));
    StepKeepsTrial(off, PowerOn(true, saved), t, p, n);
    Chooses(off.disk, t, p, n);
    JudgeAny(m', t, p, n);
    JudgeUnseen(m', Unread(true, true), t, p, n);
    JudgeUnseen(m', Unread(true, false), t, p, n);
    if m.disk.entries[0].tries.value.left > 0 {
      BlessStrips(m'.disk, m'.up.session, t, p, n);
    }
  }
}
