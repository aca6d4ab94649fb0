/** What no run of a GRUB trial can do. See GrubTrial for the setting. */
module GrubSafety {
  import opened Protocol
  import opened History
  import opened Rejection
  import opened GrubTrial

  // ---- the boot order ------------------------------------------------------

  lemma {:induction false} StepKeepsPreviousFirst(m: Machine, e: Event, t: Deployment, p: Deployment, n: nat)
    requires Trial(m, t, p, n) && TrialEvent(m, e) && PreviousFirst(m.disk, t, p)
    ensures Step(m, e).disk.Grub? && Step(m, e).disk.order == m.disk.order
  {
    if m.up.On? && e.Do? {
      match m.up.session.pc
      case Demote(pc) =>
      case Clear(pc) =>
      case Arm(pc) => ArmingNothing(m, pc, e.o);
      case _ =>
    }
  }

  lemma {:induction false} StepKeepsTargetFirstOrSwaps(m: Machine, e: Event, t: Deployment, p: Deployment, n: nat)
    requires Trial(m, t, p, n) && TrialEvent(m, e) && TargetFirst(m.disk, t, p)
    ensures Step(m, e).disk.Grub?
    ensures Step(m, e).disk.order == m.disk.order || PreviousFirst(Step(m, e).disk, t, p)
  {
    StepKeepsTrial(m, e, t, p, n);
    var d := Step(m, e).disk;
    if TargetFirst(d, t, p) { assert d.order == m.disk.order; }
  }

  /** The order leaves [t, p] at most once, and nothing puts `t` first again. */
  lemma {:induction false} OrderFlipsOnce(m: Machine, es: seq<Event>, t: Deployment, p: Deployment, n: nat)
    requires Trial(m, t, p, n) && TrialEvents(m, es)
    ensures Count(m, es, OrderChange) ==
      if TargetFirst(m.disk, t, p) && PreviousFirst(Run(m, es).disk, t, p) then 1 else 0
    ensures PreviousFirst(m.disk, t, p) ==> PreviousFirst(Run(m, es).disk, t, p)
    decreases |es|
  {
    if es != [] {
      var prefix, e := es[..|es| - 1], es[|es| - 1];
      OrderFlipsOnce(m, prefix, t, p, n);
      TrialInvariant(m, prefix, t, p, n);
      var b := Run(m, prefix);
      if PreviousFirst(b.disk, t, p) {
        StepKeepsPreviousFirst(b, e, t, p, n);
      } else {
        StepKeepsTargetFirstOrSwaps(b, e, t, p, n);
      }
    }
  }

  // ---- confirmation --------------------------------------------------------

  predicate TargetKept(m: Machine, t: Deployment, p: Deployment) {
    Cleared(m.disk) && TargetFirst(m.disk, t, p)
  }

  predicate Unconfirmed(m: Machine, t: Deployment, p: Deployment) {
    !TargetKept(m, t, p) && !Confirming(m)
  }

  lemma {:induction false} ClearNeedsPass(m: Machine, pc: ClearPc, o: Outcome, t: Deployment, p: Deployment, n: nat)
    requires Trial(m, t, p, n) && Unconfirmed(m, t, p) && m.up.On? && m.up.session.pc == Clear(pc)
    ensures Unconfirmed(ClearEffect(m, pc, o), t, p)
  {
    assert PreviousFirst(m.disk, t, p);
    assert Forget(m.disk).order == m.disk.order;
  }

  lemma {:induction false} DemoteNeedsPass(m: Machine, pc: DemotePc, o: Outcome, t: Deployment, p: Deployment, n: nat)
    requires Trial(m, t, p, n) && m.up.On? && m.up.session.pc == Demote(pc)
    ensures Unconfirmed(DemoteEffect(m, pc, o), t, p)
  {
  }

  lemma {:induction false} CheckNeedsPass(m: Machine, pc: CheckPc, o: Outcome, t: Deployment, p: Deployment, n: nat)
    requires Trial(m, t, p, n) && Unconfirmed(m, t, p) && m.up.On? && m.up.session.pc == Check(pc)
    ensures Unconfirmed(CheckEffect(m, pc, o), t, p)
  {
  }

  lemma {:induction false} ArmNeedsPass(m: Machine, pc: ArmPc, o: Outcome, t: Deployment, p: Deployment, n: nat)
    requires Trial(m, t, p, n) && Unconfirmed(m, t, p) && m.up.On? && m.up.session.pc == Arm(pc) && !pc.Writing?
    ensures Unconfirmed(ArmEffect(m, pc, o), t, p)
  {
    ArmingNothing(m, pc, o);
  }

  lemma {:induction false} EffectNeedsPass(m: Machine, o: Outcome, t: Deployment, p: Deployment, n: nat)
    requires Trial(m, t, p, n) && m.up.On? && TrialEvent(m, Do(o)) && Unconfirmed(m, t, p)
    ensures Unconfirmed(Effect(m, o), t, p)
  {
    hide DemoteEffect, ClearEffect, CheckEffect, ArmEffect;
    match m.up.session.pc
    case Demote(pc) => DemoteNeedsPass(m, pc, o, t, p, n);
    case Clear(pc) => ClearNeedsPass(m, pc, o, t, p, n);
    case Guard(pc) =>
    case Check(pc) => CheckNeedsPass(m, pc, o, t, p, n);
    case Arm(pc) => ArmNeedsPass(m, pc, o, t, p, n);
    case _ =>
  }

  lemma {:induction false} StepNeedsPass(m: Machine, e: Event, t: Deployment, p: Deployment, n: nat)
    requires Trial(m, t, p, n) && TrialEvent(m, e) && Unconfirmed(m, t, p)
    requires !Is(HealthPass(t), m, e)
    ensures Unconfirmed(Step(m, e), t, p)
  {
    if m.up.On? && e.Do? { EffectNeedsPass(m, e.o, t, p, n); }
  }

  /** `t` ends up first in order with no trial state only after a boot of it in which
      every health check succeeded. */
  lemma {:induction false} ConfirmationNeedsHealthPass(m: Machine, es: seq<Event>, t: Deployment, p: Deployment, n: nat)
    requires Trial(m, t, p, n) && TrialEvents(m, es) && Unconfirmed(m, t, p)
    ensures Count(m, es, HealthPass(t)) == 0 ==> Unconfirmed(Run(m, es), t, p)
    decreases |es|
  {
    if es != [] && Count(m, es, HealthPass(t)) == 0 {
      var prefix, e := es[..|es| - 1], es[|es| - 1];
      ConfirmationNeedsHealthPass(m, prefix, t, p, n);
      TrialInvariant(m, prefix, t, p, n);
      StepNeedsPass(Run(m, prefix), e, t, p, n);
    }
  }

  lemma {:induction false} StepKeepsTarget(m: Machine, e: Event, t: Deployment, p: Deployment, n: nat)
    requires Trial(m, t, p, n) && TrialEvent(m, e) && TargetKept(m, t, p)
    ensures TargetKept(Step(m, e), t, p)
  {
    if m.up.On? && e.Do? {
      match m.up.session.pc
      case Demote(pc) =>
      case Clear(pc) =>
      case Guard(pc) =>
      case Check(pc) =>
      case Arm(pc) => ArmingNothing(m, pc, e.o);
      case _ =>
    }
  }

  /** A confirmed target stays first, whatever boots, checks and failures follow. */
  lemma {:induction false} ConfirmationIsPermanent(m: Machine, es: seq<Event>, t: Deployment, p: Deployment, n: nat)
    requires Trial(m, t, p, n) && TrialEvents(m, es) && TargetKept(m, t, p)
    ensures TargetKept(Run(m, es), t, p)
    decreases |es|
  {
    if es != [] {
      var prefix, e := es[..|es| - 1], es[|es| - 1];
      ConfirmationIsPermanent(m, prefix, t, p, n);
      TrialInvariant(m, prefix, t, p, n);
      StepKeepsTarget(Run(m, prefix), e, t, p, n);
    }
  }

  // ---- rejection -----------------------------------------------------------

  /** Whenever a trial is cleared with a fallback or roll-back verdict, `t` is in the
      rejected list before, unless the append to that list was lost. */
  lemma {:induction false} RejectedBeforeForgotten(m: Machine, es: seq<Event>, t: Deployment, p: Deployment, n: nat)
    requires Trial(m, t, p, n) && TrialEvents(m, es) && !Condemning(m)
    requires Count(m, es, LostRecord) == 0
    ensures Condemning(Run(m, es)) ==> t.digest in Run(m, es).rejected
    decreases |es|
  {
    if es != [] {
      var prefix, e := es[..|es| - 1], es[|es| - 1];
      RejectedBeforeForgotten(m, prefix, t, p, n);
      TrialInvariant(m, prefix, t, p, n);
      if Condemning(Run(m, es)) { CondemnedByRecording(Run(m, prefix), e); }
    }
  }

  /** The trial was ended as failed, or is about to be. */
  predicate Condemned(m: Machine) {
    Cleared(m.disk) || Condemning(m)
  }

  predicate RejectedIfCondemned(m: Machine, t: Deployment) {
    Condemned(m) ==> t.digest in m.rejected
  }

  lemma {:induction false} DemoteRejectsFirst(m: Machine, pc: DemotePc, o: Outcome, t: Deployment, p: Deployment, n: nat)
    requires Trial(m, t, p, n) && m.up.On? && m.up.session.pc == Demote(pc)
    requires !Is(LostRecord, m, Do(o))
    ensures RejectedIfCondemned(DemoteEffect(m, pc, o), t)
  {
  }

  lemma {:induction false} ClearRejectsFirst(m: Machine, pc: ClearPc, o: Outcome, t: Deployment, p: Deployment, n: nat)
    requires Trial(m, t, p, n) && Unconfirmed(m, t, p) && RejectedIfCondemned(m, t)
    requires m.up.On? && m.up.session.pc == Clear(pc)
    ensures RejectedIfCondemned(ClearEffect(m, pc, o), t)
  {
    assert t.digest in m.rejected;
  }

  lemma {:induction false} CheckRejectsFirst(m: Machine, pc: CheckPc, o: Outcome, t: Deployment, p: Deployment, n: nat)
    requires Trial(m, t, p, n) && RejectedIfCondemned(m, t)
    requires m.up.On? && m.up.session.pc == Check(pc)
    ensures RejectedIfCondemned(CheckEffect(m, pc, o), t)
  {
    if InTrial(m.disk, t, n) { JudgeInTrial(m.disk, m.up.session, t, n); } else { JudgeCleared(m.disk, m.up.session); }
  }

  lemma {:induction false} AssessRejectsFirst(m: Machine, t: Deployment, p: Deployment, n: nat)
    requires Trial(m, t, p, n) && RejectedIfCondemned(m, t)
    requires m.up.On? && m.up.session.pc.Loading?
    ensures RejectedIfCondemned(At(m, AssessedPc(m.disk, m.up.session)), t)
  {
    if InTrial(m.disk, t, n) { JudgeInTrial(m.disk, m.up.session, t, n); } else { JudgeCleared(m.disk, m.up.session); }
  }

  lemma {:induction false} StepRejectsFirst(m: Machine, e: Event, t: Deployment, p: Deployment, n: nat)
    requires Trial(m, t, p, n) && TrialEvent(m, e) && Unconfirmed(m, t, p) && RejectedIfCondemned(m, t)
    requires !Is(HealthPass(t), m, e) && !Is(LostRecord, m, e)
    ensures RejectedIfCondemned(Step(m, e), t)
  {
    if m.up.On? && e.Do? {
      match m.up.session.pc
      case Loading => AssessRejectsFirst(m, t, p, n);
      case Demote(pc) => DemoteRejectsFirst(m, pc, e.o, t, p, n);
      case Clear(pc) => ClearRejectsFirst(m, pc, e.o, t, p, n);
      case Check(pc) => CheckRejectsFirst(m, pc, e.o, t, p, n);
      case Arm(pc) => ArmingNothing(m, pc, e.o);
      case _ =>
    }
  }

  /** Hence a trial that is over and that no check ever passed is rejected, too. */
  lemma {:induction false} ForgottenUnpassedIsRejected(m: Machine, es: seq<Event>, t: Deployment, p: Deployment, n: nat)
    requires Trial(m, t, p, n) && TrialEvents(m, es) && InTrial(m.disk, t, n) && m.up.Off?
    requires Count(m, es, HealthPass(t)) == 0 && Count(m, es, LostRecord) == 0
    ensures Condemned(Run(m, es)) ==> t.digest in Run(m, es).rejected
    decreases |es|
  {
    if es != [] {
      var prefix, e := es[..|es| - 1], es[|es| - 1];
      ForgottenUnpassedIsRejected(m, prefix, t, p, n);
      TrialInvariant(m, prefix, t, p, n);
      ConfirmationNeedsHealthPass(m, prefix, t, p, n);
      StepRejectsFirst(Run(m, prefix), e, t, p, n);
    }
  }
}
