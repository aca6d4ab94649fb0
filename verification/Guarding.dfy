/**
  No unguarded trial runs: once `cmd_boot` is past, a boot the boot loader counts as a
  trial has a live watchdog or a confirmed marker, on both backends, even when
  `bootc status` fails and only the boot loader's state tells that a trial is armed.
*/
module Guarding {
  import opened Assessments
  import opened Protocol
  import opened History
  import opened Services
  import GrubTrial
  import SdTrial
  import SdSafety

  /** The boot service is over: nothing runs, or `cmd_check` does. */
  predicate PastBoot(pc: Pc) {
    match pc
    case Idle => true
    case Check(_) => true
    case Demote(d) => !d.Rechecking? && InCheck(d.path)
    case Clear(c) => c.why.Confirmed? || (c.why.RolledBack? && c.why.inCheck) || (c.why.Abandoned? && c.why.inCheck)
    case _ => false
  }

  predicate Guarded(m: Machine) {
    m.up.On? && PastBoot(m.up.session.pc) && Protocol.Armed(m.disk, m.up.session) ==>
      m.up.session.watchdog || m.up.session.confirmed
  }

  // ---- GRUB ----------------------------------------------------------------

  lemma {:induction false} GrubDemoteGuards(m: Machine, pc: DemotePc, o: Outcome, t: Deployment, p: Deployment, n: nat)
    requires GrubTrial.Trial(m, t, p, n) && m.up.On? && m.up.session.pc == Demote(pc) && Guarded(m)
    ensures Guarded(DemoteEffect(m, pc, o))
  {
    match pc
    case ReadingDefault(path) =>
    case Swapping(path) =>
    case Rechecking(_) =>
    case MarkingBad(path) =>
    case Recording(path) =>
  }

  lemma {:induction false} GrubClearGuards(m: Machine, pc: ClearPc, o: Outcome, t: Deployment, p: Deployment, n: nat)
    requires GrubTrial.Trial(m, t, p, n) && m.up.On? && m.up.session.pc == Clear(pc) && Guarded(m)
    ensures Guarded(ClearEffect(m, pc, o))
  {
    match pc.why
    case FellBackHome =>
    case RolledBack(_) =>
    case Confirmed =>
  }

  lemma {:induction false} GrubAssessGuards(m: Machine, t: Deployment, p: Deployment, n: nat)
    requires GrubTrial.Trial(m, t, p, n) && AtPc(m, Loading)
    ensures Guarded(At(m, AssessedPc(m.disk, m.up.session)))
  {
    if GrubTrial.InTrial(m.disk, t, n) { GrubTrial.JudgeInTrial(m.disk, m.up.session, t, n); }
    else { GrubTrial.JudgeCleared(m.disk, m.up.session); }
  }

  lemma {:induction false} GuardEffectGuards(m: Machine, pc: GuardPc, o: Outcome)
    requires m.up.On? && m.up.session.pc == Guard(pc) && !Is(GuardFault, m, Do(o))
    ensures Guarded(GuardEffect(m, pc, o))
  {
  }

  lemma {:induction false} CheckGuards(m: Machine, pc: CheckPc, o: Outcome)
    requires m.up.On? && m.up.session.pc == Check(pc) && Guarded(m)
    ensures Guarded(CheckEffect(m, pc, o))
  {
  }

  lemma {:induction false} GrubEffectGuards(m: Machine, o: Outcome, t: Deployment, p: Deployment, n: nat)
    requires GrubTrial.Trial(m, t, p, n) && m.up.On? && TrialEvent(m, Do(o)) && Guarded(m) && !Is(GuardFault, m, Do(o))
    ensures Guarded(Effect(m, o))
  {
    match m.up.session.pc
    case Loading => GrubAssessGuards(m, t, p, n);
    case Guard(pc) => GuardEffectGuards(m, pc, o);
    case Demote(pc) => GrubDemoteGuards(m, pc, o, t, p, n);
    case Clear(pc) => GrubClearGuards(m, pc, o, t, p, n);
    case Check(pc) => CheckGuards(m, pc, o);
    case Arm(pc) => ArmingNothing(m, pc, o);
    case _ =>
  }

  lemma {:induction false} GrubStepGuards(m: Machine, e: Event, t: Deployment, p: Deployment, n: nat)
    requires GrubTrial.Trial(m, t, p, n) && TrialEvent(m, e) && Guarded(m) && !Is(GuardFault, m, e)
    ensures Guarded(Step(m, e))
  {
    if e.Do? && m.up.On? { GrubEffectGuards(m, e.o, t, p, n); }
  }

  lemma {:induction false} GrubTrialIsGuarded(m: Machine, es: seq<Event>, t: Deployment, p: Deployment, n: nat)
    requires GrubTrial.Start(m, t, p, n) && TrialEvents(m, es) && Count(m, es, GuardFault) == 0
    ensures Guarded(Run(m, es))
    decreases |es|
  {
    if es != [] {
      var prefix, e := es[..|es| - 1], es[|es| - 1];
      GrubTrialIsGuarded(m, prefix, t, p, n);
      GrubTrial.TrialInvariant(m, prefix, t, p, n);
      GrubStepGuards(Run(m, prefix), e, t, p, n);
    }
  }

  // ---- systemd-boot --------------------------------------------------------

  lemma {:induction false} SdAssessGuards(m: Machine, o: Outcome, t: Deployment, p: Deployment, n: nat)
    requires SdTrial.Trial(m, t, p, n) && AtPc(m, Loading) && !Is(UnreadCounter(false), m, Do(o))
    ensures Guarded(At(m, LoadedPc(m.disk, m.up.session, o)))
  {
    if Loads(m.disk, o) { SdTrial.JudgeUnseen(m, o, t, p, n); }
  }

  lemma {:induction false} SdDemoteGuards(m: Machine, pc: DemotePc, o: Outcome, t: Deployment, p: Deployment, n: nat)
    requires SdTrial.Trial(m, t, p, n) && m.up.On? && m.up.session.pc == Demote(pc) && Guarded(m)
    ensures Guarded(DemoteEffect(m, pc, o))
  {
    SdSafety.DemoteTouchesEntry(m, pc, o, t, p, n);
  }

  lemma {:induction false} SdClearGuards(m: Machine, pc: ClearPc, o: Outcome, t: Deployment, p: Deployment, n: nat)
    requires SdTrial.Trial(m, t, p, n) && m.up.On? && m.up.session.pc == Clear(pc) && Guarded(m)
    ensures Guarded(ClearEffect(m, pc, o))
  {
    SdSafety.ClearTouchesEntry(m, pc, o, t, p, n);
  }

  lemma {:induction false} SdEffectGuards(m: Machine, o: Outcome, t: Deployment, p: Deployment, n: nat)
    requires SdTrial.Trial(m, t, p, n) && m.up.On? && TrialEvent(m, Do(o)) && Guarded(m)
    requires !Is(GuardFault, m, Do(o)) && !Is(UnreadCounter(false), m, Do(o))
    ensures Guarded(Effect(m, o))
  {
    match m.up.session.pc
    case Loading => SdAssessGuards(m, o, t, p, n);
    case Guard(pc) => GuardEffectGuards(m, pc, o);
    case Demote(pc) => SdDemoteGuards(m, pc, o, t, p, n);
    case Clear(pc) => SdClearGuards(m, pc, o, t, p, n);
    case Check(pc) => CheckGuards(m, pc, o);
    case Arm(pc) => ArmingNothing(m, pc, o);
    case _ =>
  }

  lemma {:induction false} SdStepGuards(m: Machine, e: Event, t: Deployment, p: Deployment, n: nat)
    requires SdTrial.Trial(m, t, p, n) && TrialEvent(m, e) && Guarded(m)
    requires !Is(GuardFault, m, e) && !Is(UnreadCounter(false), m, e)
    ensures Guarded(Step(m, e))
  {
    if e.Do? && m.up.On? { SdEffectGuards(m, e.o, t, p, n); }
  }

  lemma {:induction false} SdTrialIsGuarded(m: Machine, es: seq<Event>, t: Deployment, p: Deployment, n: nat)
    requires SdTrial.Start(m, t, p, n) && TrialEvents(m, es)
    requires Count(m, es, GuardFault) == 0 && Count(m, es, UnreadCounter(false)) == 0
    ensures Guarded(Run(m, es))
    decreases |es|
  {
    if es != [] {
      var prefix, e := es[..|es| - 1], es[|es| - 1];
      SdTrialIsGuarded(m, prefix, t, p, n);
      SdTrial.TrialInvariant(m, prefix, t, p, n);
      SdStepGuards(Run(m, prefix), e, t, p, n);
    }
  }

  /** So a guarded trial boot that hangs is reset, and the attempt counts. */
  lemma HangIsReset(m: Machine)
    requires Guarded(m) && m.up.On? && PastBoot(m.up.session.pc)
    requires Protocol.Armed(m.disk, m.up.session) && !m.up.session.confirmed
    ensures Step(m, WatchdogFires).up.Off? && Step(m, WatchdogFires).disk == m.disk
  {
  }

  // ---- a healthy boot is not reset -----------------------------------------

  /** No effect takes back that the boot is confirmed. */
  lemma {:induction false} EffectStaysConfirmed(m: Machine, o: Outcome)
    requires m.up.On? && m.up.session.confirmed
    ensures var m' := Effect(m, o); m'.up.On? ==> m'.up.session.confirmed
  {
    match m.up.session.pc
    case Guard(pc) =>
    case Demote(pc) =>
    case Clear(pc) =>
    case Check(pc) =>
    case Arm(pc) =>
    case _ =>
  }

  lemma {:induction false} StepStaysConfirmed(m: Machine, e: Event)
    requires m.up.On? && m.up.session.confirmed && !Is(TurnedOff, m, e)
    ensures Step(m, e).up.On? && Step(m, e).up.session.confirmed
  {
    if e.Do? {
      EffectStaysConfirmed(m, e.o);
      hide Effect;
    }
  }

  lemma {:induction false} WatchdogSpares(m: Machine)
    requires m.up.On? && m.up.session.confirmed
    ensures Step(m, WatchdogFires) == m
  {
  }

  lemma {:induction false} ConfirmationEnds(m: Machine)
    requires AtPc(m, Check(EndingWatchdog))
    ensures Step(m, Do(Done)).up.On? && Step(m, Do(Done)).up.session.confirmed
  {
  }

  /** Once the confirmation of a boot has ended without error, its watchdog changes nothing,
      whatever happens until something else ends the boot: on either stack, on any machine. */
  lemma {:induction false} ConfirmedIsNotReset(m: Machine, es: seq<Event>)
    requires AtPc(m, Check(EndingWatchdog))
    requires Count(Step(m, Do(Done)), es, TurnedOff) == 0
    ensures var m' := Run(Step(m, Do(Done)), es);
      m'.up.On? && m'.up.session.confirmed && Step(m', WatchdogFires) == m'
    decreases |es|
  {
    hide Step, Is;
    var confirmed := Step(m, Do(Done));
    if es == [] {
      ConfirmationEnds(m);
    } else {
      var prefix, e := es[..|es| - 1], es[|es| - 1];
      ConfirmedIsNotReset(m, prefix);
      StepStaysConfirmed(Run(confirmed, prefix), e);
    }
    WatchdogSpares(Run(confirmed, es));
  }

  // ---- exactly when --------------------------------------------------------

  /** Where the boot service of a trial boot can be after effects with any outcomes. */
  predicate GuardingState(m: Machine, m': Machine, faults: nat)
    requires m.up.On?
  {
    m'.disk == m.disk &&
    (m'.up.On? ==>
      var s, s' := m.up.session, m'.up.session;
      && s' == s.(marker := s'.marker, watchdog := s'.watchdog, pc := s'.pc)
      && match s'.pc
         case Loading => faults == 0 && !s'.watchdog
         case Guard(_) => faults == 0 && !s'.watchdog
         case Idle => s'.watchdog == (faults == 0)
         case Rebooting => true
         case _ => false)
  }

  /** The two ways to miss a trial: the last resort failed, or the counter of this boot was
      not read and no record seen. */
  predicate Misses(m: Machine, e: Event) {
    Is(GuardFault, m, e) || Is(UnreadCounter(false), m, e)
  }

  lemma {:induction false} GuardingStep(m: Machine, m': Machine, o: Outcome, faults: nat)
    requires m.up.On?
    requires Judge(m.disk, m.up.session) == TrialInProgress && Protocol.Armed(m.disk, m.up.session)
    requires GuardingState(m, m', faults) && !Is(UnreadCounter(true), m', Do(o))
    ensures GuardingState(m, Step(m', Do(o)), faults + if Misses(m', Do(o)) then 1 else 0)
  {
    if m'.up.On? {
      if m'.up.session.pc.Loading? {
        LoadGuards(m, m', o);
      } else if m'.up.session.pc.Guard? {
        GuardGuards(m, m', m'.up.session.pc.guard, o, faults);
      }
    }
  }

  lemma {:induction false} LoadGuards(m: Machine, m': Machine, o: Outcome)
    requires m.up.On?
    requires Judge(m.disk, m.up.session) == TrialInProgress && Protocol.Armed(m.disk, m.up.session)
    requires GuardingState(m, m', 0) && AtPc(m', Loading) && !Is(UnreadCounter(true), m', Do(o))
    ensures GuardingState(m, At(m', LoadedPc(m'.disk, m'.up.session, o)), if Misses(m', Do(o)) then 1 else 0)
  {
    assert Judge(m'.disk, m'.up.session) == TrialInProgress;
    if o.Unread? && m.disk.SdBoot? && !o.counter {
      assert JudgeSeen(m'.disk, m'.up.session, o) == TrialInProgress;
    }
  }

  lemma {:induction false} GuardGuards(m: Machine, m': Machine, pc: GuardPc, o: Outcome, faults: nat)
    requires m.up.On? && Protocol.Armed(m.disk, m.up.session)
    requires GuardingState(m, m', faults) && AtPc(m', Guard(pc))
    ensures GuardingState(m, GuardEffect(m', pc, o), faults + if Misses(m', Do(o)) then 1 else 0)
  {
    assert Protocol.Armed(m'.disk, m'.up.session);
  }

  function Missed(m: Machine, es: seq<Event>): nat
    decreases |es|
  {
    Count(m, es, GuardFault) + Count(m, es, UnreadCounter(false))
  }

  /** The boot service leaves a trial boot unguarded if and only if it missed the trial: the
      boot loader's state could not be read, or the marker not be written, after the trial
      could not be assessed or marked; or, on systemd-boot, the counter of the boot could not
      be read and no record was seen. A counter that could not be read with the record seen
      ends the trial instead. */
  lemma {:induction false} UnguardedIffMissed(m: Machine, os: seq<Outcome>, es: seq<Event>)
    requires AtPc(m, Loading) && !m.up.session.watchdog
    requires Judge(m.disk, m.up.session) == TrialInProgress && Protocol.Armed(m.disk, m.up.session)
    requires |es| == |os| && forall i :: 0 <= i < |es| ==> es[i] == Do(os[i])
    requires Count(m, es, UnreadCounter(true)) == 0
    ensures GuardingState(m, Run(m, es), Missed(m, es))
    ensures AtPc(Run(m, es), Idle) ==> (Run(m, es).up.session.watchdog <==> Missed(m, es) == 0)
    decreases |es|
  {
    if es != [] {
      var k := |es| - 1;
      UnguardedIffMissed(m, os[..k], es[..k]);
      GuardingStep(m, Run(m, es[..k]), os[k], Missed(m, es[..k]));
    }
  }
}
