/**
  What a failed effect leads to, on any machine: which failures end a command, what it has
  done by then, and what still protects the boot.
*/
module Failures {
  import opened Options
  import opened Assessments
  import opened Protocol
  import opened Services

  // ---- clearing, tried again -----------------------------------------------

  /** Where a clearing can be that may be tried `tries` times in all, after so many failures. */
  predicate ClearingState(m: Machine, why: Why, tries: nat, failed: nat) {
    m.up.On? &&
    match m.up.session.pc
    case Clear(pc) => pc.why == why && pc.retries + 1 + failed == tries
    case pc =>
      if failed < tries then pc == WhenCleared(why) else failed == tries && pc == WhenNotCleared(why)
  }

  /** An effect of a clearing that reports an error. */
  predicate ClearFails(m: Machine, e: Event) {
    e.Do? && e.o != Done && m.up.On? && m.up.session.pc.Clear? && !UnseenBlessing(m.up.session.pc.clear, e.o)
  }

  function Errors(m: Machine, es: seq<Event>): nat
    decreases |es|
  {
    if es == [] then 0
    else
      var prefix := es[..|es| - 1];
      Errors(m, prefix) + if ClearFails(Run(m, prefix), es[|es| - 1]) then 1 else 0
  }

  /** While the clearing runs. */
  predicate Clearing(m: Machine, es: seq<Event>)
    decreases |es|
  {
    es == [] || (Clearing(m, es[..|es| - 1]) && es[|es| - 1].Do? &&
                 Run(m, es[..|es| - 1]).up.On? && Run(m, es[..|es| - 1]).up.session.pc.Clear?)
  }

  /** A clearing with two retries succeeds if at most two of its effects fail, and ends in an
      error if and only if three do. */
  lemma {:induction false} ClearingFailsIff(m: Machine, es: seq<Event>, why: Why, retries: nat)
    requires AtPc(m, Clear(Forgetting(why, retries))) && Clearing(m, es)
    ensures ClearingState(Run(m, es), why, retries + 1, Errors(m, es))
    decreases |es|
  {
    if es != [] {
      var prefix, e := es[..|es| - 1], es[|es| - 1];
      ClearingFailsIff(m, prefix, why, retries);
      ClearingStep(Run(m, prefix), e.o, why, retries + 1, Errors(m, prefix));
    }
  }

  lemma {:induction false} ClearingStep(m: Machine, o: Outcome, why: Why, tries: nat, failed: nat)
    requires ClearingState(m, why, tries, failed) && m.up.session.pc.Clear?
    ensures ClearingState(Step(m, Do(o)), why, tries, failed + if ClearFails(m, Do(o)) then 1 else 0)
  {
  }

  // ---- what an outcome means -----------------------------------------------

  /** The two have the same disk, rejected list and boot, but for the program point. */
  predicate SameButPc(m: Machine, m': Machine) {
    m.up.On? && m'.up.On? && m' == m.(up := On(m.up.session.(pc := m'.up.session.pc)))
  }

  /** An effect that fails without a trace leaves none. */
  lemma {:induction false} FailedLeavesNoTrace(m: Machine)
    requires m.up.On? && !m.up.session.pc.Rebooting?
    ensures SameButPc(m, Step(m, Do(Failed)))
  {
    match m.up.session.pc
    case Guard(pc) =>
    case Demote(pc) => FailedDemote(m, pc);
    case Clear(pc) =>
    case Check(pc) =>
    case Arm(pc) =>
    case _ =>
  }

  lemma {:induction false} FailedDemote(m: Machine, pc: DemotePc)
    requires m.up.On? && m.up.session.pc == Demote(pc)
    ensures SameButPc(m, DemoteEffect(m, pc, Failed))
  {
  }

  /** One that is done and reported as failed has done all that it does when it is reported as
      done, but for the end of a watchdog, or its start, which then count as failed. */
  predicate SameDone(late: Machine, done: Machine) {
    && late.disk == done.disk && late.rejected == done.rejected && late.cfg == done.cfg
    && late.up.On? && done.up.On?
    && done.up.session == late.up.session.(
         pc := done.up.session.pc, watchdog := done.up.session.watchdog, confirmed := done.up.session.confirmed)
  }

  lemma {:induction false} LateIsDone(m: Machine)
    requires m.up.On? && !m.up.session.pc.Rebooting?
    ensures SameDone(Step(m, Do(FailedLate)), Step(m, Do(Done)))
  {
    hide DemoteEffect, ClearEffect, ArmEffect;
    match m.up.session.pc
    case Guard(pc) =>
    case Demote(pc) => LateDemote(m, pc);
    case Clear(pc) => LateClear(m, pc);
    case Check(pc) =>
    case Arm(pc) => LateArm(m, pc);
    case _ =>
  }

  lemma {:induction false} LateDemote(m: Machine, pc: DemotePc)
    requires m.up.On? && m.up.session.pc == Demote(pc)
    ensures SameDone(DemoteEffect(m, pc, FailedLate), DemoteEffect(m, pc, Done))
  {
  }

  lemma {:induction false} LateClear(m: Machine, pc: ClearPc)
    requires m.up.On? && m.up.session.pc == Clear(pc)
    ensures SameDone(ClearEffect(m, pc, FailedLate), ClearEffect(m, pc, Done))
  {
  }

  lemma {:induction false} LateArm(m: Machine, pc: ArmPc)
    requires m.up.On? && m.up.session.pc == Arm(pc)
    ensures SameDone(ArmEffect(m, pc, FailedLate), ArmEffect(m, pc, Done))
  {
  }

  // ---- a demotion that fails -----------------------------------------------

  /** The trial as the disk holds it. */
  predicate SameTrial(d: Disk, d': Disk) {
    match d
    case Grub(counter, target, fallback, _) =>
      d'.Grub? && d'.counter == counter && d'.target == target && d'.fallback == fallback
    case SdBoot(_, record) => d'.SdBoot? && d'.record == record
  }

  /** A demotion that reports an error ends its command there. It has rejected nothing and the
      trial is as it was: the boot service then looks at what the boot loader says. */
  lemma {:induction false} FailedDemotionKeepsTrial(m: Machine, pc: DemotePc, o: Outcome)
    requires m.up.On? && m.up.session.pc == Demote(pc) && !pc.Recording? && o != Done
    requires pc.MarkingBad? ==> pc.path.RollBack? || (o == Failed && m.disk.SdBoot? && m.disk.record.Some?)
    ensures var m' := Step(m, Do(o));
      var inCheck := !pc.Rechecking? && pc.path.RollBack? && pc.path.inCheck;
      && AtPc(m', if inCheck then Idle else Guard(Unassessed))
      && m'.rejected == m.rejected && SameTrial(m.disk, m'.disk)
  {
  }

  /** A roll-back that finds no entry of its deployment is such an error, however it ends. */
  lemma {:induction false} NoEntryNoRollBack(m: Machine, path: Path, o: Outcome)
    requires AtPc(m, Demote(MarkingBad(path))) && path.RollBack? && m.disk.SdBoot?
    requires forall e :: e in m.disk.entries ==> e.dep.id != m.up.session.booted.id
    ensures Step(m, Do(o)) == At(m, if path.inCheck then Idle else Guard(Unassessed))
  {
    var es := m.disk.entries;
    forall i | 0 <= i < |es| ensures es[i].dep.id != m.up.session.booted.id {
      assert es[i] in es;
    }
  }

  /** A fallback that cannot see the record marks nothing bad, and still rejects and forgets. */
  lemma {:induction false} MissedRecordStillRejects(m: Machine, target: string, counter: bool)
    requires AtPc(m, Demote(MarkingBad(FallBack(target)))) && m.disk.SdBoot?
    ensures AllDone(Step(m, Do(Unread(counter, true))), 2) ==
      At(m.(disk := SdBoot(m.disk.entries, None), rejected := m.rejected + {target}), Idle)
  {
    var m1 := Step(m, Do(Unread(counter, true)));
    assert m1 == At(m, Demote(Recording(FallBack(target))));
    var m2 := Step(m1, Do(Done));
    assert AllDone(m1, 2) == AllDone(m2, 1);
  }

  /** A load that misses the record: of the previous deployment there is no trial then, and a
      counted entry stands for its own. */
  lemma {:induction false} MissedRecordIsOwn(m: Machine)
    requires m.up.On? && m.disk.SdBoot?
    requires m.up.session.selected.Some? ==> m.up.session.selected.value.tries.Some?
    ensures JudgeSeen(m.disk, m.up.session, Unread(false, true)) ==
      if m.up.session.selected.Some? then TrialInProgress else Quiet
  {
  }

  /** A fallback that is first in the order already, alone or not, only rejects and forgets. */
  lemma {:induction false} FirstAlreadyRejects(m: Machine, target: string)
    requires AtPc(m, Loading) && m.disk.Grub? && m.disk.order != [] && m.disk.order[0] == m.up.session.booted
    requires m.disk.target == Some(target) && target != m.up.session.booted.digest
    ensures AllDone(m, 4) ==
      At(m.(disk := Grub(None, None, false, m.disk.order), rejected := m.rejected + {target}), Idle)
  {
    var m1 := Step(m, Do(Done));
    assert m1 == At(m, Demote(ReadingDefault(FallBack(target))));
    var m2 := Step(m1, Do(Done));
    assert m2 == At(m, Demote(Recording(FallBack(target))));
    var m3 := Step(m2, Do(Done));
    assert AllDone(m, 4) == AllDone(m1, 3) == AllDone(m2, 2) == AllDone(m3, 1);
  }

  // ---- what still guards the boot ------------------------------------------

  /** The last resort, nothing failing. */
  lemma {:induction false} LastResortGuards(m: Machine)
    requires AtPc(m, Guard(Unassessed)) && Protocol.Armed(m.disk, m.up.session)
    ensures AllDone(m, 3) == m.(up := On(m.up.session.(marker := true, watchdog := true, pc := Idle)))
  {
    var m1 := Step(m, Do(Done));
    assert m1 == At(m, Guard(Marking(true)));
    var m2 := Step(m1, Do(Done));
    assert AllDone(m, 3) == AllDone(m1, 2) == AllDone(m2, 1);
  }

  /** A boot service that comes to the last clearing of a stale counter, of a fallback or of
      a roll-back, and fails: the boot is guarded as long as GRUB counts it. */
  lemma {:induction false} UnclearedIsGuarded(m: Machine, why: Why)
    requires AtPc(m, Clear(Forgetting(why, 0))) && why in {StaleState, FellBackHome, RolledBack(false), Abandoned(false)}
    requires m.disk.Grub? && m.disk.counter.Some?
    ensures AllDone(Step(m, Do(Failed)), 3) ==
      m.(up := On(m.up.session.(marker := true, watchdog := true, pc := Idle)))
  {
    var m1 := Step(m, Do(Failed));
    assert m1 == At(m, Guard(Unassessed));
    LastResortGuards(m1);
  }

  /** The check service just ends; the boot goes on under its watchdog, which resets it. */
  lemma {:induction false} FailedCheckIsWatched(m: Machine, o: Outcome)
    requires m.up.On? && m.up.session.watchdog && !m.up.session.confirmed
    requires m.up.session.pc in
      {Clear(Forgetting(RolledBack(true), 0)), Clear(Forgetting(Abandoned(true), 0)), Clear(Forgetting(Confirmed, 0)),
       Check(RequestingReboot), Check(EndingWatchdog)}
    requires o == Failed
    ensures Step(m, Do(o)) == At(m, Idle)
    ensures Step(Step(m, Do(o)), WatchdogFires) == m.(up := Off)
  {
  }

  /** A confirmation that cannot end the watchdog leaves the boot to it, but the trial is over:
      the next boot of GRUB starts the same deployment and finds none. */
  lemma {:induction false} UnendedWatchdogResets(m: Machine, o: Outcome)
    requires AtPc(m, Check(EndingWatchdog)) && m.up.session.watchdog && !m.up.session.confirmed && o != Done
    requires m.disk.Grub? && m.disk == Forget(m.disk) && m.disk.order != []
    ensures var reset := Step(Step(m, Do(o)), WatchdogFires);
      var next := Step(reset, PowerOn(true, true));
      && reset == m.(up := Off)
      && next.up == On(Fresh(m.disk.order[0], None)) && Judge(next.disk, next.up.session) == Quiet
  {
  }

  /** After the checks the trial is read once more: unless it is seen to be in progress then,
      whatever became of it, the failure has no effect. */
  lemma {:induction false} SecondLookDecides(m: Machine, counter: Option<int>, o: Outcome)
    requires AtPc(m, Check(Rereading(counter)))
    ensures !(Loads(m.disk, o) && JudgeSeen(m.disk, m.up.session, o) == TrialInProgress) ==>
      Step(m, Do(o)) == At(m, Idle)
    ensures Loads(m.disk, o) && JudgeSeen(m.disk, m.up.session, o) == TrialInProgress ==>
      !AtPc(Step(m, Do(o)), Idle)
  {
  }

  /** A boot service started again guards a trial boot that is not guarded. */
  lemma {:induction false} StartedAgainGuards(m: Machine)
    requires AtPc(m, Idle) && Judge(m.disk, m.up.session) == TrialInProgress
    ensures AllDone(Step(m, StartBoot), 3) == m.(up := On(m.up.session.(marker := true, watchdog := true)))
  {
    assert Judge(m.disk, Step(m, StartBoot).up.session) == TrialInProgress;
    GuardCompletes(Step(m, StartBoot), 0);
  }

  // ---- `arm` ---------------------------------------------------------------

  /** Disabled, or with nothing reported as staged, `arm` leaves the machine as it was. */
  lemma {:induction false} NothingToArm(m: Machine, o: Outcome)
    requires AtPc(m, Arm(Inspecting))
    ensures !m.cfg.enabled ==> Step(m, Do(o)) == At(m, Arm(Exit(Disabled)))
    ensures m.cfg.enabled && o == FailedLate ==> Step(m, Do(o)) == At(m, Arm(Exit(NotReported)))
    ensures m.cfg.enabled && o == Done && m.up.session.staged.None? ==> Step(m, Do(o)) == At(m, Arm(Exit(NotReported)))
  {
  }
}
