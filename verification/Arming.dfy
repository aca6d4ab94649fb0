/**
  `bootguard arm`, over every run of the whole machine: any state before, any number of
  updates, any combination of failed effects, power cuts included.
*/
module Arming {
  import opened Options
  import opened Assessments
  import opened Protocol
  import opened History
  import opened Services
  import GrubTrial
  import SdTrial

  /** What is known of a staged image that `arm` goes on with. */
  predicate Screened(m: Machine, e: Entry, screen: Screen) {
    (screen.listRead ==> e.dep.digest !in m.rejected) && (m.cfg.preflight ==> screen.passed)
  }

  /** The boot loader will count exactly `maxAttempts` tries of the staged image, whose id can
      be stored. */
  predicate CarriesTries(m: Machine, e: Entry) {
    IsSafeId(e.dep.digest) &&
    match m.disk
    case Grub(counter, target, fallback, _) =>
      counter == Some(m.cfg.maxAttempts) && target == Some(e.dep.digest) && fallback
    case SdBoot(_, record) =>
      record == Some(e.dep) && e.tries == Some(Tries(m.cfg.maxAttempts, 0))
  }

  predicate ArmOk(m: Machine, s: Session, pc: ArmPc) {
    match pc
    case Preflight(listRead) =>
      s.staged.Some? && (listRead ==> s.staged.value.dep.digest !in m.rejected)
    case Writing(screen) => s.staged.Some? && Screened(m, s.staged.value, screen)
    case Renaming(screen) =>
      s.staged.Some? && Screened(m, s.staged.value, screen) &&
      m.disk.SdBoot? && m.disk.record == Some(s.staged.value.dep) && IsSafeId(s.staged.value.dep.digest)
    case Refusing(_) => s.staged.None?
    case Exit(Disabled) => !m.cfg.enabled
    case Exit(Dropped) => s.staged.None?
    case Exit(Guarded(screen)) =>
      s.staged.Some? && Screened(m, s.staged.value, screen) && CarriesTries(m, s.staged.value)
    case _ => true
  }

  predicate Inv(m: Machine) {
    m.up.On? && m.up.session.pc.Arm? ==> ArmOk(m, m.up.session, m.up.session.pc.arm)
  }

  lemma {:induction false} EffectKeepsInv(m: Machine, pc: ArmPc, o: Outcome)
    requires m.up.On? && m.up.session.pc == Arm(pc) && ArmOk(m, m.up.session, pc)
    ensures Inv(ArmEffect(m, pc, o))
  {
  }

  lemma {:induction false} StepKeepsInv(m: Machine, e: Event)
    requires Inv(m)
    ensures Inv(Step(m, e))
  {
    if m.up.Off? {
      BootDoesNotArm(m, e);
    } else if e.Do? {
      if m.up.session.pc.Arm? { EffectKeepsInv(m, m.up.session.pc.arm, e.o); } else { OthersDoNotArm(m, e.o); }
    }
  }

  lemma {:induction false} RunKeepsInv(m: Machine, es: seq<Event>)
    requires Inv(m)
    ensures Inv(Run(m, es))
    decreases |es|
  {
    if es != [] {
      RunKeepsInv(m, es[..|es| - 1]);
      StepKeepsInv(Run(m, es[..|es| - 1]), es[|es| - 1]);
    }
  }

  predicate Returned(m: Machine, result: ArmResult) {
    m.up.On? && m.up.session.pc == Arm(Exit(result))
  }

  /** Fails closed: when enabled, `arm` has returned without error, and `bootc status`
      listed the staged deployment, then either nothing is staged, or the image is not in
      the rejected list as read, passed preflight where that is on, and carries exactly
      the configured number of tries. */
  lemma {:induction false} ArmFailsClosed(m: Machine, es: seq<Event>, result: ArmResult)
    requires Inv(m)
    requires Returned(Run(m, es), result) && Run(m, es).cfg.enabled && result != NotReported && result != ArmFailed
    ensures var m' := Run(m, es);
      var staged := m'.up.session.staged;
      staged.None? ||
      (result.Guarded? && Screened(m', staged.value, result.screen) && CarriesTries(m', staged.value))
  {
    RunKeepsInv(m, es);
  }

  // ---- when it does not ----------------------------------------------------

  /** Where an enabled `arm` of a reported image can be after so many failures to drop it. */
  predicate ArmState(m: Machine, drops: nat) {
    m.up.On? && m.up.session.pc.Arm? && m.cfg.enabled &&
    var staged := m.up.session.staged;
    match m.up.session.pc.arm
    case Exit(NotReported) => true
    case Exit(Disabled) => false
    case Exit(Dropped) => staged.None? && drops == 0
    case Exit(ArmFailed) => staged.Some? <==> drops > 0
    case Dropping => drops == 0
    case Refusing(_) => staged.None? && drops == 0
    case _ => staged.Some? && drops == 0
  }

  lemma {:induction false} ArmStateStep(m: Machine, e: Event, drops: nat)
    requires ArmState(m, drops) && (e.Do? || e.Verdict?)
    ensures ArmState(Step(m, e), drops + if Is(DropFault, m, e) then 1 else 0)
  {
    if e.Do? { ArmEffectState(m, m.up.session.pc.arm, e.o, drops); }
  }

  lemma {:induction false} ArmEffectState(m: Machine, pc: ArmPc, o: Outcome, drops: nat)
    requires ArmState(m, drops) && m.up.session.pc.arm == pc
    ensures ArmState(ArmEffect(m, pc, o), drops + if Is(DropFault, m, Do(o)) then 1 else 0)
  {
  }

  /** An enabled `arm` of a reported image leaves it staged without a trial if and only if
      dropping it failed as well. */
  lemma {:induction false} LeftStagedIffDropFails(m: Machine, es: seq<Event>)
    requires AtPc(m, Arm(Inspecting)) && m.cfg.enabled && m.up.session.staged.Some?
    requires forall i :: 0 <= i < |es| ==> es[i].Do? || es[i].Verdict?
    ensures ArmState(Run(m, es), Count(m, es, DropFault))
    ensures var s := Run(m, es).up.session;
      s.pc.arm.Exit? && s.pc.arm.result != NotReported ==>
        (s.staged.Some? && !s.pc.arm.result.Guarded? <==> Count(m, es, DropFault) > 0)
    decreases |es|
  {
    if es != [] {
      var k := |es| - 1;
      LeftStagedIffDropFails(m, es[..k]);
      ArmStateStep(Run(m, es[..k]), es[k], Count(m, es[..k], DropFault));
    }
  }

  /** It does happen: `bootc status` fails, and so does dropping the update. It is installed,
      and the next boot starts it with no trial. */
  lemma {:induction false} UnguardedUpdateIsApplied(m: Machine, e: Entry)
    requires AtPc(m, Idle) && m.cfg.enabled && m.up.session.staged == Some(e) && GrubTrial.Cleared(m.disk)
    ensures var dropping := Step(Step(m, StartArm), Do(Failed));
      var exit := Step(dropping, Do(Failed));
      var next := Step(Step(exit, Finalize), PowerOn(true, true));
      && Is(DropFault, dropping, Do(Failed)) && Returned(exit, ArmFailed)
      && next.up.On? && next.up.session.booted == e.dep && Judge(next.disk, next.up.session) == Quiet
      && !Protocol.Armed(next.disk, next.up.session)
  {
    var m1 := Step(m, StartArm);
    assert m1 == At(m, Arm(Inspecting));
    var m2 := Step(m1, Do(Failed));
    assert m2 == At(m, Arm(Dropping));
    var m3 := Step(m2, Do(Failed));
    assert m3 == At(m, Arm(Exit(ArmFailed)));
  }

  // ---- an unfit image is rejected ------------------------------------------

  /** Where `arm` of the image `dep` can be, and what it has added to the rejected list, after
      so many bad verdicts, failures to drop the image then, and lost appends. */
  predicate RefusalState(m: Machine, dep: Deployment, before: set<string>, bad: nat, faults: nat, lost: nat) {
    m.up.On? && m.up.session.pc.Arm? &&
    var staged := m.up.session.staged;
    var isStaged := staged.Some? && staged.value.dep == dep;
    match m.up.session.pc.arm
    case Unstaging(fatal) => isStaged && m.rejected == before && (fatal <==> bad > 0) && faults == 0 && lost == 0
    case Refusing(digest) => digest == dep.digest && m.rejected == before && bad > 0 && faults == 0 && lost == 0
    case Dropping => m.rejected == before && (bad > 0 ==> faults > 0) && lost == 0
    case Exit(_) => m.rejected == before + if bad > 0 && faults == 0 && lost == 0 then {dep.digest} else {}
    case _ => isStaged && m.rejected == before && bad == 0 && faults == 0 && lost == 0
  }

  lemma {:induction false} RefusalEffect(
      m: Machine, pc: ArmPc, o: Outcome, dep: Deployment, before: set<string>, bad: nat, faults: nat, lost: nat)
    requires RefusalState(m, dep, before, bad, faults, lost) && m.up.session.pc.arm == pc
    ensures RefusalState(ArmEffect(m, pc, o), dep, before, bad,
      faults + (if Is(UnstageFault, m, Do(o)) then 1 else 0), lost + (if Is(LostRefusal, m, Do(o)) then 1 else 0))
  {
  }

  function Plus(n: nat, k: Mark, m: Machine, e: Event): nat {
    if Is(k, m, e) then n + 1 else n
  }

  lemma {:induction false} RefusalStep(
      m: Machine, e: Event, dep: Deployment, before: set<string>, bad: nat, faults: nat, lost: nat)
    requires RefusalState(m, dep, before, bad, faults, lost) && (e.Do? || e.Verdict?)
    ensures RefusalState(Step(m, e), dep, before,
      Plus(bad, PreflightFail, m, e), Plus(faults, UnstageFault, m, e), Plus(lost, LostRefusal, m, e))
  {
    if e.Do? {
      RefusalEffect(m, m.up.session.pc.arm, e.o, dep, before, bad, faults, lost);
      hide ArmEffect;
      assert Step(m, e) == ArmEffect(m, m.up.session.pc.arm, e.o);
    }
  }

  /** After an enabled or disabled `arm` the list holds what it held and, if and only if
      preflight found the image unfit, dropping it worked and the append was not lost, the
      image. */
  lemma {:induction false} UnfitIsRejectedIff(m: Machine, es: seq<Event>, dep: Deployment)
    requires AtPc(m, Arm(Inspecting)) && m.up.session.staged.Some? && m.up.session.staged.value.dep == dep
    requires forall i :: 0 <= i < |es| ==> es[i].Do? || es[i].Verdict?
    ensures RefusalState(
      Run(m, es), dep, m.rejected, Count(m, es, PreflightFail), Count(m, es, UnstageFault), Count(m, es, LostRefusal))
    ensures Run(m, es).up.session.pc.arm.Exit? ==>
      Run(m, es).rejected == m.rejected +
        if Count(m, es, PreflightFail) > 0 && Count(m, es, UnstageFault) == 0 && Count(m, es, LostRefusal) == 0
        then {dep.digest} else {}
    decreases |es|
  {
    if es != [] {
      hide Step, Is;
      var prefix, e := es[..|es| - 1], es[|es| - 1];
      UnfitIsRejectedIff(m, prefix, dep);
      RefusalStep(Run(m, prefix), e, dep, m.rejected,
        Count(m, prefix, PreflightFail), Count(m, prefix, UnstageFault), Count(m, prefix, LostRefusal));
    }
  }

  /** `arm` of an image that is not rejected comes to preflight. */
  lemma {:induction false} ArmComesToPreflight(m: Machine)
    requires AtPc(m, Idle) && m.cfg.enabled && m.cfg.preflight && m.up.session.staged.Some?
    requires m.up.session.staged.value.dep.digest !in m.rejected
    ensures AllDone(Step(m, StartArm), 2) == At(m, Arm(Preflight(true)))
  {
    var m1 := Step(m, StartArm);
    var m2 := Step(m1, Do(Done));
    assert m2 == At(m, Arm(Consulting));
    assert AllDone(m1, 2) == AllDone(m2, 1);
  }

  /** Nothing failing, an image that is not rejected comes to one of two ends: unfit, it is
      dropped and rejected; fit, it is staged with its tries. */
  lemma {:induction false} ArmCompletes(m: Machine, fit: bool)
    requires AtPc(m, Idle) && m.cfg.enabled && m.cfg.preflight && m.up.session.staged.Some?
    requires var digest := m.up.session.staged.value.dep.digest; digest !in m.rejected && IsSafeId(digest)
    ensures var e := m.up.session.staged.value;
      var m' := AllDone(Step(AllDone(Step(m, StartArm), 2), Verdict(fit)), 2);
      && m'.up.On?
      && if fit then
           && Returned(m', Guarded(Screen(true, true))) && m'.rejected == m.rejected
           && m'.up.session.staged.Some? && m'.up.session.staged.value.dep == e.dep
           && CarriesTries(m', m'.up.session.staged.value)
         else
           && Returned(m', Dropped) && m'.rejected == m.rejected + {e.dep.digest}
           && m'.up.session.staged.None? && m'.disk == m.disk
  {
    ArmComesToPreflight(m);
    var m3 := At(m, Arm(Preflight(true)));
    if fit {
      assert Step(m3, Verdict(fit)) == At(m, Arm(Writing(Screen(true, true))));
      FitIsArmed(At(m, Arm(Writing(Screen(true, true)))), Screen(true, true));
    } else {
      assert Step(m3, Verdict(fit)) == At(m, Arm(Unstaging(true)));
      UnfitIsRefused(At(m, Arm(Unstaging(true))));
    }
  }

  lemma {:induction false} FitIsArmed(m: Machine, screen: Screen)
    requires AtPc(m, Arm(Writing(screen))) && m.up.session.staged.Some?
    requires IsSafeId(m.up.session.staged.value.dep.digest)
    ensures var m' := AllDone(m, 2);
      && Returned(m', Guarded(screen)) && m'.rejected == m.rejected && m'.cfg == m.cfg
      && m'.up.session.staged.Some? && m'.up.session.staged.value.dep == m.up.session.staged.value.dep
      && CarriesTries(m', m'.up.session.staged.value)
  {
    var m1 := Step(m, Do(Done));
    assert AllDone(m, 2) == Step(m1, Do(Done));
  }

  lemma {:induction false} UnfitIsRefused(m: Machine)
    requires AtPc(m, Arm(Unstaging(true))) && m.up.session.staged.Some?
    ensures var m' := AllDone(m, 2);
      && Returned(m', Dropped) && m'.rejected == m.rejected + {m.up.session.staged.value.dep.digest}
      && m'.up.session.staged.None? && m'.disk == m.disk
  {
    var m1 := Step(m, Do(Done));
    assert AtPc(m1, Arm(Refusing(m.up.session.staged.value.dep.digest)));
    assert AllDone(m, 2) == Step(m1, Do(Done));
  }

  // ---- a failed arm is undone ----------------------------------------------

  /** The trial discarded, the update dropped. */
  predicate Undone(m: Machine, m': Machine) {
    && Returned(m', Dropped) && m'.up.session.staged.None? && m'.rejected == m.rejected
    && match m.disk
       case Grub(_, _, _, order) => m'.disk == Grub(None, None, false, order)
       case SdBoot(entries, _) => m'.disk == SdBoot(entries, None)
  }

  lemma {:induction false} DiscardCompletes(m: Machine)
    requires AtPc(m, Arm(Discarding))
    ensures Undone(m, AllDone(m, 2))
  {
    var m1 := Step(m, Do(Done));
    assert AtPc(m1, Arm(Dropping)) && m1.disk == Forget(m.disk);
    assert AllDone(m, 2) == Step(m1, Do(Done));
  }

  /** Whether the id cannot be stored, or writing the trial or counting the entry reports an
      error, done or not: if the rest works nothing is left of the trial or the update. */
  lemma {:induction false} FailedArmIsUndone(m: Machine, screen: Screen, o: Outcome)
    requires AtPc(m, Arm(Writing(screen))) || AtPc(m, Arm(Renaming(screen)))
    requires m.up.session.staged.Some? && (o != Done || (m.up.session.pc.arm.Writing? && !IsSafeId(m.up.session.staged.value.dep.digest)))
    ensures Undone(m, AllDone(Step(m, Do(o)), 2))
  {
    var m1 := Step(m, Do(o));
    assert AtPc(m1, Arm(Discarding)) && Forget(m1.disk) == Forget(m.disk) && m1.rejected == m.rejected;
    DiscardCompletes(m1);
  }

  /** `arm` returns an error exactly if dropping the update reported one. */
  lemma {:induction false} DropErrorIsReported(m: Machine, o: Outcome)
    requires AtPc(m, Arm(Dropping))
    ensures Returned(Step(m, Do(o)), ArmFailed) <==> o != Done
    ensures Returned(Step(m, Do(o)), Dropped) <==> o == Done
  {
  }

  /** The finalizer waits until `arm` has ended, whatever its result, and without a staged update
      it changes nothing. */
  lemma {:induction false} FinalizerWaits(m: Machine)
    requires m.up.On?
    ensures !(m.up.session.pc.Arm? && m.up.session.pc.arm.Exit?) ==> Step(m, Finalize) == m
    ensures m.up.session.pc.Arm? && m.up.session.pc.arm.Exit? && m.up.session.staged.None? ==>
      Step(m, Finalize) == m.(up := Off)
  {
  }

  // ---- a pass is a pass ----------------------------------------------------

  predicate SaysPassed(m: Machine, dep: Deployment) {
    m.up.On? && m.up.session.pc.Arm? && m.up.session.staged.Some? && m.up.session.staged.value.dep == dep &&
    var pc := m.up.session.pc.arm;
    (pc.Writing? && pc.screen.passed) || (pc.Renaming? && pc.screen.passed) ||
    (pc.Exit? && pc.result.Guarded? && pc.result.screen.passed)
  }

  lemma {:induction false} EffectSaysPassed(m: Machine, pc: ArmPc, o: Outcome, dep: Deployment)
    requires m.up.On? && m.up.session.pc == Arm(pc) && !SaysPassed(m, dep)
    ensures !SaysPassed(ArmEffect(m, pc, o), dep)
  {
  }

  lemma {:induction false} StepSaysPassed(m: Machine, e: Event, dep: Deployment)
    requires !SaysPassed(m, dep) && !Is(PreflightPass(dep), m, e)
    ensures !SaysPassed(Step(m, e), dep)
  {
    if m.up.Off? {
      BootDoesNotArm(m, e);
    } else if e.Do? {
      if m.up.session.pc.Arm? { EffectSaysPassed(m, m.up.session.pc.arm, e.o, dep); } else { OthersDoNotArm(m, e.o); }
    }
  }

  /** An image that `arm` takes as passed was passed by preflight in this very run. */
  lemma {:induction false} PassedMeansPreflightPassed(m: Machine, es: seq<Event>, dep: Deployment)
    requires !SaysPassed(m, dep) && Count(m, es, PreflightPass(dep)) == 0
    ensures !SaysPassed(Run(m, es), dep)
    decreases |es|
  {
    if es != [] {
      PassedMeansPreflightPassed(m, es[..|es| - 1], dep);
      StepSaysPassed(Run(m, es[..|es| - 1]), es[|es| - 1], dep);
    }
  }

  // ---- a rejected image is never armed again -------------------------------

  lemma {:induction false} StepKeepsRejected(m: Machine, e: Event)
    ensures m.rejected <= Step(m, e).rejected
  {
    if m.up.On? && e.Do? {
      match m.up.session.pc
      case Guard(pc) =>
      case Demote(pc) =>
      case Clear(pc) =>
      case Check(pc) =>
      case Arm(pc) =>
      case _ =>
    }
  }

  predicate ListWasRead(m: Machine) {
    m.up.On? && m.up.session.pc.Arm? ==>
      var pc := m.up.session.pc.arm;
      (pc.Preflight? ==> pc.listRead) && (pc.Writing? ==> pc.screen.listRead)
  }

  lemma {:induction false} EffectReadsList(m: Machine, pc: ArmPc, o: Outcome)
    requires m.up.On? && m.up.session.pc == Arm(pc) && ListWasRead(m) && !Is(ListUnread, m, Do(o))
    ensures ListWasRead(ArmEffect(m, pc, o))
  {
  }

  lemma {:induction false} StepReadsList(m: Machine, e: Event)
    requires ListWasRead(m) && !Is(ListUnread, m, e)
    ensures ListWasRead(Step(m, e))
  {
    if m.up.Off? {
      BootDoesNotArm(m, e);
    } else if e.Do? {
      if m.up.session.pc.Arm? { EffectReadsList(m, m.up.session.pc.arm, e.o); } else { OthersDoNotArm(m, e.o); }
    }
  }

  /** Once in the rejected list, an image is never armed in the rest of the run, as long as
      `arm` can read the list. */
  lemma {:induction false} RejectedIsNeverArmed(m: Machine, es: seq<Event>, digest: string)
    requires Inv(m) && ListWasRead(m) && digest in m.rejected
    requires Count(m, es, ListUnread) == 0
    ensures Inv(Run(m, es)) && ListWasRead(Run(m, es)) && digest in Run(m, es).rejected
    ensures Count(m, es, History.Armed(digest)) == 0
    decreases |es|
  {
    if es != [] {
      var prefix, e := es[..|es| - 1], es[|es| - 1];
      RejectedIsNeverArmed(m, prefix, digest);
      StepKeepsInv(Run(m, prefix), e);
      StepReadsList(Run(m, prefix), e);
      StepKeepsRejected(Run(m, prefix), e);
    }
  }

  // ---- from `arm` to the trial ---------------------------------------------

  /** What `arm` guards and the finalizer installs is the start of a GRUB trial, exactly if
      the digests differ. */
  lemma {:induction false} FinalizeStartsGrubTrial(m: Machine)
    requires Inv(m) && m.up.On? && m.up.session.pc.Arm? && m.up.session.pc.arm.Exit?
    requires m.up.session.pc.arm.result.Guarded?
    requires m.disk.Grub? && m.cfg.maxAttempts >= 1
    ensures GrubTrial.Start(Step(m, Finalize), m.up.session.staged.value.dep, m.up.session.booted, m.cfg.maxAttempts) <==>
      m.up.session.staged.value.dep.digest != m.up.session.booted.digest
  {
  }

  /** And of a systemd-boot trial, exactly if the ids differ too and the running deployment
      has an entry that is not itself on trial. */
  lemma {:induction false} FinalizeStartsSdTrial(m: Machine)
    requires Inv(m) && m.up.On? && m.up.session.pc.Arm? && m.up.session.pc.arm.Exit?
    requires m.up.session.pc.arm.result.Guarded?
    requires m.disk.SdBoot? && m.cfg.maxAttempts >= 1
    ensures SdTrial.Start(Step(m, Finalize), m.up.session.staged.value.dep, m.up.session.booted, m.cfg.maxAttempts) <==>
      var t, p := m.up.session.staged.value.dep, m.up.session.booted;
      var i := FindEntry(m.disk.entries, p.id);
      && t.digest != p.digest && t.id != p.id
      && i.Some? && m.disk.entries[i.value] == Entry(p, None)
  {
    var i, disk := FindEntry(m.disk.entries, m.up.session.booted.id), Step(m, Finalize).disk;
    assert i.None? ==> |disk.entries| == 1;
    assert i.Some? ==> |disk.entries| == 2 && disk.entries[1] == m.disk.entries[i.value];
  }
}
