/**
  The previous deployment after a fallback that it cannot make permanent. The trial stays
  armed, so `cmd_boot` takes this boot for one to guard: it marks it as a trial and starts
  the watchdog. The check sees that the trial fell back and does not confirm, so the
  watchdog resets the healthy deployment, for as long as the demotion fails.
*/
module Homecoming {
  import opened Options
  import opened Protocol
  import opened History
  import opened Services
  import opened GrubTrial
  import Recovery
  import SdTrial

  // ---- when it happens -----------------------------------------------------

  /** Where the boot service of `p` can be after so many faults of each kind. */
  predicate HomeState(m: Machine, p: Deployment, home: nat, marks: nat, guards: nat) {
    m.up.On? ==>
      var s := m.up.session;
      && s.booted == p && !s.confirmed
      && match s.pc
         case Loading => home == marks == guards == 0 && !s.marker && !s.watchdog
         case Demote(_) => home == marks == guards == 0 && !s.marker && !s.watchdog
         case Clear(pc) => home == marks == guards == 0 && !s.marker && !s.watchdog && pc.why.FellBackHome?
         case Guard(Unassessed) =>
           marks == guards == 0 && !s.marker && !s.watchdog && (home > 0 <==> Protocol.Armed(m.disk, s))
         case Guard(Marking(again)) => again && home > 0 && marks == guards == 0 && !s.marker && !s.watchdog
         case Guard(StartingWatchdog) => home > 0 && marks == guards == 0 && s.marker && !s.watchdog
         case Idle => (s.marker <==> home > 0 && marks == 0) && (s.watchdog <==> home > 0 && guards == 0)
         case Rebooting => true
         case _ => false
  }

  lemma {:induction false} HomeGuards(m: Machine, pc: GuardPc, o: Outcome, p: Deployment, home: nat, marks: nat, guards: nat)
    requires m.up.On? && m.up.session.pc == Guard(pc) && HomeState(m, p, home, marks, guards)
    ensures HomeState(GuardEffect(m, pc, o), p,
                      home + (if Is(HomeFault, m, Do(o)) then 1 else 0),
                      marks + (if Is(MarkFault, m, Do(o)) then 1 else 0),
                      guards + (if Is(GuardFault, m, Do(o)) then 1 else 0))
  {
  }

  lemma {:induction false} HomeClears(m: Machine, pc: ClearPc, o: Outcome, p: Deployment, home: nat, marks: nat, guards: nat)
    requires m.up.On? && m.up.session.pc == Clear(pc) && HomeState(m, p, home, marks, guards)
    ensures HomeState(ClearEffect(m, pc, o), p,
                      home + (if Is(HomeFault, m, Do(o)) then 1 else 0),
                      marks + (if Is(MarkFault, m, Do(o)) then 1 else 0),
                      guards + (if Is(GuardFault, m, Do(o)) then 1 else 0))
  {
  }

  lemma {:induction false} HomeDemotes(m: Machine, pc: DemotePc, o: Outcome, p: Deployment, home: nat, marks: nat, guards: nat)
    requires m.up.On? && m.up.session.pc == Demote(pc) && HomeState(m, p, home, marks, guards)
    requires pc.Rechecking? || pc.path.FallBack?
    ensures HomeState(DemoteEffect(m, pc, o), p,
                      home + (if Is(HomeFault, m, Do(o)) then 1 else 0),
                      marks + (if Is(MarkFault, m, Do(o)) then 1 else 0),
                      guards + (if Is(GuardFault, m, Do(o)) then 1 else 0))
  {
  }

  lemma {:induction false} HomeLoads(m: Machine, o: Outcome, t: Deployment, p: Deployment, n: nat, home: nat, marks: nat, guards: nat)
    requires Trial(m, t, p, n) && AtPc(m, Loading) && HomeState(m, p, home, marks, guards)
    ensures HomeState(Effect(m, o), p,
                      home + (if Is(HomeFault, m, Do(o)) then 1 else 0),
                      marks + (if Is(MarkFault, m, Do(o)) then 1 else 0),
                      guards + (if Is(GuardFault, m, Do(o)) then 1 else 0))
  {
    if InTrial(m.disk, t, n) { JudgeInTrial(m.disk, m.up.session, t, n); } else { JudgeCleared(m.disk, m.up.session); }
  }

  lemma {:induction false} HomeStep(m: Machine, o: Outcome, t: Deployment, p: Deployment, n: nat, home: nat, marks: nat, guards: nat)
    requires Trial(m, t, p, n) && HomeState(m, p, home, marks, guards)
    ensures HomeState(Step(m, Do(o)), p,
                      home + (if Is(HomeFault, m, Do(o)) then 1 else 0),
                      marks + (if Is(MarkFault, m, Do(o)) then 1 else 0),
                      guards + (if Is(GuardFault, m, Do(o)) then 1 else 0))
  {
    if m.up.On? {
      match m.up.session.pc
      case Loading => HomeLoads(m, o, t, p, n, home, marks, guards);
      case Guard(pc) => HomeGuards(m, pc, o, p, home, marks, guards);
      case Demote(pc) => HomeDemotes(m, pc, o, p, home, marks, guards);
      case Clear(pc) => HomeClears(m, pc, o, p, home, marks, guards);
      case _ =>
    }
  }

  /** The boot service of `p` ends marked if and only if it failed with the trial still
      armed and could write its marker, and guarded if and only if it failed so and neither
      the boot loader's state nor the marker failed it. */
  lemma {:induction false} HomeIsMarkedIff(m: Machine, es: seq<Event>, t: Deployment, p: Deployment, n: nat)
    requires Trial(m, t, p, n) && AtPc(m, Loading) && m.up.session.booted == p
    requires !m.up.session.marker && !m.up.session.watchdog && !m.up.session.confirmed
    requires forall i :: 0 <= i < |es| ==> es[i].Do?
    ensures Trial(Run(m, es), t, p, n)
    ensures HomeState(Run(m, es), p, Count(m, es, HomeFault), Count(m, es, MarkFault), Count(m, es, GuardFault))
    ensures AtPc(Run(m, es), Idle) ==>
      var s := Run(m, es).up.session;
      && (s.marker <==> Count(m, es, HomeFault) > 0 && Count(m, es, MarkFault) == 0)
      && (s.watchdog <==> Count(m, es, HomeFault) > 0 && Count(m, es, GuardFault) == 0)
    decreases |es|
  {
    if es != [] {
      var prefix, e := es[..|es| - 1], es[|es| - 1];
      HomeIsMarkedIff(m, prefix, t, p, n);
      var m' := Run(m, prefix);
      HomeStep(m', e.o, t, p, n, Count(m, prefix, HomeFault), Count(m, prefix, MarkFault), Count(m, prefix, GuardFault));
      if m'.up.On? { HomeDoesNotArm(m', p, Count(m, prefix, HomeFault), Count(m, prefix, MarkFault), Count(m, prefix, GuardFault)); }
      StepKeepsTrial(m', e, t, p, n);
    }
  }

  lemma HomeDoesNotArm(m: Machine, p: Deployment, home: nat, marks: nat, guards: nat)
    requires m.up.On? && HomeState(m, p, home, marks, guards)
    ensures !m.up.session.pc.Arm?
  {
  }

  // ---- what follows --------------------------------------------------------

  /** GRUB falls back, the boot service starts, and the order cannot be read. */
  const HOME_BOOT := [PowerOn(true, true), StartBoot, Do(Done), Do(Failed), Do(Done), Do(Done), Do(Done)]

  lemma RunHomeBoot(m: Machine)
    ensures Run(m, HOME_BOOT) ==
      Step(Step(Step(Step(Step(Step(Step(m, PowerOn(true, true)), StartBoot), Do(Done)), Do(Failed)), Do(Done)), Do(Done)), Do(Done))
  {
    var a, b, c := [PowerOn(true, true), StartBoot, Do(Done)], [Do(Failed), Do(Done), Do(Done)], [Do(Done)];
    assert HOME_BOOT == (a + b) + c;
    RunThen(m, a + b, Do(Done));
    RunSplit(m, a, b);
    RunThree(m, PowerOn(true, true), StartBoot, Do(Done));
    RunThree(Run(m, a), Do(Failed), Do(Done), Do(Done));
  }

  predicate SpentTrial(m: Machine, t: Deployment, p: Deployment) {
    m.up.Off? && m.disk.Grub? && Spent(m.disk.counter) && m.disk == Grub(m.disk.counter, Some(t.digest), true, [t, p])
  }

  lemma {:induction false} HomeBootIsGuarded(m: Machine, t: Deployment, p: Deployment)
    requires SpentTrial(m, t, p) && t.digest != p.digest
    ensures Run(m, HOME_BOOT) == m.(
      disk := m.disk.(counter := Some(-1)),
      up := On(Fresh(p, None).(marker := true, watchdog := true, pc := Idle)))
  {
    RunHomeBoot(m);
    var m2 := Step(Step(m, PowerOn(true, true)), StartBoot);
    assert m2 == m.(disk := m.disk.(counter := Some(-1)), up := On(Fresh(p, None).(pc := Loading)));
    var m3 := Step(m2, Do(Done));
    assert m3 == At(m2, Demote(ReadingDefault(FallBack(t.digest))));
    var m4 := Step(m3, Do(Failed));
    assert m4 == At(m2, Guard(Unassessed));
    var m5 := Step(m4, Do(Done));
    assert m5 == At(m2, Guard(Marking(true)));
  }

  /** That boot is not confirmed, whatever the checks say, and its watchdog resets it into
      the same trial. */
  lemma {:induction false} HomeIsReset(m: Machine, good: bool, t: Deployment, p: Deployment)
    requires SpentTrial(m, t, p) && t.digest != p.digest
    ensures var home := Run(m, HOME_BOOT);
      && home.up.On? && home.up.session.booted == p && home.up.session.marker
      && Checked(home, good) == home
      && Step(home, WatchdogFires) == m.(disk := m.disk.(counter := Some(-1)))
  {
    HomeBootIsGuarded(m, t, p);
    CheckWithoutTrial(Run(m, HOME_BOOT), good);
  }

  /** `k` such boots, each reset by the watchdog. */
  function HomeBoots(k: nat): seq<Event> {
    if k == 0 then [] else HomeBoots(k - 1) + (HOME_BOOT + [WatchdogFires])
  }

  /** The machine reboots the healthy deployment for as long as the demotion fails. */
  lemma {:induction false} HomeLoops(m: Machine, k: nat, t: Deployment, p: Deployment)
    requires SpentTrial(m, t, p) && m.disk.counter == Some(-1) && t.digest != p.digest
    ensures Run(m, HomeBoots(k)) == m
    decreases k
  {
    if k > 0 {
      HomeLoops(m, k - 1, t, p);
      HomeIsReset(m, true, t, p);
      RunSplit(m, HomeBoots(k - 1), HOME_BOOT + [WatchdogFires]);
      RunThen(m, HOME_BOOT, WatchdogFires);
    }
  }

  /** It is reached from the start of a trial by hangs and one boot whose demotion fails. */
  lemma {:induction false} HomeLoopIsReachable(m: Machine, t: Deployment, p: Deployment, n: nat)
    requires Start(m, t, p, n)
    ensures var m' := Run(m, Recovery.Hangs(n) + (HOME_BOOT + [WatchdogFires]));
      SpentTrial(m', t, p) && m'.disk.counter == Some(-1)
  {
    Recovery.HangsOnlyCount(m, n, t, p, n);
    var spent := Run(m, Recovery.Hangs(n));
    HomeIsReset(spent, true, t, p);
    RunSplit(m, Recovery.Hangs(n), HOME_BOOT + [WatchdogFires]);
    RunThen(spent, HOME_BOOT, WatchdogFires);
  }

  // ---- systemd-boot --------------------------------------------------------

  predicate PreviousUnmarked(m: Machine, p: Deployment) {
    m.up.On? && m.up.session.booted == p ==>
      !m.up.session.marker && !m.up.session.watchdog && !(m.up.session.pc.Guard? && !m.up.session.pc.guard.Unassessed?)
  }

  lemma {:induction false} StepKeepsUnmarked(m: Machine, e: Event, t: Deployment, p: Deployment, n: nat)
    requires SdTrial.Trial(m, t, p, n) && PreviousUnmarked(m, p)
    ensures PreviousUnmarked(Step(m, e), p)
  {
    if m.up.On? && e.Do? {
      match m.up.session.pc
      case Loading => SdTrial.JudgeAny(m, t, p, n);
      case Guard(pc) =>
      case Demote(pc) =>
      case Clear(pc) =>
      case Check(pc) =>
      case Arm(pc) =>
      case _ =>
    }
  }

  /** On systemd-boot the previous deployment, whose entry carries no counter, is never taken
      for a trial: no boot of it is marked or watched, in any run. */
  lemma {:induction false} PreviousIsNeverMarked(m: Machine, es: seq<Event>, t: Deployment, p: Deployment, n: nat)
    requires SdTrial.Start(m, t, p, n) && TrialEvents(m, es)
    ensures PreviousUnmarked(Run(m, es), p)
    decreases |es|
  {
    if es != [] {
      var prefix, e := es[..|es| - 1], es[|es| - 1];
      PreviousIsNeverMarked(m, prefix, t, p, n);
      SdTrial.TrialInvariant(m, prefix, t, p, n);
      StepKeepsUnmarked(Run(m, prefix), e, t, p, n);
    }
  }
}
