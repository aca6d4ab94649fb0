/**
  Both backends refine one abstract trial. A schedule says what becomes of each boot of
  the target; nothing is interrupted and no effect fails. On every boot both backends
  start the deployment the abstract trial starts and judge it the same way.
*/
module Refinement {
  import opened Options
  import opened Assessments
  import opened Protocol
  import opened Services
  import opened GrubServices
  import GrubTrial
  import SdServices
  import SdTrial

  /** A boot hangs before its boot service, or stalls after it, or its check fails, or passes
      and the boot goes on past the timeout of its watchdog. */
  datatype Fate = Hangs | Stalls | FailsCheck | PassesCheck

  datatype Abstract = Trying(left: nat) | Kept | Reverted

  /** What is booted, how it is judged, and whether the machine turns itself off in the end. */
  datatype Sight = Sight(booted: Deployment, judged: Assessment, resets: bool)

  function Next(a: Abstract, f: Fate): Abstract {
    match a
    case Trying(left) =>
      if left == 0 then Reverted
      else if f.PassesCheck? then Kept
      else if f.FailsCheck? && left == 1 then Reverted
      else Trying(left - 1)
    case _ => a
  }

  function Sees(a: Abstract, f: Fate, t: Deployment, p: Deployment): Sight {
    match a
    case Trying(left) =>
      if left == 0 then Sight(p, FellBack(t.digest), false)
      else Sight(t, TrialInProgress, f.Stalls? || f.FailsCheck?)
    case Kept => Sight(t, Quiet, false)
    case Reverted => Sight(p, Quiet, false)
  }

  /** The machine has started and will judge what `Sees` says. */
  predicate Starts(m: Machine, a: Abstract, t: Deployment, p: Deployment) {
    m.up.On? &&
    var sight := Sees(a, Hangs, t, p);
    m.up.session.booted == sight.booted && Judge(m.disk, m.up.session) == sight.judged
  }

  function AbstractSights(a: Abstract, fates: seq<Fate>, t: Deployment, p: Deployment): seq<Sight>
    decreases |fates|
  {
    if fates == [] then [] else [Sees(a, fates[0], t, p)] + AbstractSights(Next(a, fates[0]), fates[1..], t, p)
  }

  // ---- the machine under a schedule ----------------------------------------

  /** A boot that runs its boot service and then stalls until its watchdog, if it has one,
      resets it. */
  function StalledBoot(): seq<Event> {
    [PowerOn(true, true), StartBoot] + Dones(6) + [WatchdogFires]
  }

  /** Hangs befall only the target's boots; other boots run their services. */
  function BootEvents(m: Machine, f: Fate, t: Deployment): seq<Event> {
    var up := Step(m, PowerOn(true, true)).up;
    if f.Hangs? && up.On? && up.session.booted == t then [PowerOn(true, true)]
    else if f.Stalls? && up.On? && up.session.booted == t then StalledBoot()
    else WholeBoot(f.PassesCheck?)
  }

  /** The machine at the end of a boot, before it is shut down. */
  function Ended(m: Machine, f: Fate, t: Deployment): Machine {
    Run(m, BootEvents(m, f, t))
  }

  function Sights(m: Machine, fates: seq<Fate>, t: Deployment): seq<Sight>
    decreases |fates|
  {
    if fates == [] then []
    else
      var m' := Step(m, PowerOn(true, true));
      var ended := Ended(m, fates[0], t);
      (if m'.up.On? then [Sight(m'.up.session.booted, Judge(m'.disk, m'.up.session), ended.up.Off?)] else []) +
      Sights(Step(ended, Cut), fates[1..], t)
  }

  // ---- GRUB ----------------------------------------------------------------

  predicate GrubRefines(m: Machine, a: Abstract, t: Deployment, p: Deployment, n: nat) {
    && GrubTrial.Trial(m, t, p, n) && m.up.Off?
    && match a
       case Trying(left) =>
         GrubTrial.InTrial(m.disk, t, n) && GrubTrial.TargetFirst(m.disk, t, p) && m.disk.counter == Some(left)
       case Kept => GrubTrial.Cleared(m.disk) && GrubTrial.TargetFirst(m.disk, t, p)
       case Reverted => Recovered(m, t, p) && t.digest in m.rejected
  }

  lemma {:induction false} GrubSees(m: Machine, a: Abstract, t: Deployment, p: Deployment, n: nat)
    requires GrubRefines(m, a, t, p, n)
    ensures var m' := Step(m, PowerOn(true, true));
      Starts(m', a, t, p) && m'.up == On(Fresh(m'.up.session.booted, None))
  {
    var m' := Step(m, PowerOn(true, true));
    if a.Trying? {
      assert GrubTrial.InTrial(m'.disk, t, n);
      GrubTrial.JudgeInTrial(m'.disk, m'.up.session, t, n);
    } else {
      GrubTrial.JudgeCleared(m'.disk, m'.up.session);
    }
  }

  lemma {:induction false} GrubPass(m: Machine)
    requires m.disk.Grub? && AtPc(m, Clear(Forgetting(Confirmed, 2)))
    ensures AllDone(m, 6) == m.(disk := Forget(m.disk), up := On(m.up.session.(confirmed := true, pc := Idle)))
  {
    var m1 := Step(m, Do(Done));
    assert m1 == At(m.(disk := Forget(m.disk)), Check(EndingWatchdog));
    var m2 := Step(m1, Do(Done));
    assert AllDone(m, 6) == AllDone(m1, 5) == AllDone(m2, 4);
    Afterwards(m2, 4);
  }

  lemma {:induction false} GrubFail(m: Machine, t: Deployment, p: Deployment, n: nat)
    requires GrubTrial.Trial(m, t, p, n) && m.up.On? && AtPc(m, Check(Rereading(m.disk.counter)))
    ensures var m' := AllDone(m, 6);
      if m.disk.counter.value > 0 then m' == m.(up := Off)
      else Recovered(m', t, p) && t.digest in m'.rejected && m'.up.Off?
  {
    GrubTrial.JudgeInTrial(m.disk, m.up.session, t, n);
    var m1 := Step(m, Do(Done));
    if m.disk.counter.value > 0 {
      assert m1 == At(m, Check(RequestingReboot));
      var m2 := Step(m1, Do(Done));
      assert AllDone(m, 6) == AllDone(m1, 5) == AllDone(m2, 4);
      Afterwards(m2, 4);
    } else {
      GrubTrial.StepKeepsTrial(m, Do(Done), t, p, n);
      assert AtPc(m1, Demote(ReadingDefault(RollBack(t.digest, true)))) && m1.rejected == m.rejected;
      DemotionCompletes(m1, RollBack(t.digest, true), t, p, n);
      assert AllDone(m, 6) == AllDone(m1, 5);
    }
  }

  lemma {:induction false} GrubComesToVerdict(m: Machine, good: bool, t: Deployment, p: Deployment, n: nat)
    requires GrubTrial.Trial(m, t, p, n) && GrubTrial.InTrial(m.disk, t, n)
    requires AtPc(m, Idle) && m.up.session.booted == t && m.disk.counter.value >= 0
    ensures Step(Step(Step(m, StartCheck), Do(Done)), Verdict(good)) ==
      At(m, if good then Clear(Forgetting(Confirmed, 2)) else Check(Rereading(m.disk.counter)))
  {
    var m1 := Step(m, StartCheck);
    GrubTrial.JudgeInTrial(m1.disk, m1.up.session, t, n);
    assert Step(m1, Do(Done)) == At(m, Check(Checking(m.disk.counter)));
  }

  /** A trial boot whose checks come to a verdict. */
  lemma {:induction false} GrubVerdict(m: Machine, good: bool, t: Deployment, p: Deployment, n: nat)
    requires GrubTrial.Trial(m, t, p, n) && GrubTrial.InTrial(m.disk, t, n) && GrubTrial.TargetFirst(m.disk, t, p)
    requires AtPc(m, Idle) && m.up.session.booted == t
    requires m.disk.counter.value >= 0
    ensures var m' := Step(Checked(m, good), WatchdogFires);
      if good then m' == m.(disk := Forget(m.disk), up := On(m.up.session.(confirmed := true)))
      else if m.disk.counter.value > 0 then m' == m.(up := Off)
      else Recovered(m', t, p) && t.digest in m'.rejected && m'.up.Off?
  {
    hide AllDone;
    GrubComesToVerdict(m, good, t, p, n);
    if good {
      GrubPass(At(m, Clear(Forgetting(Confirmed, 2))));
    } else {
      GrubFail(At(m, Check(Rereading(m.disk.counter))), t, p, n);
    }
  }

  /** The boot service starts and reads what `Sees` says. */
  lemma {:induction false} GrubLoads(m: Machine, a: Abstract, t: Deployment, p: Deployment, n: nat)
    requires GrubRefines(m, a, t, p, n)
    ensures var m2 := Step(Step(m, PowerOn(true, true)), StartBoot);
      && GrubTrial.Trial(m2, t, p, n) && AtPc(m2, Loading)
      && Starts(m2, a, t, p) && !m2.up.session.confirmed && !m2.up.session.watchdog
      && m2.disk == Step(m, PowerOn(true, true)).disk && m2.rejected == m.rejected
      && m2.up.session.selected == Step(m, PowerOn(true, true)).up.session.selected
  {
    GrubSees(m, a, t, p, n);
    var m1 := Step(m, PowerOn(true, true));
    GrubTrial.StepKeepsTrial(m, PowerOn(true, true), t, p, n);
    GrubTrial.StepKeepsTrial(m1, StartBoot, t, p, n);
    var m2 := Step(m1, StartBoot);
    assert m2.up.session == m1.up.session.(pc := Loading);
    assert Judge(m2.disk, m2.up.session) == Judge(m1.disk, m1.up.session);
  }

  lemma {:induction false} GrubStepTrying(m: Machine, a: Abstract, good: bool, t: Deployment, p: Deployment, n: nat)
    requires GrubRefines(m, a, t, p, n) && a.Trying? && a.left > 0
    ensures var m' := Step(Checked(Booted(m), good), WatchdogFires);
      (m'.up.Off? <==> !good) &&
      (GrubTrial.Trial(m', t, p, n) ==> GrubRefines(Step(m', Cut), Next(a, if good then PassesCheck else FailsCheck), t, p, n))
  {
    GrubSees(m, a, t, p, n);
    GrubLoads(m, a, t, p, n);
    var m2 := Step(Step(m, PowerOn(true, true)), StartBoot);
    GuardCompletes(m2, 3);
    GrubVerdict(Booted(m), good, t, p, n);
  }

  lemma {:induction false} GrubStepFallsBack(m: Machine, a: Abstract, good: bool, t: Deployment, p: Deployment, n: nat)
    requires GrubRefines(m, a, t, p, n) && a == Trying(0)
    ensures var m' := Step(Checked(Booted(m), good), WatchdogFires);
      m'.up.On? && (GrubTrial.Trial(m', t, p, n) ==> GrubRefines(Step(m', Cut), Reverted, t, p, n))
  {
    GrubSees(m, a, t, p, n);
    GrubLoads(m, a, t, p, n);
    var m2 := Step(Step(m, PowerOn(true, true)), StartBoot);
    var m3 := Step(m2, Do(Done));
    GrubTrial.StepKeepsTrial(m2, Do(Done), t, p, n);
    assert m3 == At(m2, Demote(ReadingDefault(FallBack(t.digest))));
    DemotionCompletes(m3, FallBack(t.digest), t, p, n);
    assert Booted(m) == AllDone(m3, 5);
    CheckWithoutTrial(Booted(m), good);
  }

  lemma {:induction false} GrubStepSettled(m: Machine, a: Abstract, good: bool, t: Deployment, p: Deployment, n: nat)
    requires GrubRefines(m, a, t, p, n) && !a.Trying?
    ensures var m' := Step(Checked(Booted(m), good), WatchdogFires);
      m'.up.On? && (GrubTrial.Trial(m', t, p, n) ==> GrubRefines(Step(m', Cut), a, t, p, n))
  {
    GrubSees(m, a, t, p, n);
    GrubLoads(m, a, t, p, n);
    QuietCompletes(Step(Step(m, PowerOn(true, true)), StartBoot), 5);
    CheckWithoutTrial(Booted(m), good);
  }

  lemma {:induction false} GrubStepHangs(m: Machine, a: Abstract, t: Deployment, p: Deployment, n: nat)
    requires GrubRefines(m, a, t, p, n) && Sees(a, Hangs, t, p).booted == t
    ensures var m' := Step(m, PowerOn(true, true));
      m'.up.On? && (GrubTrial.Trial(m', t, p, n) ==> GrubRefines(Step(m', Cut), Next(a, Hangs), t, p, n))
  {
    GrubSees(m, a, t, p, n);
  }

  /** A trial boot that stalls after its boot service is reset by its watchdog. */
  lemma {:induction false} GrubStepStalls(m: Machine, a: Abstract, t: Deployment, p: Deployment, n: nat)
    requires GrubRefines(m, a, t, p, n) && Sees(a, Stalls, t, p).booted == t
    ensures var m' := Step(Booted(m), WatchdogFires);
      (m'.up.Off? <==> a.Trying?) &&
      (GrubTrial.Trial(m', t, p, n) ==> GrubRefines(Step(m', Cut), Next(a, Stalls), t, p, n))
  {
    GrubSees(m, a, t, p, n);
    GrubLoads(m, a, t, p, n);
    var m2 := Step(Step(m, PowerOn(true, true)), StartBoot);
    if a.Trying? { GuardCompletes(m2, 3); } else { QuietCompletes(m2, 5); }
  }

  lemma {:induction false} GrubStep(m: Machine, a: Abstract, f: Fate, t: Deployment, p: Deployment, n: nat)
    requires GrubRefines(m, a, t, p, n)
    ensures GrubRefines(Step(Ended(m, f, t), Cut), Next(a, f), t, p, n)
    ensures Ended(m, f, t).up.Off? <==> Sees(a, f, t, p).resets
  {
    hide Step, Run, TrialEvents, Checked, Booted;
    GrubSees(m, a, t, p, n);
    EventsAreTrialEvents(m, f, t);
    GrubTrial.TrialInvariant(m, BootEvents(m, f, t), t, p, n);
    if f.Hangs? && Sees(a, f, t, p).booted == t {
      HangRun(m);
      GrubStepHangs(m, a, t, p, n);
    } else if f.Stalls? && Sees(a, f, t, p).booted == t {
      StallRun(m);
      GrubStepStalls(m, a, t, p, n);
    } else {
      var good := f.PassesCheck?;
      RunWholeBoot(m, good);
      if a.Trying? && a.left > 0 {
        GrubStepTrying(m, a, good, t, p, n);
      } else if a.Trying? {
        GrubStepFallsBack(m, a, good, t, p, n);
      } else {
        GrubStepSettled(m, a, good, t, p, n);
      }
    }
  }

  lemma HangRun(m: Machine)
    ensures Run(m, [PowerOn(true, true)]) == Step(m, PowerOn(true, true))
  {
    RunThen(m, [], PowerOn(true, true));
    assert [] + [PowerOn(true, true)] == [PowerOn(true, true)];
  }

  lemma StallRun(m: Machine)
    ensures Run(m, StalledBoot()) == Step(Booted(m), WatchdogFires)
  {
    var boot := [PowerOn(true, true), StartBoot] + Dones(6);
    RunThen(m, boot, WatchdogFires);
    RunBooted(m);
  }

  lemma EventsAreTrialEvents(m: Machine, f: Fate, t: Deployment)
    requires m.up.Off?
    ensures TrialEvents(m, BootEvents(m, f, t))
  {
    hide Step, Run, TrialEvents;
    DonesAre(6);
    var es := BootEvents(m, f, t);
    assert forall i :: 0 <= i < |es| ==> !es[i].StartArm?;
    NoArmCalled(m, es);
  }

  lemma {:induction false} DonesAre(k: nat)
    ensures |Dones(k)| == k && forall i :: 0 <= i < k ==> Dones(k)[i] == Do(Done)
  {
    if k > 0 { DonesAre(k - 1); }
  }

  // ---- systemd-boot --------------------------------------------------------

  predicate SdRefines(m: Machine, a: Abstract, t: Deployment, p: Deployment, n: nat) {
    && SdTrial.Trial(m, t, p, n) && m.up.Off?
    && match a
       case Trying(left) =>
         m.disk.record == Some(t) && m.disk.entries[0].tries.Some? && m.disk.entries[0].tries.value.left == left
       case Kept => m.disk.entries[0].tries.None?
       case Reverted => m.disk.record.None? && SdTrial.TargetBad(m.disk) && t.digest in m.rejected
  }

  lemma {:induction false} SdSees(m: Machine, a: Abstract, t: Deployment, p: Deployment, n: nat)
    requires SdRefines(m, a, t, p, n)
    ensures var m' := Step(m, PowerOn(true, true));
      Starts(m', a, t, p) &&
      m'.up == On(Fresh(m'.up.session.booted, m'.up.session.selected)) &&
      m'.disk.record == m.disk.record && m'.rejected == m.rejected &&
      (if a.Trying? && a.left > 0
       then m'.up.session.selected == Some(m'.disk.entries[0]) && m'.disk.entries[0] == Bumped(m.disk.entries[0])
       else m'.disk == m.disk)
  {
    var m' := Step(m, PowerOn(true, true));
    SdTrial.StepKeepsTrial(m, PowerOn(true, true), t, p, n);
    SdTrial.Chooses(m.disk, t, p, n);
    SdTrial.JudgeAny(m', t, p, n);
    if SdTrial.TargetBad(m.disk) {
      assert m.disk.entries[1 := Bumped(m.disk.entries[1])] == m.disk.entries;
    } else if a.Kept? {
      assert m.disk.entries[0 := Bumped(m.disk.entries[0])] == m.disk.entries;
    }
  }

  /** The boot service starts and reads what `Sees` says. */
  lemma {:induction false} SdLoads(m: Machine, a: Abstract, t: Deployment, p: Deployment, n: nat)
    requires SdRefines(m, a, t, p, n)
    ensures var m2 := Step(Step(m, PowerOn(true, true)), StartBoot);
      && SdTrial.Trial(m2, t, p, n) && AtPc(m2, Loading)
      && Starts(m2, a, t, p) && !m2.up.session.confirmed && !m2.up.session.watchdog
      && m2.disk == Step(m, PowerOn(true, true)).disk && m2.rejected == m.rejected
      && m2.up.session.selected == Step(m, PowerOn(true, true)).up.session.selected
  {
    SdSees(m, a, t, p, n);
    var m1 := Step(m, PowerOn(true, true));
    SdTrial.StepKeepsTrial(m, PowerOn(true, true), t, p, n);
    SdTrial.StepKeepsTrial(m1, StartBoot, t, p, n);
    var m2 := Step(m1, StartBoot);
    assert m2.up.session == m1.up.session.(pc := Loading);
    assert Judge(m2.disk, m2.up.session) == Judge(m1.disk, m1.up.session);
  }

  lemma {:induction false} SdStepTrying(m: Machine, a: Abstract, good: bool, t: Deployment, p: Deployment, n: nat)
    requires SdRefines(m, a, t, p, n) && a.Trying? && a.left > 0
    ensures var m' := Step(Checked(Booted(m), good), WatchdogFires);
      (m'.up.Off? <==> !good) &&
      (SdTrial.Trial(m', t, p, n) ==> SdRefines(Step(m', Cut), Next(a, if good then PassesCheck else FailsCheck), t, p, n))
  {
    SdSees(m, a, t, p, n);
    SdLoads(m, a, t, p, n);
    var m2 := Step(Step(m, PowerOn(true, true)), StartBoot);
    GuardCompletes(m2, 3);
    SdServices.CheckCompletes(Booted(m), good, t, p, n);
  }

  lemma {:induction false} SdStepFallsBack(m: Machine, a: Abstract, good: bool, t: Deployment, p: Deployment, n: nat)
    requires SdRefines(m, a, t, p, n) && a == Trying(0)
    ensures var m' := Step(Checked(Booted(m), good), WatchdogFires);
      m'.up.On? && (SdTrial.Trial(m', t, p, n) ==> SdRefines(Step(m', Cut), Reverted, t, p, n))
  {
    SdSees(m, a, t, p, n);
    SdLoads(m, a, t, p, n);
    var m2 := Step(Step(m, PowerOn(true, true)), StartBoot);
    var m3 := Step(m2, Do(Done));
    SdTrial.StepKeepsTrial(m2, Do(Done), t, p, n);
    assert m3 == At(m2, Demote(MarkingBad(FallBack(t.digest))));
    SdServices.DemotionCompletes(m3, FallBack(t.digest), t, p, n);
    assert Booted(m) == AllDone(m3, 5);
    CheckWithoutTrial(Booted(m), good);
  }

  lemma {:induction false} SdStepSettled(m: Machine, a: Abstract, good: bool, t: Deployment, p: Deployment, n: nat)
    requires SdRefines(m, a, t, p, n) && !a.Trying?
    ensures var m' := Step(Checked(Booted(m), good), WatchdogFires);
      m'.up.On? && (SdTrial.Trial(m', t, p, n) ==> SdRefines(Step(m', Cut), a, t, p, n))
  {
    SdSees(m, a, t, p, n);
    SdLoads(m, a, t, p, n);
    QuietCompletes(Step(Step(m, PowerOn(true, true)), StartBoot), 5);
    CheckWithoutTrial(Booted(m), good);
  }

  lemma {:induction false} SdStepHangs(m: Machine, a: Abstract, t: Deployment, p: Deployment, n: nat)
    requires SdRefines(m, a, t, p, n) && Sees(a, Hangs, t, p).booted == t
    ensures var m' := Step(m, PowerOn(true, true));
      m'.up.On? && (SdTrial.Trial(m', t, p, n) ==> SdRefines(Step(m', Cut), Next(a, Hangs), t, p, n))
  {
    SdSees(m, a, t, p, n);
  }

  /** A trial boot that stalls after its boot service is reset by its watchdog. */
  lemma {:induction false} SdStepStalls(m: Machine, a: Abstract, t: Deployment, p: Deployment, n: nat)
    requires SdRefines(m, a, t, p, n) && Sees(a, Stalls, t, p).booted == t
    ensures var m' := Step(Booted(m), WatchdogFires);
      (m'.up.Off? <==> a.Trying?) &&
      (SdTrial.Trial(m', t, p, n) ==> SdRefines(Step(m', Cut), Next(a, Stalls), t, p, n))
  {
    SdSees(m, a, t, p, n);
    SdLoads(m, a, t, p, n);
    var m2 := Step(Step(m, PowerOn(true, true)), StartBoot);
    if a.Trying? { GuardCompletes(m2, 3); } else { QuietCompletes(m2, 5); }
  }

  lemma {:induction false} SdStep(m: Machine, a: Abstract, f: Fate, t: Deployment, p: Deployment, n: nat)
    requires SdRefines(m, a, t, p, n)
    ensures SdRefines(Step(Ended(m, f, t), Cut), Next(a, f), t, p, n)
    ensures Ended(m, f, t).up.Off? <==> Sees(a, f, t, p).resets
  {
    hide Step, Run, TrialEvents, Checked, Booted;
    SdSees(m, a, t, p, n);
    EventsAreTrialEvents(m, f, t);
    SdTrial.TrialInvariant(m, BootEvents(m, f, t), t, p, n);
    if f.Hangs? && Sees(a, f, t, p).booted == t {
      HangRun(m);
      SdStepHangs(m, a, t, p, n);
    } else if f.Stalls? && Sees(a, f, t, p).booted == t {
      StallRun(m);
      SdStepStalls(m, a, t, p, n);
    } else {
      var good := f.PassesCheck?;
      RunWholeBoot(m, good);
      if a.Trying? && a.left > 0 {
        SdStepTrying(m, a, good, t, p, n);
      } else if a.Trying? {
        SdStepFallsBack(m, a, good, t, p, n);
      } else {
        SdStepSettled(m, a, good, t, p, n);
      }
    }
  }

  // ---- a healthy boot is not reset -----------------------------------------

  /** A boot of the target whose check passed is confirmed and on, and its watchdog leaves it
      so. */
  predicate Survives(m: Machine) {
    m.up.On? && m.up.session.confirmed && m.up.session.watchdog && Step(m, WatchdogFires) == m
  }

  lemma {:induction false} GrubHealthyIsKept(m: Machine, left: nat, t: Deployment, p: Deployment, n: nat)
    requires GrubRefines(m, Trying(left), t, p, n) && left > 0
    ensures Survives(Checked(Booted(m), true))
  {
    GrubSees(m, Trying(left), t, p, n);
    GrubLoads(m, Trying(left), t, p, n);
    var m2 := Step(Step(m, PowerOn(true, true)), StartBoot);
    GuardCompletes(m2, 3);
    GrubComesToVerdict(Booted(m), true, t, p, n);
    GrubPass(At(Booted(m), Clear(Forgetting(Confirmed, 2))));
  }

  lemma {:induction false} SdHealthyIsKept(m: Machine, left: nat, t: Deployment, p: Deployment, n: nat)
    requires SdRefines(m, Trying(left), t, p, n) && left > 0
    ensures Survives(Checked(Booted(m), true))
  {
    SdSees(m, Trying(left), t, p, n);
    SdLoads(m, Trying(left), t, p, n);
    var m2 := Step(Step(m, PowerOn(true, true)), StartBoot);
    GuardCompletes(m2, 3);
    SdServices.CheckCompletes(Booted(m), true, t, p, n);
  }

  // ---- the two agree -------------------------------------------------------

  lemma {:induction false} GrubRefinesAbstract(m: Machine, a: Abstract, fates: seq<Fate>, t: Deployment, p: Deployment, n: nat)
    requires GrubRefines(m, a, t, p, n)
    ensures Sights(m, fates, t) == AbstractSights(a, fates, t, p)
    decreases |fates|
  {
    if fates != [] {
      GrubSees(m, a, t, p, n);
      GrubStep(m, a, fates[0], t, p, n);
      GrubRefinesAbstract(Step(Ended(m, fates[0], t), Cut), Next(a, fates[0]), fates[1..], t, p, n);
    }
  }

  lemma {:induction false} SdRefinesAbstract(m: Machine, a: Abstract, fates: seq<Fate>, t: Deployment, p: Deployment, n: nat)
    requires SdRefines(m, a, t, p, n)
    ensures Sights(m, fates, t) == AbstractSights(a, fates, t, p)
    decreases |fates|
  {
    if fates != [] {
      SdSees(m, a, t, p, n);
      SdStep(m, a, fates[0], t, p, n);
      SdRefinesAbstract(Step(Ended(m, fates[0], t), Cut), Next(a, fates[0]), fates[1..], t, p, n);
    }
  }

  /** The same schedule gives the same deployment and the same assessment at every boot. */
  lemma BackendsAgree(grub: Machine, sd: Machine, fates: seq<Fate>, t: Deployment, p: Deployment, n: nat)
    requires GrubTrial.Start(grub, t, p, n) && SdTrial.Start(sd, t, p, n)
    ensures Sights(grub, fates, t) == Sights(sd, fates, t) == AbstractSights(Trying(n), fates, t, p)
  {
    GrubRefinesAbstract(grub, Trying(n), fates, t, p, n);
    SdRefinesAbstract(sd, Trying(n), fates, t, p, n);
  }
}
