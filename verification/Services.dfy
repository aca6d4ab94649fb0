/** The services of one boot, run to their end with no effect failing, on either backend. */
module Services {
  import opened Assessments
  import opened Protocol

  predicate AtPc(m: Machine, pc: Pc) {
    m.up.On? && m.up.session.pc == pc
  }

  lemma {:induction false} AllDoneSplit(m: Machine, j: nat, k: nat)
    ensures AllDone(m, j + k) == AllDone(AllDone(m, j), k)
    decreases j
  {
    if j > 0 { AllDoneSplit(Step(m, Do(Done)), j - 1, k); }
  }

  /** Nothing more happens at the end of a command, except that a requested reboot comes. */
  lemma {:induction false} Afterwards(m: Machine, k: nat)
    requires AtPc(m, Idle) || AtPc(m, Rebooting) || m.up.Off?
    ensures AllDone(m, k).disk == m.disk && AllDone(m, k).rejected == m.rejected && AllDone(m, k).cfg == m.cfg
    ensures AtPc(m, Idle) ==> AllDone(m, k) == m
    ensures AtPc(m, Rebooting) ==> AllDone(m, k) == if k == 0 then m else m.(up := Off)
    ensures m.up.Off? ==> AllDone(m, k) == m
    decreases k
  {
    if k > 0 { Afterwards(Step(m, Do(Done)), k - 1); }
  }

  /** The boot service of a trial boot: marker written, watchdog running. */
  lemma {:induction false} GuardCompletes(m: Machine, k: nat)
    requires AtPc(m, Loading) && Judge(m.disk, m.up.session) == TrialInProgress
    ensures AllDone(m, 3 + k) == m.(up := On(m.up.session.(marker := true, watchdog := true, pc := Idle)))
  {
    var m1 := Step(m, Do(Done));
    assert m1 == At(m, Guard(Marking(false)));
    var m2 := Step(m1, Do(Done));
    assert m2 == m.(up := On(m.up.session.(marker := true, pc := Guard(StartingWatchdog))));
    var m3 := Step(m2, Do(Done));
    assert AllDone(m, 3 + k) == AllDone(m1, 2 + k) == AllDone(m2, 1 + k) == AllDone(m3, k);
    Afterwards(m3, k);
  }

  /** The boot service when there is nothing to do. */
  lemma {:induction false} QuietCompletes(m: Machine, k: nat)
    requires AtPc(m, Loading) && Judge(m.disk, m.up.session) == Quiet
    ensures AllDone(m, 1 + k) == At(m, Idle)
  {
    Afterwards(Step(m, Do(Done)), k);
  }

  // ---- one whole boot ------------------------------------------------------

  function Dones(k: nat): seq<Event> {
    if k == 0 then [] else Dones(k - 1) + [Do(Done)]
  }

  lemma {:induction false} RunDones(m: Machine, k: nat)
    ensures Run(m, Dones(k)) == AllDone(m, k)
    decreases k
  {
    if k > 0 {
      RunThen(m, Dones(k - 1), Do(Done));
      RunDones(m, k - 1);
      AllDoneSplit(m, k - 1, 1);
      assert AllDone(AllDone(m, k - 1), 1) == AllDone(Step(AllDone(m, k - 1), Do(Done)), 0);
    }
  }

  /** A boot that runs its boot service, then its check service with the given verdict,
      and goes on until a watchdog's timeout. */
  function WholeBoot(good: bool): seq<Event> {
    [PowerOn(true, true), StartBoot] + Dones(6) + [StartCheck, Do(Done), Verdict(good)] + Dones(6) + [WatchdogFires]
  }

  function Booted(m: Machine): Machine {
    AllDone(Step(Step(m, PowerOn(true, true)), StartBoot), 6)
  }

  function Checked(m: Machine, good: bool): Machine {
    AllDone(Step(Step(Step(m, StartCheck), Do(Done)), Verdict(good)), 6)
  }

  lemma RunTwo(m: Machine, a: Event, b: Event)
    ensures Run(m, [a, b]) == Step(Step(m, a), b)
  {
    RunThen(m, [], a);
    RunThen(m, [a], b);
    assert [] + [a] == [a] && [a] + [b] == [a, b];
  }

  lemma RunThree(m: Machine, a: Event, b: Event, c: Event)
    ensures Run(m, [a, b, c]) == Step(Step(Step(m, a), b), c)
  {
    RunTwo(m, a, b);
    RunThen(m, [a, b], c);
    assert [a, b] + [c] == [a, b, c];
  }

  lemma RunBooted(m: Machine)
    ensures Run(m, [PowerOn(true, true), StartBoot] + Dones(6)) == Booted(m)
  {
    RunSplit(m, [PowerOn(true, true), StartBoot], Dones(6));
    RunTwo(m, PowerOn(true, true), StartBoot);
    RunDones(Step(Step(m, PowerOn(true, true)), StartBoot), 6);
  }

  lemma RunChecked(m: Machine, good: bool)
    ensures Run(m, [StartCheck, Do(Done), Verdict(good)] + Dones(6)) == Checked(m, good)
  {
    RunSplit(m, [StartCheck, Do(Done), Verdict(good)], Dones(6));
    RunThree(m, StartCheck, Do(Done), Verdict(good));
    RunDones(Step(Step(Step(m, StartCheck), Do(Done)), Verdict(good)), 6);
  }

  lemma RunWholeBoot(m: Machine, good: bool)
    ensures Run(m, WholeBoot(good)) == Step(Checked(Booted(m), good), WatchdogFires)
  {
    var a, b := [PowerOn(true, true), StartBoot] + Dones(6), [StartCheck, Do(Done), Verdict(good)] + Dones(6);
    assert WholeBoot(good) == (a + b) + [WatchdogFires];
    RunThen(m, a + b, WatchdogFires);
    RunSplit(m, a, b);
    RunBooted(m);
    RunChecked(Booted(m), good);
  }

  /** A check outside a trial does nothing. */
  lemma {:induction false} CheckWithoutTrial(m: Machine, good: bool)
    requires AtPc(m, Idle) && Judge(m.disk, m.up.session) != TrialInProgress
    ensures Checked(m, good) == m
  {
    var m1 := Step(m, StartCheck);
    assert m1 == At(m, Check(Reading));
    assert Judge(m1.disk, m1.up.session) == Judge(m.disk, m.up.session);
    var m2 := Step(m1, Do(Done));
    assert m2 == m;
    Afterwards(m, 6);
  }

  // ---- runs without `arm` --------------------------------------------------

  predicate Arms(m: Machine) {
    m.up.On? && m.up.session.pc.Arm?
  }

  lemma {:induction false} AssessDoesNotArm(m: Machine)
    requires m.up.On?
    ensures !Arms(At(m, AssessedPc(m.disk, m.up.session)))
  {
  }

  lemma {:induction false} DemoteDoesNotArm(m: Machine, pc: DemotePc, o: Outcome)
    requires m.up.On?
    ensures !Arms(DemoteEffect(m, pc, o))
  {
  }

  lemma {:induction false} ClearDoesNotArm(m: Machine, pc: ClearPc, o: Outcome)
    requires m.up.On?
    ensures !Arms(ClearEffect(m, pc, o))
  {
  }

  lemma {:induction false} CheckDoesNotArm(m: Machine, pc: CheckPc, o: Outcome)
    requires m.up.On? && m.up.session.pc == Check(pc)
    ensures !Arms(CheckEffect(m, pc, o))
  {
  }

  lemma {:induction false} OthersDoNotArm(m: Machine, o: Outcome)
    requires m.up.On? && !m.up.session.pc.Arm?
    ensures !Arms(Effect(m, o))
  {
    match m.up.session.pc
    case Loading => AssessDoesNotArm(m);
    case Guard(pc) =>
    case Demote(pc) => DemoteDoesNotArm(m, pc, o);
    case Clear(pc) => ClearDoesNotArm(m, pc, o);
    case Check(pc) => CheckDoesNotArm(m, pc, o);
    case _ =>
  }

  lemma BootDoesNotArm(m: Machine, e: Event)
    requires m.up.Off?
    ensures Step(m, e).up.On? ==> Step(m, e).up.session.pc == Starting
  {
  }

  lemma {:induction false} StepDoesNotArm(m: Machine, e: Event)
    requires !Arms(m) && !e.StartArm?
    ensures !Arms(Step(m, e))
  {
    if m.up.Off? {
      BootDoesNotArm(m, e);
    } else if e.Do? {
      OthersDoNotArm(m, e.o);
    }
  }

  /** Events that do not call `arm`, from a machine that does not run it: the trial goes on
      undisturbed. */
  lemma {:induction false} NoArmCalled(m: Machine, es: seq<Event>)
    requires !Arms(m) && forall i :: 0 <= i < |es| ==> !es[i].StartArm?
    ensures TrialEvents(m, es) && !Arms(Run(m, es))
    decreases |es|
  {
    if es != [] {
      var k := |es| - 1;
      NoArmCalled(m, es[..k]);
      StepDoesNotArm(Run(m, es[..k]), es[k]);
    }
  }
}
