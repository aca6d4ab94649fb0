/**
  A GRUB trial comes to an end: after finitely many clean boots it is confirmed or rolled
  back. `Rank` counts the clean boots still needed. No event of any run raises it, however
  many power cuts and failed effects there are; every clean boot lowers it.
*/
module Recovery {
  import opened Options
  import opened Assessments
  import opened Protocol
  import opened History
  import opened GrubTrial
  import opened GrubSafety
  import opened Services
  import opened GrubServices

  function Rank(d: Disk, t: Deployment, p: Deployment): nat {
    if !d.Grub? || Cleared(d) then 0
    else if PreviousFirst(d, t, p) then 1
    else if d.counter.Some? && d.counter.value > 0 then 1 + d.counter.value
    else 1
  }

  lemma {:induction false} StepNeverRaisesRank(m: Machine, e: Event, t: Deployment, p: Deployment, n: nat)
    requires Trial(m, t, p, n) && TrialEvent(m, e)
    ensures Rank(Step(m, e).disk, t, p) <= Rank(m.disk, t, p)
  {
    StepKeepsTrial(m, e, t, p, n);
    if PreviousFirst(m.disk, t, p) {
      StepKeepsPreviousFirst(m, e, t, p, n);
    }
    if Step(m, e).disk != m.disk {
      StepOnlyLowers(m, e, t, p, n);
    }
  }

  lemma {:induction false} StepOnlyLowers(m: Machine, e: Event, t: Deployment, p: Deployment, n: nat)
    requires Trial(m, t, p, n) && TrialEvent(m, e)
    ensures var d := Step(m, e).disk;
      d.Grub? && (d.counter == m.disk.counter || d.counter.None? || d.counter == Counted(m.disk.counter))
    ensures Cleared(m.disk) ==> Cleared(Step(m, e).disk)
  {
    if m.up.On? && e.Do? {
      match m.up.session.pc
      case Demote(pc) =>
      case Clear(pc) =>
      case Guard(pc) =>
      case Check(pc) =>
      case Arm(pc) => ArmingNothing(m, pc, e.o);
      case _ =>
    }
  }

  lemma {:induction false} RunNeverRaisesRank(m: Machine, es: seq<Event>, t: Deployment, p: Deployment, n: nat)
    requires Trial(m, t, p, n) && TrialEvents(m, es)
    ensures Rank(Run(m, es).disk, t, p) <= Rank(m.disk, t, p)
    decreases |es|
  {
    if es != [] {
      var prefix := es[..|es| - 1];
      RunNeverRaisesRank(m, prefix, t, p, n);
      TrialInvariant(m, prefix, t, p, n);
      StepNeverRaisesRank(Run(m, prefix), es[|es| - 1], t, p, n);
    }
  }

  /** The events of a boot that nothing interrupts where an interruption matters: the
      counter is saved, and once the counter is spent or the order swapped, the chosen
      deployment loads and its boot service runs to the end. While attempts remain,
      anything may happen after the counter is saved: a hang, a panic, a failed load, a
      failed check, a power cut during the roll-back. */
  predicate Clean(m: Machine, c: seq<Event>, t: Deployment, p: Deployment) {
    && m.up.Off?
    && |c| > 0 && c[0].PowerOn? && c[0].saved
    && (Rank(m.disk, t, p) <= 1 ==>
          c[0].loads && |c| >= 8 && c[1] == StartBoot && forall i :: 2 <= i < 8 ==> c[i] == Do(Done))
  }

  lemma {:induction false} FinalBootRecovers(m: Machine, t: Deployment, p: Deployment, n: nat)
    requires Trial(m, t, p, n) && InTrial(m.disk, t, n) && m.up.Off? && Rank(m.disk, t, p) <= 1
    ensures Ends(m, AllDone(Step(Step(m, PowerOn(true, true)), StartBoot), 6), t, p)
  {
    var m1 := Step(m, PowerOn(true, true));
    StepKeepsTrial(m, PowerOn(true, true), t, p, n);
    var m2 := Step(m1, StartBoot);
    StepKeepsTrial(m1, StartBoot, t, p, n);
    assert m2.disk == m1.disk && InTrial(m2.disk, t, n);
    JudgeInTrial(m2.disk, m2.up.session, t, n);
    assert m2.up.session.booted == t ==> m2.disk.counter == Some(-1);
    var path := if m2.up.session.booted == p then FallBack(t.digest) else RollBack(t.digest, false);
    var m3 := Step(m2, Do(Done));
    StepKeepsTrial(m2, Do(Done), t, p, n);
    assert m3 == At(m2, Demote(ReadingDefault(path)));
    DemotionCompletes(m3, path, t, p, n);
    assert AllDone(m2, 6) == AllDone(m3, 5);
  }

  lemma {:induction false} CleanBootLowersRank(m: Machine, c: seq<Event>, t: Deployment, p: Deployment, n: nat)
    requires Trial(m, t, p, n) && TrialEvents(m, c) && InTrial(m.disk, t, n) && Clean(m, c, t, p)
    ensures Rank(Run(m, c).disk, t, p) < Rank(m.disk, t, p)
  {
    var m1 := Step(m, c[0]);
    assert c == [c[0]] + c[1..];
    TrialEventsCons(m, c[0], c[1..]);
    StepKeepsTrial(m, c[0], t, p, n);
    RunCons(m, c[0], c[1..]);
    if Rank(m.disk, t, p) > 1 {
      RunNeverRaisesRank(m1, c[1..], t, p, n);
    } else {
      FinalBootRuns(m, c, t, p, n);
    }
  }

  /** The rest of the last boot changes nothing of what its boot service did. */
  lemma {:induction false} FinalBootRuns(m: Machine, c: seq<Event>, t: Deployment, p: Deployment, n: nat)
    requires Trial(m, t, p, n) && TrialEvents(m, c) && InTrial(m.disk, t, n) && Clean(m, c, t, p)
    requires Rank(m.disk, t, p) <= 1
    ensures Rank(Run(m, c).disk, t, p) == 0
  {
    var head, service, rest := [PowerOn(true, true), StartBoot], c[2..8], c[8..];
    assert c == head + (service + rest);
    RunTwo(m, PowerOn(true, true), StartBoot);
    RunSplit(m, head, service + rest);
    TrialEventsSplit(m, head, service + rest);
    TrialInvariant(m, head, t, p, n);
    var m2 := Step(Step(m, PowerOn(true, true)), StartBoot);
    RunSplit(m2, service, rest);
    TrialEventsSplit(m2, service, rest);
    TrialInvariant(m2, service, t, p, n);
    RunAllDone(m2, service);
    FinalBootRecovers(m, t, p, n);
    RunNeverRaisesRank(Run(m2, service), rest, t, p, n);
  }

  // ---- whole runs, cut into boots ------------------------------------------

  function RunBoots(m: Machine, boots: seq<seq<Event>>): Machine
    decreases |boots|
  {
    if boots == [] then m else RunBoots(Run(m, boots[0]), boots[1..])
  }

  predicate BootsInTrial(m: Machine, boots: seq<seq<Event>>)
    decreases |boots|
  {
    boots == [] || (TrialEvents(m, boots[0]) && BootsInTrial(Run(m, boots[0]), boots[1..]))
  }

  function CleanBoots(m: Machine, boots: seq<seq<Event>>, t: Deployment, p: Deployment): nat
    decreases |boots|
  {
    if boots == [] then 0
    else (if Clean(m, boots[0], t, p) then 1 else 0) + CleanBoots(Run(m, boots[0]), boots[1..], t, p)
  }

  function Passes(m: Machine, boots: seq<seq<Event>>, t: Deployment): nat
    decreases |boots|
  {
    if boots == [] then 0
    else Count(m, boots[0], HealthPass(t)) + Passes(Run(m, boots[0]), boots[1..], t)
  }

  lemma {:induction false} CleanBootsPayForRank(m: Machine, boots: seq<seq<Event>>, t: Deployment, p: Deployment, n: nat)
    requires Trial(m, t, p, n) && BootsInTrial(m, boots)
    ensures Trial(RunBoots(m, boots), t, p, n)
    ensures Rank(RunBoots(m, boots).disk, t, p) <= Rank(m.disk, t, p)
    ensures Rank(RunBoots(m, boots).disk, t, p) == 0 ||
            Rank(RunBoots(m, boots).disk, t, p) + CleanBoots(m, boots, t, p) <= Rank(m.disk, t, p)
    ensures Unconfirmed(m, t, p) && Passes(m, boots, t) == 0 ==> Unconfirmed(RunBoots(m, boots), t, p)
    decreases |boots|
  {
    if boots != [] {
      var m' := Run(m, boots[0]);
      TrialInvariant(m, boots[0], t, p, n);
      RunNeverRaisesRank(m, boots[0], t, p, n);
      CleanBootsPayForRank(m', boots[1..], t, p, n);
      if Unconfirmed(m, t, p) { ConfirmationNeedsHealthPass(m, boots[0], t, p, n); }
      if Clean(m, boots[0], t, p) && InTrial(m.disk, t, n) {
        CleanBootLowersRank(m, boots[0], t, p, n);
      }
    }
  }

  /** The first boot after recovery that loads starts the previous deployment, which finds
      no trial. */
  lemma {:induction false} RecoveredBootsPrevious(m: Machine, saved: bool, t: Deployment, p: Deployment, n: nat)
    requires Trial(m, t, p, n) && Recovered(m, t, p) && m.up.Off?
    ensures var m' := Step(m, PowerOn(true, saved));
      m'.up.On? && m'.up.session.booted == p && Recovered(m', t, p) && Judge(m'.disk, m'.up.session) == Quiet
  {
  }

  /** And the first boot after a confirmation starts the target, which finds none either. */
  lemma {:induction false} KeptBootsTarget(m: Machine, saved: bool, t: Deployment, p: Deployment, n: nat)
    requires Trial(m, t, p, n) && TargetKept(m, t, p) && m.up.Off?
    ensures var m' := Step(m, PowerOn(true, saved));
      m'.up.On? && m'.up.session.booted == t && TargetKept(m', t, p) && Judge(m'.disk, m'.up.session) == Quiet
  {
  }

  /** A trial armed with `n` tries is over once `n + 1` of its boots are clean, whatever
      happens in the others and whatever the checks say: the variables are clear, and unless
      `t` was confirmed `p` is first in order. The next boot starts the one that is first,
      which finds no trial. */
  lemma {:induction false} FiniteRecovery(m: Machine, boots: seq<seq<Event>>, saved: bool, t: Deployment, p: Deployment, n: nat)
    requires Start(m, t, p, n) && BootsInTrial(m, boots)
    requires CleanBoots(m, boots, t, p) >= n + 1
    ensures TargetKept(RunBoots(m, boots), t, p) || Recovered(RunBoots(m, boots), t, p)
    ensures var next := Step(Step(RunBoots(m, boots), Cut), PowerOn(true, saved));
      && next.up.On? && Cleared(next.disk) && Judge(next.disk, next.up.session) == Quiet
      && next.up.session.booted == if TargetKept(RunBoots(m, boots), t, p) then t else p
  {
    CleanBootsPayForRank(m, boots, t, p, n);
    var m' := RunBoots(m, boots);
    StepKeepsTrial(m', Cut, t, p, n);
    if TargetKept(m', t, p) {
      KeptBootsTarget(Step(m', Cut), saved, t, p, n);
    } else {
      RecoveredBootsPrevious(Step(m', Cut), saved, t, p, n);
    }
  }

  /** In particular a trial that no check passed is rolled back. */
  lemma {:induction false} UnpassedIsRolledBack(m: Machine, boots: seq<seq<Event>>, t: Deployment, p: Deployment, n: nat)
    requires Start(m, t, p, n) && BootsInTrial(m, boots)
    requires CleanBoots(m, boots, t, p) >= n + 1 && Passes(m, boots, t) == 0
    ensures Recovered(RunBoots(m, boots), t, p)
  {
    FiniteRecovery(m, boots, true, t, p, n);
    CleanBootsPayForRank(m, boots, t, p, n);
  }

  /** `k` boots that hang before the boot service. */
  function Hangs(k: nat): seq<Event> {
    if k == 0 then [] else Hangs(k - 1) + [PowerOn(true, true), Cut]
  }

  /** One clean boot fewer is not enough: `k <= n` hangs leave the trial running. */
  lemma {:induction false} HangsOnlyCount(m: Machine, k: nat, t: Deployment, p: Deployment, n: nat)
    requires Start(m, t, p, n) && k <= n
    ensures Run(m, Hangs(k)) == m.(disk := m.disk.(counter := Some(n - k)))
    decreases k
  {
    if k > 0 {
      HangsOnlyCount(m, k - 1, t, p, n);
      var es := Hangs(k - 1);
      assert Hangs(k) == (es + [PowerOn(true, true)]) + [Cut];
      RunThen(m, es, PowerOn(true, true));
      RunThen(m, es + [PowerOn(true, true)], Cut);
    }
  }

  /** Nothing ends recovery. */
  lemma {:induction false} RecoveryIsPermanent(m: Machine, es: seq<Event>, t: Deployment, p: Deployment, n: nat)
    requires Trial(m, t, p, n) && TrialEvents(m, es) && Recovered(m, t, p)
    ensures Recovered(Run(m, es), t, p)
    decreases |es|
  {
    if es != [] {
      var prefix, e := es[..|es| - 1], es[|es| - 1];
      RecoveryIsPermanent(m, prefix, t, p, n);
      TrialInvariant(m, prefix, t, p, n);
      StepKeepsPreviousFirst(Run(m, prefix), e, t, p, n);
      StepOnlyLowers(Run(m, prefix), e, t, p, n);
    }
  }

  // ---- why the boot service must be reached --------------------------------

  /** Swapped but not cleared, with the counter spent. */
  predicate Window(m: Machine, t: Deployment, p: Deployment) {
    m.up.Off? && m.disk == Grub(Some(-1), Some(t.digest), true, [p, t])
  }

  /** In the window GRUB's `default=1` picks the failed deployment, and if that one never
      reaches its boot service the machine starts it for ever. */
  lemma {:induction false} WindowLoops(m: Machine, k: nat, t: Deployment, p: Deployment)
    requires Window(m, t, p)
    ensures Run(m, Hangs(k)) == m
    ensures Step(m, PowerOn(true, true)).up == On(Fresh(t, None))
    decreases k
  {
    if k > 0 {
      WindowLoops(m, k - 1, t, p);
      var es := Hangs(k - 1);
      assert Hangs(k) == (es + [PowerOn(true, true)]) + [Cut];
      RunThen(m, es, PowerOn(true, true));
      RunThen(m, es + [PowerOn(true, true)], Cut);
    }
  }

  /** The window is reached by a power cut right after the swap. */
  lemma {:induction false} WindowIsReachable(m: Machine, t: Deployment, p: Deployment)
    requires Start(m, t, p, 1)
    ensures Window(Run(m, [PowerOn(true, true), Cut, PowerOn(true, true), StartBoot,
                           Do(Done), Do(Done), Do(Done), Cut]), t, p)
  {
    var e1 := [PowerOn(true, true)];
    RunThen(m, [], PowerOn(true, true));
    assert [] + e1 == e1;
    RunThen(m, e1, Cut);
    var e2 := e1 + [Cut];
    var m2 := Run(m, e2);
    assert m2.up.Off? && m2.disk == Grub(Some(0), Some(t.digest), true, [t, p]);
    RunThen(m, e2, PowerOn(true, true));
    var e3 := e2 + [PowerOn(true, true)];
    RunThen(m, e3, StartBoot);
    var e4 := e3 + [StartBoot];
    var m4 := Run(m, e4);
    assert AtPc(m4, Loading) && InTrial(m4.disk, t, 1) && m4.up.session.booted == p;
    JudgeInTrial(m4.disk, m4.up.session, t, 1);
    RunThen(m, e4, Do(Done));
    var e5 := e4 + [Do(Done)];
    assert AtPc(Run(m, e5), Demote(ReadingDefault(FallBack(t.digest))));
    RunThen(m, e5, Do(Done));
    var e6 := e5 + [Do(Done)];
    assert AtPc(Run(m, e6), Demote(Swapping(FallBack(t.digest))));
    RunThen(m, e6, Do(Done));
    var e7 := e6 + [Do(Done)];
    assert Run(m, e7).disk.order == [p, t];
    RunThen(m, e7, Cut);
    assert e7 + [Cut] == [PowerOn(true, true), Cut, PowerOn(true, true), StartBoot, Do(Done), Do(Done), Do(Done), Cut];
  }
}
