/**
  A systemd-boot trial comes to an end, confirmed or rolled back. As on GRUB, `Rank` counts
  the clean boots still needed: no event raises it, every clean boot lowers it. There is no
  window here, since the entry is out of tries before it is demoted.
*/
module SdRecovery {
  import opened Options
  import opened Assessments
  import opened Protocol
  import opened Services
  import opened SdTrial
  import opened SdServices
  import opened SdSafety
  import Recovery

  /** The tries left, and one more boot for the record. */
  function Rank(d: Disk): nat {
    if d.SdBoot? && |d.entries| > 0 && d.entries[0].tries.Some?
    then d.entries[0].tries.value.left + (if d.record.Some? then 1 else 0) else 0
  }

  lemma {:induction false} EffectNeverRaisesRank(m: Machine, o: Outcome, t: Deployment, p: Deployment, n: nat)
    requires Trial(m, t, p, n) && m.up.On? && TrialEvent(m, Do(o))
    ensures Effect(m, o).disk.SdBoot? && (Effect(m, o).disk.record.Some? ==> m.disk.record.Some?)
  {
    match m.up.session.pc
    case Demote(pc) => DemoteTouchesEntry(m, pc, o, t, p, n);
    case Clear(pc) =>
    case Guard(pc) =>
    case Check(pc) =>
    case Arm(pc) => ArmingNothing(m, pc, o);
    case _ =>
  }

  lemma {:induction false} StepNeverRaisesRank(m: Machine, e: Event, t: Deployment, p: Deployment, n: nat)
    requires Trial(m, t, p, n) && TrialEvent(m, e)
    ensures Rank(Step(m, e).disk) <= Rank(m.disk)
  {
    StepKeepsTrial(m, e, t, p, n);
    if m.up.Off? {
      Chooses(m.disk, t, p, n);
    } else if e.Do? {
      EffectNeverRaisesRank(m, e.o, t, p, n);
      EffectTouchesEntry(m, e.o, t, p, n);
    }
  }

  lemma {:induction false} RunNeverRaisesRank(m: Machine, es: seq<Event>, t: Deployment, p: Deployment, n: nat)
    requires Trial(m, t, p, n) && TrialEvents(m, es)
    ensures Rank(Run(m, es).disk) <= Rank(m.disk)
    decreases |es|
  {
    if es != [] {
      var prefix := es[..|es| - 1];
      RunNeverRaisesRank(m, prefix, t, p, n);
      TrialInvariant(m, prefix, t, p, n);
      StepNeverRaisesRank(Run(m, prefix), es[|es| - 1], t, p, n);
    }
  }

  /** The tries are used up, and the trial still recorded. */
  predicate LastBoot(d: Disk) {
    d.SdBoot? && d.record.Some? && TargetBad(d)
  }

  /** A boot that nothing interrupts where an interruption matters: while tries are left
      anything may happen once the firmware starts the loader; then the previous deployment
      loads and its boot service runs to the end. */
  predicate Clean(m: Machine, c: seq<Event>) {
    && m.up.Off?
    && |c| > 0 && c[0].PowerOn?
    && (LastBoot(m.disk) ==> c[0].loads && |c| >= 8 && c[1] == StartBoot && forall i :: 2 <= i < 8 ==> c[i] == Do(Done))
  }

  lemma {:induction false} FinalBootRecovers(m: Machine, saved: bool, t: Deployment, p: Deployment, n: nat)
    requires Trial(m, t, p, n) && m.up.Off? && LastBoot(m.disk)
    ensures Rank(AllDone(Step(Step(m, PowerOn(true, saved)), StartBoot), 6).disk) == 0
  {
    var m1 := Step(m, PowerOn(true, saved));
    Chooses(m.disk, t, p, n);
    assert m1.disk == m.disk by {
      assert m.disk.entries[1 := Bumped(m.disk.entries[1])] == m.disk.entries;
    }
    StepKeepsTrial(m, PowerOn(true, saved), t, p, n);
    var m2 := Step(m1, StartBoot);
    StepKeepsTrial(m1, StartBoot, t, p, n);
    JudgeAny(m2, t, p, n);
    var m3 := Step(m2, Do(Done));
    StepKeepsTrial(m2, Do(Done), t, p, n);
    assert m3 == At(m2, Demote(MarkingBad(FallBack(t.digest))));
    DemotionCompletes(m3, FallBack(t.digest), t, p, n);
    assert AllDone(m2, 6) == AllDone(m3, 5);
  }

  lemma {:induction false} FinalBootRuns(m: Machine, c: seq<Event>, t: Deployment, p: Deployment, n: nat)
    requires Trial(m, t, p, n) && TrialEvents(m, c) && Clean(m, c) && LastBoot(m.disk)
    ensures Rank(Run(m, c).disk) == 0
  {
    var head, service, rest := [c[0], StartBoot], c[2..8], c[8..];
    assert c == head + (service + rest);
    RunTwo(m, c[0], StartBoot);
    RunSplit(m, head, service + rest);
    TrialEventsSplit(m, head, service + rest);
    TrialInvariant(m, head, t, p, n);
    var m2 := Step(Step(m, c[0]), StartBoot);
    RunSplit(m2, service, rest);
    TrialEventsSplit(m2, service, rest);
    TrialInvariant(m2, service, t, p, n);
    RunAllDone(m2, service);
    FinalBootRecovers(m, c[0].saved, t, p, n);
    RunNeverRaisesRank(Run(m2, service), rest, t, p, n);
  }

  lemma {:induction false} CountedBootLowersRank(m: Machine, e: Event, t: Deployment, p: Deployment, n: nat)
    requires Trial(m, t, p, n) && m.up.Off? && e.PowerOn? && Rank(m.disk) > 0 && !LastBoot(m.disk)
    ensures Rank(Step(m, e).disk) == Rank(m.disk) - 1
  {
    Chooses(m.disk, t, p, n);
  }

  lemma {:induction false} CleanBootLowersRank(m: Machine, c: seq<Event>, t: Deployment, p: Deployment, n: nat)
    requires Trial(m, t, p, n) && TrialEvents(m, c) && Clean(m, c) && Rank(m.disk) > 0
    ensures Rank(Run(m, c).disk) < Rank(m.disk)
  {
    if LastBoot(m.disk) {
      FinalBootRuns(m, c, t, p, n);
    } else {
      assert c == [c[0]] + c[1..];
      TrialEventsCons(m, c[0], c[1..]);
      RunCons(m, c[0], c[1..]);
      StepKeepsTrial(m, c[0], t, p, n);
      CountedBootLowersRank(m, c[0], t, p, n);
      RunNeverRaisesRank(Step(m, c[0]), c[1..], t, p, n);
    }
  }

  // ---- whole runs, cut into boots ------------------------------------------

  function CleanBoots(m: Machine, boots: seq<seq<Event>>): nat
    decreases |boots|
  {
    if boots == [] then 0
    else (if Clean(m, boots[0]) then 1 else 0) + CleanBoots(Run(m, boots[0]), boots[1..])
  }

  lemma {:induction false} CleanBootsPayForRank(m: Machine, boots: seq<seq<Event>>, t: Deployment, p: Deployment, n: nat)
    requires Trial(m, t, p, n) && Recovery.BootsInTrial(m, boots)
    ensures Trial(Recovery.RunBoots(m, boots), t, p, n)
    ensures Rank(Recovery.RunBoots(m, boots).disk) == 0 ||
            Rank(Recovery.RunBoots(m, boots).disk) + CleanBoots(m, boots) <= Rank(m.disk)
    ensures Rank(Recovery.RunBoots(m, boots).disk) <= Rank(m.disk)
    ensures Unconfirmed(m) && Recovery.Passes(m, boots, t) == 0 ==> Unconfirmed(Recovery.RunBoots(m, boots))
    decreases |boots|
  {
    if boots != [] {
      TrialInvariant(m, boots[0], t, p, n);
      RunNeverRaisesRank(m, boots[0], t, p, n);
      CleanBootsPayForRank(Run(m, boots[0]), boots[1..], t, p, n);
      if Unconfirmed(m) && Recovery.Passes(m, boots, t) == 0 {
        ConfirmationNeedsHealthPass(m, boots[0], t, p, n);
      }
      if Clean(m, boots[0]) && Rank(m.disk) > 0 {
        CleanBootLowersRank(m, boots[0], t, p, n);
      }
    }
  }

  /** The trial is over and failed: `t` is out of tries and nothing records it. */
  predicate Recovered(m: Machine) {
    m.disk.SdBoot? && m.disk.record.None? && TargetBad(m.disk)
  }

  /** The trial is over and passed: the entry of `t` has no counter. */
  predicate TargetKept(m: Machine, t: Deployment) {
    m.disk.SdBoot? && m.disk.record.None? && |m.disk.entries| > 0 && m.disk.entries[0] == Entry(t, None)
  }

  lemma {:induction false} RecoveredBootsPrevious(m: Machine, saved: bool, t: Deployment, p: Deployment, n: nat)
    requires Trial(m, t, p, n) && Recovered(m) && m.up.Off?
    ensures var next := Step(m, PowerOn(true, saved));
      next.up.On? && next.up.session.booted == p && Recovered(next) && Judge(next.disk, next.up.session) == Quiet
  {
    Chooses(m.disk, t, p, n);
    StepKeepsTrial(m, PowerOn(true, saved), t, p, n);
    JudgeAny(Step(m, PowerOn(true, saved)), t, p, n);
  }

  lemma {:induction false} KeptBootsTarget(m: Machine, saved: bool, t: Deployment, p: Deployment, n: nat)
    requires Trial(m, t, p, n) && TargetKept(m, t) && m.up.Off?
    ensures var next := Step(m, PowerOn(true, saved));
      next.up.On? && next.up.session.booted == t && TargetKept(next, t) && Judge(next.disk, next.up.session) == Quiet
  {
    Chooses(m.disk, t, p, n);
    StepKeepsTrial(m, PowerOn(true, saved), t, p, n);
    JudgeAny(Step(m, PowerOn(true, saved)), t, p, n);
  }

  /** A trial armed with `n` tries is over once `n + 1` of its boots are clean, whatever
      happens in the others and whatever the checks say: nothing records it, and the entry
      of `t` is stripped or out of tries. The next boot starts `t` or `p` accordingly, which
      finds no trial. */
  lemma {:induction false} FiniteRecovery(m: Machine, boots: seq<seq<Event>>, saved: bool, t: Deployment, p: Deployment, n: nat)
    requires Start(m, t, p, n) && Recovery.BootsInTrial(m, boots)
    requires CleanBoots(m, boots) >= n + 1
    ensures TargetKept(Recovery.RunBoots(m, boots), t) || Recovered(Recovery.RunBoots(m, boots))
    ensures var next := Step(Step(Recovery.RunBoots(m, boots), Cut), PowerOn(true, saved));
      && next.up.On? && Judge(next.disk, next.up.session) == Quiet
      && next.up.session.booted == if TargetKept(Recovery.RunBoots(m, boots), t) then t else p
  {
    CleanBootsPayForRank(m, boots, t, p, n);
    var m' := Recovery.RunBoots(m, boots);
    StepKeepsTrial(m', Cut, t, p, n);
    if TargetKept(m', t) {
      KeptBootsTarget(Step(m', Cut), saved, t, p, n);
    } else {
      assert Recovered(m');
      RecoveredBootsPrevious(Step(m', Cut), saved, t, p, n);
    }
  }

  /** In particular a trial that no check passed ends with `t` out of tries. */
  lemma {:induction false} UnpassedIsRolledBack(m: Machine, boots: seq<seq<Event>>, t: Deployment, p: Deployment, n: nat)
    requires Start(m, t, p, n) && Recovery.BootsInTrial(m, boots)
    requires CleanBoots(m, boots) >= n + 1 && Recovery.Passes(m, boots, t) == 0
    ensures Recovered(Recovery.RunBoots(m, boots))
  {
    FiniteRecovery(m, boots, true, t, p, n);
    CleanBootsPayForRank(m, boots, t, p, n);
  }

  /** From then on only `p` is ever booted. */
  lemma {:induction false} RecoveryIsPermanent(m: Machine, es: seq<Event>, t: Deployment, p: Deployment, n: nat)
    requires Trial(m, t, p, n) && TrialEvents(m, es) && Recovered(m) && (m.up.On? ==> m.up.session.booted == p)
    ensures Recovered(Run(m, es)) && (Run(m, es).up.On? ==> Run(m, es).up.session.booted == p)
    decreases |es|
  {
    if es != [] {
      var prefix, e := es[..|es| - 1], es[|es| - 1];
      RecoveryIsPermanent(m, prefix, t, p, n);
      TrialInvariant(m, prefix, t, p, n);
      StepKeepsRecovered(Run(m, prefix), e, t, p, n);
    }
  }

  lemma {:induction false} StepKeepsRecovered(m: Machine, e: Event, t: Deployment, p: Deployment, n: nat)
    requires Trial(m, t, p, n) && TrialEvent(m, e) && Recovered(m) && (m.up.On? ==> m.up.session.booted == p)
    ensures Recovered(Step(m, e)) && (Step(m, e).up.On? ==> Step(m, e).up.session.booted == p)
  {
    StepKeepsTrial(m, e, t, p, n);
    if m.up.Off? {
      Chooses(m.disk, t, p, n);
    } else if e.Do? {
      EffectTouchesEntry(m, e.o, t, p, n);
      EffectNeverRaisesRank(m, e.o, t, p, n);
      EffectKeepsBooted(m, e.o);
    }
  }

  lemma {:induction false} ArmKeepsBooted(m: Machine, pc: ArmPc, o: Outcome)
    requires m.up.On?
    ensures ArmEffect(m, pc, o).up.On? && ArmEffect(m, pc, o).up.session.booted == m.up.session.booted
  {
  }

  lemma {:induction false} DemoteKeepsBooted(m: Machine, pc: DemotePc, o: Outcome)
    requires m.up.On?
    ensures DemoteEffect(m, pc, o).up.On? && DemoteEffect(m, pc, o).up.session.booted == m.up.session.booted
  {
  }

  lemma {:induction false} EffectKeepsBooted(m: Machine, o: Outcome)
    requires m.up.On?
    ensures Effect(m, o).up.On? ==> Effect(m, o).up.session.booted == m.up.session.booted
  {
    hide ArmEffect, DemoteEffect;
    match m.up.session.pc
    case Guard(pc) =>
    case Demote(pc) => DemoteKeepsBooted(m, pc, o);
    case Clear(pc) =>
    case Check(pc) =>
    case Arm(pc) => ArmKeepsBooted(m, pc, o);
    case _ =>
  }
}
