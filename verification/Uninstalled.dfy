/**
  A trial that was armed and not installed: the power went between the write of `arm` and
  the finalizer, so the staged update is gone and its trial is not. `t` is the update, `p`
  the deployment that was running, `q` the one before it. Whatever boots is not `t`, and is
  taken for the fallback of a failed trial: `t` is rejected without ever having been booted,
  and if it is `q` that boots, `p` is demoted. Only if the update was the image of `q` again
  is `q` taken for the trial itself.
*/
module Uninstalled {
  import opened Options
  import opened Assessments
  import opened Protocol
  import opened History
  import opened Services
  import Arming
  import GrubServices
  import GrubTrial
  import Recovery

  /** GRUB's disk with `n` tries left for an update that is in no entry. */
  predicate Orphaned(m: Machine, t: Deployment, p: Deployment, q: Deployment, n: int) {
    m.up.Off? && n >= -1 && m.disk == Grub(Some(n), Some(t.digest), true, [p, q])
  }

  /** A cut after `arm` and before the finalizer leaves such a disk. */
  lemma {:induction false} CutOrphansTrial(m: Machine, q: Deployment)
    requires Arming.Inv(m) && m.up.On? && m.up.session.pc.Arm? && m.up.session.pc.arm.Exit?
    requires m.up.session.pc.arm.result.Guarded?
    requires m.disk.Grub? && m.disk.order == [m.up.session.booted, q]
    ensures Orphaned(Step(m, Cut), m.up.session.staged.value.dep, m.up.session.booted, q, m.cfg.maxAttempts)
  {
  }

  // ---- one boot ------------------------------------------------------------

  /** The boot service, started on `booted` with the trial of `t` still armed. */
  predicate Misjudging(m: Machine, t: Deployment, p: Deployment, q: Deployment, booted: Deployment) {
    && AtPc(m, Loading) && m.up.session.booted == booted && (booted == p || booted == q)
    && m.disk.Grub? && m.disk.target == Some(t.digest) && m.disk.order == [p, q]
  }

  /** What such a boot leaves: no trial, and `t` rejected. */
  predicate Ended(m: Machine, m': Machine, t: Deployment, order: seq<Deployment>) {
    m'.disk == Grub(None, None, false, order) && m'.rejected == m.rejected + {t.digest}
  }

  lemma {:induction false} RecordCompletes(m: Machine, t: Deployment, k: nat)
    requires AtPc(m, Demote(Recording(FallBack(t.digest)))) && m.disk.Grub?
    ensures Ended(m, AllDone(m, 2 + k), t, m.disk.order) && AtPc(AllDone(m, 2 + k), Idle)
  {
    var m1 := Step(m, Do(Done));
    assert AtPc(m1, Clear(Forgetting(FellBackHome, 2))) && m1.disk == m.disk;
    var m2 := Step(m1, Do(Done));
    assert AllDone(m, 2 + k) == AllDone(m1, 1 + k) == AllDone(m2, k);
    Afterwards(m2, k);
  }

  lemma {:induction false} FirstKeepsOrder(m: Machine, t: Deployment, p: Deployment, q: Deployment)
    requires Misjudging(m, t, p, q, p) && t.digest != p.digest
    ensures Ended(m, AllDone(m, 6), t, [p, q]) && AtPc(AllDone(m, 6), Idle)
  {
    var path := FallBack(t.digest);
    var m1 := Step(m, Do(Done));
    assert m1 == At(m, Demote(ReadingDefault(path)));
    var m2 := Step(m1, Do(Done));
    assert m2 == At(m, Demote(Recording(path)));
    assert AllDone(m, 6) == AllDone(m1, 5) == AllDone(m2, 4);
    RecordCompletes(m2, t, 2);
  }

  lemma {:induction false} SecondSwapsOrder(m: Machine, t: Deployment, p: Deployment, q: Deployment)
    requires Misjudging(m, t, p, q, q) && t.digest != q.digest && p != q
    ensures Ended(m, AllDone(m, 6), t, [q, p]) && AtPc(AllDone(m, 6), Idle)
  {
    var path := FallBack(t.digest);
    var m1 := Step(m, Do(Done));
    assert m1 == At(m, Demote(ReadingDefault(path)));
    var m2 := Step(m1, Do(Done));
    assert m2 == At(m, Demote(Swapping(path)));
    var m3 := Step(m2, Do(Done));
    assert Swapped(m.disk.order) == [q, p];
    assert m3 == m.(disk := m.disk.(order := [q, p]), up := On(m.up.session.(pc := Demote(Rechecking(t.digest)))));
    var m4 := Step(m3, Do(Done));
    assert m4 == At(m3, Demote(Recording(path)));
    assert AllDone(m, 6) == AllDone(m1, 5) == AllDone(m2, 4) == AllDone(m3, 3) == AllDone(m4, 2);
    RecordCompletes(m4, t, 0);
  }

  /** The older deployment has the digest of the update and no tries left: it rolls itself
      back, which changes no order, as `p` is first already. */
  lemma {:induction false} SameImageRollsBack(m: Machine, t: Deployment, p: Deployment, q: Deployment)
    requires Misjudging(m, t, p, q, q) && t.digest == q.digest && p != q && m.disk.counter == Some(-1)
    ensures Ended(m, AllDone(m, 6), t, [p, q]) && AllDone(m, 6).up.Off?
  {
    var path := RollBack(t.digest, false);
    var m1 := Step(m, Do(Done));
    assert m1 == At(m, Demote(ReadingDefault(path)));
    var m2 := Step(m1, Do(Done));
    assert m2 == At(m, Demote(Recording(path)));
    var m3 := Step(m2, Do(Done));
    assert AtPc(m3, Clear(Forgetting(RolledBack(false), 2))) && m3.disk == m.disk;
    var m4 := Step(m3, Do(Done));
    assert AtPc(m4, Rebooting);
    var m5 := Step(m4, Do(Done));
    assert AllDone(m, 6) == AllDone(m1, 5) == AllDone(m2, 4) == AllDone(m3, 3) == AllDone(m4, 2) == AllDone(m5, 1);
    Afterwards(m5, 1);
  }

  /** With tries left it is guarded as a trial. */
  predicate GuardedAsTrial(m: Machine, m': Machine) {
    m'.disk == m.disk && m'.rejected == m.rejected && AtPc(m', Idle) && m'.up.session.marker && m'.up.session.watchdog
  }

  lemma {:induction false} SameImageIsGuarded(m: Machine, t: Deployment, p: Deployment, q: Deployment)
    requires Misjudging(m, t, p, q, q) && t.digest == q.digest && m.disk.counter.Some? && m.disk.counter.value >= 0
    ensures GuardedAsTrial(m, AllDone(m, 6))
  {
    GuardCompletes(m, 6);
  }

  /** Which deployment GRUB starts: `q` when the tries are used up, or when `p` fails to
      load before they are. */
  predicate BootsOlder(n: int, loads: bool) {
    Spent(Some(n)) == loads
  }

  lemma {:induction false} OrphanBoots(m: Machine, loads: bool, saved: bool, t: Deployment, p: Deployment, q: Deployment, n: int)
    requires Orphaned(m, t, p, q, n)
    ensures var m' := Step(m, PowerOn(loads, saved));
      && (m'.up.Off? <==> Spent(Some(n)) && !loads)
      && (m'.up.On? ==> m'.up == On(Fresh(if BootsOlder(n, loads) then q else p, None)))
      && m'.disk.Grub? && m'.disk.target == Some(t.digest) && m'.disk.order == [p, q] && m'.rejected == m.rejected
      && m'.disk.counter.Some? && m'.disk.counter.value >= -1
  {
  }

  function BootService(m: Machine, loads: bool, saved: bool): Machine {
    AllDone(Step(Step(m, PowerOn(loads, saved)), StartBoot), 6)
  }

  /** A boot of an armed, uninstalled trial demotes the deployment that was running if and
      only if it is the older one that boots and the update is not its image. Unless nothing
      boots, `t` ends rejected and its trial is over; or else the older one has the image of
      `t` and a try left, and is guarded as the trial. */
  lemma {:induction false} OrphanDemotesIff(m: Machine, loads: bool, saved: bool, t: Deployment, p: Deployment, q: Deployment, n: int)
    requires Orphaned(m, t, p, q, n) && t.digest != p.digest && p != q
    ensures var started := Step(m, PowerOn(loads, saved));
      var m' := BootService(m, loads, saved);
      var demotes := BootsOlder(n, loads) && q.digest != t.digest;
      && m'.disk.Grub?
      && (m'.disk.order == [q, p] <==> demotes)
      && (started.up.Off? <==> Spent(Some(n)) && !loads)
      && (started.up.On? ==>
            if BootsOlder(n, loads) && q.digest == t.digest && started.disk.counter != Some(-1)
            then GuardedAsTrial(started, m')
            else Ended(m, m', t, if demotes then [q, p] else [p, q]))
      && (started.up.On? && BootsOlder(n, loads) && q.digest == t.digest && started.disk.counter == Some(-1) ==>
            m'.up.Off?)
  {
    OrphanBoots(m, loads, saved, t, p, q, n);
    var m1 := Step(m, PowerOn(loads, saved));
    var m2 := Step(m1, StartBoot);
    assert [p, q][0] != [q, p][0];
    if m1.up.Off? {
      Afterwards(m2, 6);
    } else if !BootsOlder(n, loads) {
      FirstKeepsOrder(m2, t, p, q);
    } else if q.digest != t.digest {
      SecondSwapsOrder(m2, t, p, q);
    } else if m2.disk.counter == Some(-1) {
      SameImageRollsBack(m2, t, p, q);
    } else {
      SameImageIsGuarded(m2, t, p, q);
    }
  }

  /** One clean boot of `p` is enough to reject `t`, which was never booted. */
  lemma {:induction false} NeverBootedIsRejected(m: Machine, t: Deployment, p: Deployment, q: Deployment, n: nat)
    requires Orphaned(m, t, p, q, n) && n > 0 && t.digest != p.digest && p != q
    ensures Step(m, PowerOn(true, true)).up == On(Fresh(p, None))
    ensures Ended(m, BootService(m, true, true), t, [p, q])
  {
    OrphanBoots(m, true, true, t, p, q, n);
    OrphanDemotesIff(m, true, true, t, p, q, n);
  }

  // ---- whole runs ----------------------------------------------------------

  /** Boots of `p` that hang count down the tries of the update that is not there. */
  lemma {:induction false} HangsOfPreviousCount(m: Machine, k: nat, t: Deployment, p: Deployment, q: Deployment, n: nat)
    requires Orphaned(m, t, p, q, n) && k <= n
    ensures Run(m, Recovery.Hangs(k)) == m.(disk := m.disk.(counter := Some(n - k)))
    decreases k
  {
    if k > 0 {
      HangsOfPreviousCount(m, k - 1, t, p, q, n);
      var es := Recovery.Hangs(k - 1);
      assert Recovery.Hangs(k) == (es + [PowerOn(true, true)]) + [Cut];
      RunThen(m, es, PowerOn(true, true));
      RunThen(m, es + [PowerOn(true, true)], Cut);
    }
  }

  /** After `n` of them GRUB starts the older `q`, whose boot service makes [q, p] the order. */
  lemma {:induction false} RunningIsDemoted(m: Machine, t: Deployment, p: Deployment, q: Deployment, n: nat)
    requires Orphaned(m, t, p, q, n) && t.digest != q.digest && p != q
    ensures var spent := Run(m, Recovery.Hangs(n));
      && Step(spent, PowerOn(true, true)).up == On(Fresh(q, None))
      && Ended(m, BootService(spent, true, true), t, [q, p]) && AtPc(BootService(spent, true, true), Idle)
  {
    HangsOfPreviousCount(m, n, t, p, q, n);
    var spent := Run(m, Recovery.Hangs(n));
    OrphanBoots(spent, true, true, t, p, q, 0);
    var m2 := Step(Step(spent, PowerOn(true, true)), StartBoot);
    assert Misjudging(m2, t, p, q, q);
    SecondSwapsOrder(m2, t, p, q);
  }

  /** For good: whatever follows, `q` stays first. */
  lemma {:induction false} DemotionOfRunningIsPermanent(m: Machine, es: seq<Event>, p: Deployment, q: Deployment)
    requires m.disk == Grub(None, None, false, [q, p]) && p.digest != q.digest && TrialEvents(m, es)
    requires m.up.On? ==> AtPc(m, Idle) && m.up.session.selected.None? && (m.up.session.booted == p || m.up.session.booted == q)
    ensures Run(m, es).disk == m.disk
  {
    assert GrubTrial.Trial(m, p, q, 1) && GrubServices.Recovered(m, p, q);
    Recovery.RecoveryIsPermanent(m, es, p, q, 1);
    var d := Run(m, es).disk;
    assert d.order == [q, p];
  }

  /** Where a machine can be that has not started `q`. */
  predicate OnlyRunning(m: Machine, t: Deployment, p: Deployment, q: Deployment) {
    && m.disk.Grub? && m.disk.order == [p, q]
    && (m.disk.target == Some(t.digest) || (m.disk.target.None? && m.disk.counter.None?))
    && (m.up.On? ==>
      var s := m.up.session;
      && s.booted == p
      && match s.pc
         case Demote(pc) =>
           (pc.ReadingDefault? || pc.Recording?) && pc.path == FallBack(t.digest)
         case Clear(pc) => pc.Forgetting? && pc.why.FellBackHome?
         case Check(pc) => pc.Reading?
         case Arm(pc) => ArmsNothing(pc)
         case _ => true)
  }

  lemma {:induction false} RunningJudges(m: Machine, t: Deployment, p: Deployment, q: Deployment)
    requires OnlyRunning(m, t, p, q) && m.up.On? && t.digest != p.digest
    ensures Judge(m.disk, m.up.session) == if m.disk.target.Some? then FellBack(t.digest) else Quiet
  {
  }

  lemma {:induction false} DemoteKeepsRunning(m: Machine, pc: DemotePc, o: Outcome, t: Deployment, p: Deployment, q: Deployment)
    requires OnlyRunning(m, t, p, q) && m.up.On? && m.up.session.pc == Demote(pc)
    ensures OnlyRunning(DemoteEffect(m, pc, o), t, p, q)
  {
  }

  lemma {:induction false} ClearKeepsRunning(m: Machine, pc: ClearPc, o: Outcome, t: Deployment, p: Deployment, q: Deployment)
    requires OnlyRunning(m, t, p, q) && m.up.On? && m.up.session.pc == Clear(pc)
    ensures OnlyRunning(ClearEffect(m, pc, o), t, p, q)
  {
  }

  lemma {:induction false} ArmKeepsRunning(m: Machine, pc: ArmPc, o: Outcome, t: Deployment, p: Deployment, q: Deployment)
    requires OnlyRunning(m, t, p, q) && m.up.On? && m.up.session.pc == Arm(pc) && !pc.Writing?
    ensures OnlyRunning(ArmEffect(m, pc, o), t, p, q)
  {
    ArmingNothing(m, pc, o);
  }

  lemma {:induction false} EffectKeepsRunning(m: Machine, o: Outcome, t: Deployment, p: Deployment, q: Deployment)
    requires OnlyRunning(m, t, p, q) && m.up.On? && TrialEvent(m, Do(o)) && t.digest != p.digest
    ensures OnlyRunning(Effect(m, o), t, p, q)
  {
    RunningJudges(m, t, p, q);
    hide DemoteEffect, ClearEffect, ArmEffect;
    match m.up.session.pc
    case Guard(pc) =>
    case Demote(pc) => DemoteKeepsRunning(m, pc, o, t, p, q);
    case Clear(pc) => ClearKeepsRunning(m, pc, o, t, p, q);
    case Check(pc) =>
    case Arm(pc) => ArmKeepsRunning(m, pc, o, t, p, q);
    case _ =>
  }

  lemma {:induction false} StepKeepsRunning(m: Machine, e: Event, t: Deployment, p: Deployment, q: Deployment)
    requires OnlyRunning(m, t, p, q) && TrialEvent(m, e) && t.digest != p.digest && !Is(Entered(q), m, e)
    ensures OnlyRunning(Step(m, e), t, p, q)
  {
    if m.up.On? && e.Do? { EffectKeepsRunning(m, e.o, t, p, q); }
  }

  /** Over every run, the deployment that was running is demoted only if the older one was
      started. */
  lemma {:induction false} DemotedOnlyByOlder(m: Machine, es: seq<Event>, t: Deployment, p: Deployment, q: Deployment, n: int)
    requires Orphaned(m, t, p, q, n) && t.digest != p.digest && TrialEvents(m, es)
    requires Count(m, es, Entered(q)) == 0
    ensures OnlyRunning(Run(m, es), t, p, q)
    decreases |es|
  {
    if es != [] {
      var prefix, e := es[..|es| - 1], es[|es| - 1];
      DemotedOnlyByOlder(m, prefix, t, p, q, n);
      StepKeepsRunning(Run(m, prefix), e, t, p, q);
    }
  }

  // ---- systemd-boot --------------------------------------------------------

  lemma {:induction false} RecordServiceEnds(m: Machine, t: Deployment)
    requires AtPc(m, Loading) && m.disk.SdBoot? && m.disk.record == Some(t)
    requires t.digest != m.up.session.booted.digest && FindEntry(m.disk.entries, t.id).None?
    ensures AllDone(m, 6).disk == Forget(m.disk) && AllDone(m, 6).rejected == m.rejected + {t.digest}
  {
    var path := FallBack(t.digest);
    var m1 := Step(m, Do(Done));
    assert m1 == At(m, Demote(MarkingBad(path)));
    var m2 := Step(m1, Do(Done));
    assert m2 == At(m, Demote(Recording(path)));
    var m3 := Step(m2, Do(Done));
    assert AtPc(m3, Clear(Forgetting(FellBackHome, 2))) && m3.disk == m.disk;
    var m4 := Step(m3, Do(Done));
    assert AllDone(m, 6) == AllDone(m1, 5) == AllDone(m2, 4) == AllDone(m3, 3) == AllDone(m4, 2);
    Afterwards(m4, 2);
  }

  /** There the counter was only in the name of the staged entry: the record alone is left,
      and the next boot rejects `t` and changes no entry. */
  lemma {:induction false} RecordAloneRejects(m: Machine, saved: bool, t: Deployment, p: Deployment, rest: seq<Entry>)
    requires m.up.Off? && m.disk == SdBoot([Entry(p, None)] + rest, Some(t))
    requires t.digest != p.digest && FindEntry(m.disk.entries, t.id).None?
    ensures Step(m, PowerOn(true, saved)).up == On(Fresh(p, None))
    ensures BootService(m, true, saved).disk == SdBoot([Entry(p, None)] + rest, None)
    ensures BootService(m, true, saved).rejected == m.rejected + {t.digest}
  {
    assert m.disk.entries[0 := Bumped(m.disk.entries[0])] == m.disk.entries;
    var m1 := Step(m, PowerOn(true, saved));
    assert m1 == m.(up := On(Fresh(p, None)));
    RecordServiceEnds(Step(m1, StartBoot), t);
  }
}
