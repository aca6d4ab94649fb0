/** The systemd-boot services, run to their end with no effect failing. */
module SdServices {
  import opened Options
  import opened Protocol
  import opened Services
  import opened SdTrial

  /** The disk after a demotion of `t`: no tries left, the trial forgotten. */
  function DemotedDisk(d: Disk): Disk
    requires d.SdBoot? && |d.entries| == 2
  {
    SdBoot([Demoted(d.entries[0]), d.entries[1]], None)
  }

  lemma {:induction false} RecordAndForget(m: Machine, path: Path, t: Deployment, p: Deployment, n: nat)
    requires Trial(m, t, p, n) && AtPc(m, Demote(Recording(path)))
    ensures var m' := AllDone(m, 2);
      && m'.disk == Forget(m.disk) && m'.rejected == m.rejected + {t.digest} && m'.cfg == m.cfg
      && m'.up == On(m.up.session.(pc := if path.FallBack? then Idle else Rebooting))
  {
    var m1 := Step(m, Do(Done));
    assert AtPc(m1, Clear(Forgetting(WhyOf(path), 2)));
    var m2 := Step(m1, Do(Done));
    assert AllDone(m1, 1) == AllDone(m2, 0) == m2;
  }

  lemma {:induction false} DemotionCompletes(m: Machine, path: Path, t: Deployment, p: Deployment, n: nat)
    requires Trial(m, t, p, n) && AtPc(m, Demote(MarkingBad(path)))
    ensures var m' := AllDone(m, 5);
      && m'.disk == DemotedDisk(m.disk) && m'.rejected == m.rejected + {t.digest} && m'.cfg == m.cfg
      && m'.up == if path.FallBack? then On(m.up.session.(pc := Idle)) else Off
  {
    MarkBadMarks(m.disk, t, p, n);
    var m1 := Step(m, Do(Done));
    StepKeepsTrial(m, Do(Done), t, p, n);
    assert AtPc(m1, Demote(Recording(path))) && Forget(m1.disk) == DemotedDisk(m.disk);
    RecordAndForget(m1, path, t, p, n);
    AllDoneSplit(m1, 2, 2);
    Afterwards(AllDone(m1, 2), 2);
    assert AllDone(m, 5) == AllDone(m1, 4);
  }

  /** A passed check: the trial forgotten, the counter stripped if it was still there. */
  lemma {:induction false} PassCompletes(m: Machine, t: Deployment, p: Deployment, n: nat)
    requires Trial(m, t, p, n) && AtPc(m, Clear(Forgetting(Confirmed, 2)))
    ensures var m' := AllDone(m, 6);
      && m'.disk == (if Pending(m.disk, m.up.session) then SdBoot([Entry(t, None), Entry(p, None)], None) else Forget(m.disk))
      && m'.up == On(m.up.session.(confirmed := true, pc := Idle)) && m'.rejected == m.rejected && m'.cfg == m.cfg
  {
    var m1 := Step(m, Do(Done));
    assert m1 == At(m.(disk := Forget(m.disk)), Clear(Blessing(Confirmed, 2)));
    StepKeepsTrial(m, Do(Done), t, p, n);
    BlessStrips(m1.disk, m1.up.session, t, p, n);
    var m2 := Step(m1, Do(Done));
    assert m2 == At(m1.(disk := Bless(m1.disk, m1.up.session.selected)), Check(EndingWatchdog));
    var m3 := Step(m2, Do(Done));
    assert AllDone(m, 6) == AllDone(m1, 5) == AllDone(m2, 4) == AllDone(m3, 3);
    Afterwards(m3, 3);
  }

  /** A failed check: another attempt, or on the last one the demotion. */
  lemma {:induction false} FailCompletes(m: Machine, t: Deployment, p: Deployment, n: nat)
    requires Trial(m, t, p, n) && m.up.On? && AtPc(m, Check(Rereading(TrialCounter(m.disk, m.up.session))))
    ensures var m' := AllDone(m, 6);
      && m'.up.Off? && m'.cfg == m.cfg
      && if LastAttempt(m.up.session) then m'.disk == DemotedDisk(m.disk) && m'.rejected == m.rejected + {t.digest}
         else m'.disk == m.disk && m'.rejected == m.rejected
  {
    JudgeAny(m, t, p, n);
    var m1 := Step(m, Do(Done));
    if LastAttempt(m.up.session) {
      StepKeepsTrial(m, Do(Done), t, p, n);
      assert m1 == At(m, Demote(MarkingBad(RollBack(t.digest, true))));
      DemotionCompletes(m1, RollBack(t.digest, true), t, p, n);
      assert AllDone(m, 6) == AllDone(m1, 5);
    } else {
      assert m1 == At(m, Check(RequestingReboot));
      var m2 := Step(m1, Do(Done));
      assert AllDone(m, 6) == AllDone(m1, 5) == AllDone(m2, 4);
      Afterwards(m2, 4);
    }
  }

  /** A whole check of a boot in trial. */
  lemma {:induction false} CheckCompletes(m: Machine, good: bool, t: Deployment, p: Deployment, n: nat)
    requires Trial(m, t, p, n) && AtPc(m, Idle) && m.up.session.booted == t && m.up.session.selected.Some?
    ensures var m' := Checked(m, good);
      && m'.cfg == m.cfg
      && if good then
           && m'.disk == (if Pending(m.disk, m.up.session) then SdBoot([Entry(t, None), Entry(p, None)], None) else Forget(m.disk))
           && m'.up == On(m.up.session.(confirmed := true, pc := Idle)) && m'.rejected == m.rejected
         else
           && m'.up.Off?
           && if LastAttempt(m.up.session) then m'.disk == DemotedDisk(m.disk) && m'.rejected == m.rejected + {t.digest}
              else m'.disk == m.disk && m'.rejected == m.rejected
  {
    var m1 := Step(m, StartCheck);
    StepKeepsTrial(m, StartCheck, t, p, n);
    JudgeAny(m1, t, p, n);
    var m2 := Step(m1, Do(Done));
    StepKeepsTrial(m1, Do(Done), t, p, n);
    assert m2 == At(m, Check(Checking(TrialCounter(m.disk, m.up.session))));
    var m3 := Step(m2, Verdict(good));
    StepKeepsTrial(m2, Verdict(good), t, p, n);
    if good {
      assert m3 == At(m, Clear(Forgetting(Confirmed, 2)));
      PassCompletes(m3, t, p, n);
    } else {
      assert m3 == At(m, Check(Rereading(TrialCounter(m.disk, m.up.session))));
      FailCompletes(m3, t, p, n);
    }
  }

  /** A guarded boot of `t` on its only attempt. */
  lemma {:induction false} LastBoot(m: Machine, t: Deployment, p: Deployment)
    requires Start(m, t, p, 1)
    ensures var booted := Booted(m);
      && Trial(booted, t, p, 1) && AtPc(booted, Idle) && booted.up.session.booted == t
      && Pending(booted.disk, booted.up.session) && LastAttempt(booted.up.session)
      && booted.disk == SdBoot([Entry(t, Some(Tries(0, 1))), Entry(p, None)], Some(t))
  {
    var m1 := Step(m, PowerOn(true, true));
    Chooses(m.disk, t, p, 1);
    StepKeepsTrial(m, PowerOn(true, true), t, p, 1);
    StepKeepsTrial(m1, StartBoot, t, p, 1);
    JudgeAny(Step(m1, StartBoot), t, p, 1);
    GuardCompletes(Step(m1, StartBoot), 3);
  }
}
