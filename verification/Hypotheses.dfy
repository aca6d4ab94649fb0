/** Runs in which a promise fails, one for each hypothesis the theorems state. */
module Hypotheses {
  import opened Options
  import opened Assessments
  import opened Protocol
  import opened History
  import opened Services
  import opened GrubServices
  import GrubTrial

  /** A trial whose only attempt hangs, then the boot that should fall back. */
  const HANG_THEN_FALL_BACK := [PowerOn(true, true), Cut, PowerOn(true, true), StartBoot]

  lemma RunHangThenFallBack(m: Machine)
    ensures Run(m, HANG_THEN_FALL_BACK) ==
      Step(Step(Step(Step(m, PowerOn(true, true)), Cut), PowerOn(true, true)), StartBoot)
  {
    var a, b, c, d := PowerOn(true, true), Cut, PowerOn(true, true), StartBoot;
    RunCons(m, a, [b, c, d]);
    RunCons(Step(m, a), b, [c, d]);
    RunCons(Step(Step(m, a), b), c, [d]);
    RunThen(Step(Step(Step(m, a), b), c), [], d);
    assert [a] + [b, c, d] == HANG_THEN_FALL_BACK && [b] + [c, d] == [b, c, d] && [c] + [d] == [c, d] && [] + [d] == [d];
  }

  /** If both deployments have one digest, the boot that fell back takes itself for the
      target: it ends the trial without demoting `t`, which stays first, unchecked. */
  lemma {:induction false} SameDigestDefeatsRollback(m: Machine, t: Deployment, p: Deployment)
    requires m.up.Off? && m.disk == Grub(Some(1), Some(t.digest), true, [t, p])
    requires t != p && t.digest == p.digest
    ensures var m' := AllDone(Run(m, HANG_THEN_FALL_BACK), 5);
      m'.up.Off? && m'.disk == Grub(None, None, false, [t, p])
  {
    RunHangThenFallBack(m);
    var m0 := Run(m, HANG_THEN_FALL_BACK);
    assert AtPc(m0, Loading) && m0.up.session.booted == p && m0.disk.counter == Some(-1) && m0.disk.order == [t, p];
    assert Judge(m0.disk, m0.up.session) == Exhausted(p.digest);
    var path := RollBack(p.digest, false);
    var m1 := Step(m0, Do(Done));
    assert m1 == At(m0, Demote(ReadingDefault(path)));
    var m2 := Step(m1, Do(Done));
    assert m2 == At(m0, Demote(Recording(path)));
    var m3 := Step(m2, Do(Done));
    assert AtPc(m3, Clear(Forgetting(RolledBack(false), 2))) && m3.disk == m0.disk;
    var m4 := Step(m3, Do(Done));
    assert AtPc(m4, Rebooting) && m4.disk == Forget(m0.disk);
    var m5 := Step(m4, Do(Done));
    assert AllDone(m0, 5) == AllDone(m1, 4) == AllDone(m2, 3) == AllDone(m3, 2) == AllDone(m4, 1) == AllDone(m5, 0);
  }

  /** If the append to the rejected list is lost, the trial is forgotten all the same and
      the image is not rejected. */
  lemma {:induction false} LostRecordForgets(m: Machine, t: Deployment, p: Deployment)
    requires GrubTrial.Start(m, t, p, 1) && t.digest !in m.rejected
    ensures var m4 := AllDone(Run(m, HANG_THEN_FALL_BACK), 4);
      var m' := Step(Step(m4, Do(Failed)), Do(Done));
      Is(LostRecord, m4, Do(Failed)) && Recovered(m', t, p) && t.digest !in m'.rejected
  {
    RunHangThenFallBack(m);
    var m0 := Run(m, HANG_THEN_FALL_BACK);
    assert AtPc(m0, Loading) && m0.up.session.booted == p && m0.disk == Grub(Some(-1), Some(t.digest), true, [t, p]);
    assert Judge(m0.disk, m0.up.session) == FellBack(t.digest);
    var path := FallBack(t.digest);
    var m1 := Step(m0, Do(Done));
    assert m1 == At(m0, Demote(ReadingDefault(path)));
    var m2 := Step(m1, Do(Done));
    assert m2 == At(m0, Demote(Swapping(path)));
    var m3 := Step(m2, Do(Done));
    assert AtPc(m3, Demote(Rechecking(t.digest))) && m3.disk == m0.disk.(order := [p, t]) && m3.rejected == m.rejected;
    var m4 := Step(m3, Do(Done));
    assert m4 == At(m3, Demote(Recording(path)));
    assert AllDone(m0, 4) == AllDone(m1, 3) == AllDone(m2, 2) == AllDone(m3, 1) == AllDone(m4, 0);
    var m5 := Step(m4, Do(Failed));
    assert AtPc(m5, Clear(Forgetting(FellBackHome, 2))) && m5.disk == m4.disk && m5.rejected == m.rejected;
  }

  /** If the rejected list cannot be read it counts as empty, and a rejected image is armed
      as any other, on either stack, with preflight or without. */
  lemma {:induction false} UnreadListRearms(m: Machine, e: Entry)
    requires AtPc(m, Arm(Consulting))
    requires m.up.session.staged == Some(e) && e.dep.digest in m.rejected && IsSafeId(e.dep.digest)
    ensures var unread := Step(m, Do(Failed));
      var passed := if m.cfg.preflight then Step(unread, Verdict(true)) else unread;
      var m' := Step(Step(passed, Do(Done)), Do(Done));
      && Is(ListUnread, m, Do(Failed)) && Is(History.Armed(e.dep.digest), passed, Do(Done))
      && AtPc(m', Arm(Exit(Guarded(Screen(false, m.cfg.preflight)))))
      && m'.disk == ArmedDisk(m.disk, e.dep, m.cfg.maxAttempts) && e.dep.digest in m'.rejected
  {
    var unread := Step(m, Do(Failed));
    var passed := if m.cfg.preflight then Step(unread, Verdict(true)) else unread;
    assert passed == At(m, Arm(Writing(Screen(false, m.cfg.preflight))));
    WritingArms(passed, e, Screen(false, m.cfg.preflight));
  }

  lemma {:induction false} WritingArms(m: Machine, e: Entry, screen: Screen)
    requires AtPc(m, Arm(Writing(screen))) && m.up.session.staged == Some(e) && IsSafeId(e.dep.digest)
    ensures Is(History.Armed(e.dep.digest), m, Do(Done))
    ensures var m' := Step(Step(m, Do(Done)), Do(Done));
      && AtPc(m', Arm(Exit(Guarded(screen))))
      && m'.disk == ArmedDisk(m.disk, e.dep, m.cfg.maxAttempts) && m'.rejected == m.rejected
  {
    var written := Step(m, Do(Done));
    assert written.disk == ArmedDisk(m.disk, e.dep, m.cfg.maxAttempts);
  }
}
