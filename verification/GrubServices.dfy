/** The GRUB boot service and roll-back, run to their end with no effect failing. */
module GrubServices {
  import opened Protocol
  import opened Services
  import opened GrubTrial

  /** The trial ended as failed: `p` first in order, the variables clear, `t` rejected. */
  predicate Recovered(m: Machine, t: Deployment, p: Deployment) {
    PreviousFirst(m.disk, t, p) && Cleared(m.disk)
  }

  /** `m'` is `m` with the trial ended as failed. */
  predicate Ends(m: Machine, m': Machine, t: Deployment, p: Deployment) {
    Recovered(m', t, p) && m'.cfg == m.cfg && m'.rejected == m.rejected + {t.digest}
  }

  lemma {:induction false} RecordAndForget(m: Machine, path: Path, t: Deployment, p: Deployment, n: nat)
    requires Trial(m, t, p, n) && AtPc(m, Demote(Recording(path)))
    ensures var m' := AllDone(m, 2);
      Ends(m, m', t, p) && m'.up == On(m.up.session.(pc := if path.FallBack? then Idle else Rebooting))
  {
    var m1 := Step(m, Do(Done));
    assert AtPc(m1, Clear(Forgetting(WhyOf(path), 2)));
    var m2 := Step(m1, Do(Done));
    assert AllDone(m1, 1) == AllDone(m2, 0) == m2;
  }

  /** The demotion, from the first read of the order to the end. */
  lemma {:induction false} DemotionCompletes(m: Machine, path: Path, t: Deployment, p: Deployment, n: nat)
    requires Trial(m, t, p, n) && AtPc(m, Demote(ReadingDefault(path)))
    ensures var m' := AllDone(m, 5); Ends(m, m', t, p)
    ensures path.FallBack? ==> AllDone(m, 5).up == On(m.up.session.(pc := Idle))
    ensures path.RollBack? ==> AllDone(m, 5).up.Off?
  {
    var m1 := Step(m, Do(Done));
    EffectKeepsTrial(m, Done, t, p, n);
    if PreviousFirst(m.disk, t, p) {
      assert m1 == At(m, Demote(Recording(path)));
      RecordAndForget(m1, path, t, p, n);
      AllDoneSplit(m1, 2, 2);
      Afterwards(AllDone(m1, 2), 2);
    } else {
      assert m1 == At(m, Demote(Swapping(path)));
      var m2 := Step(m1, Do(Done));
      EffectKeepsTrial(m1, Done, t, p, n);
      assert PreviousFirst(m2.disk, t, p);
      if path.FallBack? {
        assert AtPc(m2, Demote(Rechecking(t.digest)));
        var m3 := Step(m2, Do(Done));
        EffectKeepsTrial(m2, Done, t, p, n);
        assert AtPc(m3, Demote(Recording(path)));
        RecordAndForget(m3, path, t, p, n);
        assert AllDone(m1, 4) == AllDone(m2, 3) == AllDone(m3, 2);
      } else {
        assert AtPc(m2, Demote(Recording(path)));
        RecordAndForget(m2, path, t, p, n);
        AllDoneSplit(m2, 2, 1);
        Afterwards(AllDone(m2, 2), 1);
        assert AllDone(m1, 4) == AllDone(m2, 3);
      }
    }
  }
}
