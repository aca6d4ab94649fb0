/**
  A deployment whose trial failed is kept only when there is nothing to go back to, over
  every run of the whole machine, from any state in which no command gives up a trial; and
  what is left of its trial then.
*/
module Abandoning {
  import opened Options
  import opened Assessments
  import opened Protocol
  import opened History
  import opened Services

  predicate Abandons(m: Machine) {
    m.up.On? && m.up.session.pc.Clear? && m.up.session.pc.clear.why.Abandoned?
  }

  predicate OnlyWithoutRollback(m: Machine) {
    Abandons(m) ==> !HasRollback(m.disk)
  }

  lemma StripKeepsLength(entries: seq<Entry>, e: Entry)
    ensures |Strip(entries, e)| == |entries|
  {
    if entries != [] {
      StripKeepsLength(entries[1..], e);
    }
  }

  lemma {:induction false} ClearStays(m: Machine, pc: ClearPc, o: Outcome)
    requires m.up.On? && m.up.session.pc == Clear(pc) && OnlyWithoutRollback(m)
    ensures OnlyWithoutRollback(ClearEffect(m, pc, o))
  {
    if m.disk.SdBoot? && m.up.session.selected.Some? {
      StripKeepsLength(m.disk.entries, m.up.session.selected.value);
    }
  }

  lemma {:induction false} DemoteStays(m: Machine, pc: DemotePc, o: Outcome)
    requires m.up.On?
    ensures !Abandons(DemoteEffect(m, pc, o))
  {
  }

  lemma {:induction false} ArmStays(m: Machine, pc: ArmPc, o: Outcome)
    requires m.up.On? && m.up.session.pc == Arm(pc)
    ensures !Abandons(ArmEffect(m, pc, o))
  {
  }

  lemma {:induction false} CheckStays(m: Machine, pc: CheckPc, o: Outcome)
    requires m.up.On? && m.up.session.pc == Check(pc)
    ensures OnlyWithoutRollback(CheckEffect(m, pc, o))
  {
  }

  lemma {:induction false} AssessStays(m: Machine)
    requires m.up.On?
    ensures OnlyWithoutRollback(At(m, AssessedPc(m.disk, m.up.session)))
  {
  }

  lemma {:induction false} EffectStays(m: Machine, o: Outcome)
    requires m.up.On? && OnlyWithoutRollback(m)
    ensures OnlyWithoutRollback(Effect(m, o))
  {
    match m.up.session.pc
    case Loading => AssessStays(m);
    case Guard(pc) =>
    case Demote(pc) => DemoteStays(m, pc, o);
    case Clear(pc) => ClearStays(m, pc, o);
    case Check(pc) => CheckStays(m, pc, o);
    case Arm(pc) => ArmStays(m, pc, o);
    case _ =>
  }

  lemma BootStays(m: Machine, e: Event)
    requires m.up.Off?
    ensures !Abandons(Step(m, e))
  {
  }

  /** Whenever a trial is given up with its deployment kept, no rollback deployment exists;
      what the boot can go back to is untouched by giving up. */
  lemma {:induction false} KeptOnlyWithoutRollback(m: Machine, es: seq<Event>)
    requires !Abandons(m)
    ensures OnlyWithoutRollback(Run(m, es))
    decreases |es|
  {
    if es != [] {
      var m', e := Run(m, es[..|es| - 1]), es[|es| - 1];
      KeptOnlyWithoutRollback(m, es[..|es| - 1]);
      if m'.up.Off? {
        BootStays(m', e);
      } else if e.Do? {
        EffectStays(m', e.o);
      }
    }
  }

  // ---- what giving up leaves -----------------------------------------------

  /** systemd-boot with the one entry `t` was booted from. */
  predicate Alone(m: Machine, t: Deployment, tries: Tries) {
    && m.up.On? && m.up.session.booted == t && m.up.session.selected == Some(Entry(t, Some(tries)))
    && m.disk.SdBoot? && m.disk.entries == [Entry(t, Some(tries))]
  }

  /** The counter stripped, the record gone, nothing rejected, and the next boot starts `t`,
      which finds no trial. */
  predicate KeptAlone(m: Machine, m': Machine, t: Deployment) {
    && AtPc(m', Idle) && m'.disk == SdBoot([Entry(t, None)], None) && m'.rejected == m.rejected
    && var next := Step(Step(m', Cut), PowerOn(true, true));
       next.up == On(Fresh(t, None)) && Judge(next.disk, next.up.session) == Quiet
  }

  lemma {:induction false} KeepsAlone(m: Machine, inCheck: bool, k: nat, t: Deployment, tries: Tries)
    requires Alone(m, t, tries) && m.up.session.pc == Clear(Forgetting(Abandoned(inCheck), 0))
    ensures KeptAlone(m, AllDone(m, 2 + k), t)
  {
    var e := Entry(t, Some(tries));
    var m1 := Step(m, Do(Done));
    assert m1 == At(m.(disk := SdBoot([e], None)), Clear(Blessing(Abandoned(inCheck), 0)));
    var m2 := Step(m1, Do(Done));
    StripOne(e);
    assert m2 == At(m.(disk := SdBoot([Entry(t, None)], None)), Idle);
    assert AllDone(m, 2 + k) == AllDone(m1, 1 + k) == AllDone(m2, k);
    Afterwards(m2, k);
    QuietAlone(m2, t);
  }

  lemma StripOne(e: Entry)
    ensures Strip([e], e) == [Entry(e.dep, None)]
  {
    assert Strip([e], e) == [e.(tries := None)] + Strip([e][1..], e);
  }

  lemma {:induction false} QuietAlone(m: Machine, t: Deployment)
    requires m.up.On? && m.disk == SdBoot([Entry(t, None)], None)
    ensures var next := Step(Step(m, Cut), PowerOn(true, true));
      next.up == On(Fresh(t, None)) && Judge(next.disk, next.up.session) == Quiet
  {
    assert [Entry(t, None)][0 := Bumped(Entry(t, None))] == [Entry(t, None)];
  }

  /** Judged used up, the only deployment is kept. */
  lemma {:induction false} UsedUpAloneIsKept(m: Machine, t: Deployment, tries: Tries)
    requires Alone(m, t, tries) && AtPc(m, Loading) && m.disk.record == Some(t)
    ensures KeptAlone(m, AllDone(Step(m, Do(Unread(true, false))), 2), t)
  {
    var m1 := Step(m, Do(Unread(true, false)));
    assert m1 == At(m, Clear(Forgetting(Abandoned(false), 0)));
    KeepsAlone(m1, false, 0, t, tries);
  }

  /** So it is when its last check fails. */
  lemma {:induction false} FailedAloneIsKept(m: Machine, t: Deployment, made: nat)
    requires Alone(m, t, Tries(0, made)) && AtPc(m, Idle) && (m.disk.record.None? || m.disk.record == Some(t))
    ensures KeptAlone(m, Checked(m, false), t)
  {
    var tries := Tries(0, made);
    var m1 := Step(m, StartCheck);
    var m2 := Step(m1, Do(Done));
    assert m2 == At(m, Check(Checking(Some(0))));
    var m3 := Step(m2, Verdict(false));
    assert m3 == At(m, Check(Rereading(Some(0))));
    var m4 := Step(m3, Do(Done));
    assert m4 == At(m, Clear(Forgetting(Abandoned(true), 0)));
    assert Checked(m, false) == AllDone(m4, 5);
    KeepsAlone(m4, true, 3, t, tries);
  }

  /** Giving up, however its two effects end: reported as success it leaves the counter if and
      only if the blessing could not see the entry; reported as a failure it has forgotten
      the trial or not, and stripped the counter or not. */
  lemma {:induction false} CounterLeftIffUnseen(m: Machine, inCheck: bool, o1: Outcome, o2: Outcome, t: Deployment, tries: Tries)
    requires Alone(m, t, tries) && m.up.session.pc == Clear(Forgetting(Abandoned(inCheck), 0))
    ensures var m1 := Step(m, Do(o1));
      && m1.disk.SdBoot? && m1.disk.entries == m.disk.entries
      && (o1 != Done <==> AtPc(m1, if inCheck then Idle else Guard(Unassessed)))
      && (o1 == Done ==>
            var m2 := Step(m1, Do(o2));
            var unseen := o2.Unread? && o2.counter;
            && (o2 == Done || unseen ==> AtPc(m2, Idle))
            && (Is(UnseenBless, m1, Do(o2)) <==> unseen)
            && m2.disk == SdBoot(if o2 == Failed || unseen then [Entry(t, Some(tries))] else [Entry(t, None)], None)
            && m2.rejected == m.rejected)
  {
    StripOne(Entry(t, Some(tries)));
    var m1 := Step(m, Do(o1));
    if o1 == Done {
      assert m1 == At(m.(disk := SdBoot([Entry(t, Some(tries))], None)), Clear(Blessing(Abandoned(inCheck), 0)));
    }
  }

  // ---- GRUB ----------------------------------------------------------------

  /** The same of GRUB: the variables cleared, the order as it was. */
  predicate KeptFirst(m: Machine, m': Machine, t: Deployment) {
    && AtPc(m', Idle) && m'.disk == Grub(None, None, false, [t]) && m'.rejected == m.rejected
    && var next := Step(Step(m', Cut), PowerOn(true, true));
       next.up == On(Fresh(t, None)) && Judge(next.disk, next.up.session) == Quiet
  }

  lemma {:induction false} KeepsFirst(m: Machine, inCheck: bool, k: nat, t: Deployment)
    requires m.up.On? && m.up.session.pc == Clear(Forgetting(Abandoned(inCheck), 0))
    requires m.disk.Grub? && m.disk.order == [t]
    ensures KeptFirst(m, AllDone(m, 1 + k), t)
  {
    var m1 := Step(m, Do(Done));
    assert m1 == At(m.(disk := Grub(None, None, false, [t])), Idle);
    assert AllDone(m, 1 + k) == AllDone(m1, k);
    Afterwards(m1, k);
  }

  lemma {:induction false} UsedUpOnlyIsKept(m: Machine, t: Deployment)
    requires AtPc(m, Loading) && m.up.session.booted == t && m.disk.Grub? && m.disk.order == [t]
    requires m.disk.target == Some(t.digest) && (m.disk.counter.None? || m.disk.counter.value < 0)
    ensures KeptFirst(m, AllDone(m, 2), t)
  {
    var m1 := Step(m, Do(Done));
    assert m1 == At(m, Clear(Forgetting(Abandoned(false), 0)));
    assert AllDone(m, 2) == AllDone(m1, 1);
    KeepsFirst(m1, false, 0, t);
  }

  lemma {:induction false} FailedOnlyIsKept(m: Machine, t: Deployment)
    requires AtPc(m, Idle) && m.up.session.booted == t && m.disk.Grub? && m.disk.order == [t]
    requires m.disk.target == Some(t.digest) && m.disk.counter == Some(0)
    ensures KeptFirst(m, Checked(m, false), t)
  {
    var m1 := Step(m, StartCheck);
    var m2 := Step(m1, Do(Done));
    assert m2 == At(m, Check(Checking(Some(0))));
    var m3 := Step(m2, Verdict(false));
    assert m3 == At(m, Check(Rereading(Some(0))));
    var m4 := Step(m3, Do(Done));
    assert m4 == At(m, Clear(Forgetting(Abandoned(true), 0)));
    assert Checked(m, false) == AllDone(m4, 5);
    KeepsFirst(m4, true, 4, t);
  }

  /** A counter without a target is no trial: the boot service clears it, and rejects nothing. */
  lemma {:induction false} StaleIsCleared(m: Machine)
    requires AtPc(m, Loading) && m.disk.Grub? && m.disk.counter.Some? && m.disk.target.None?
    ensures AllDone(m, 2) == At(m.(disk := Grub(None, None, false, m.disk.order)), Idle)
  {
    var m1 := Step(m, Do(Done));
    assert m1 == At(m, Clear(Forgetting(StaleState, 0)));
    assert AllDone(m, 2) == AllDone(m1, 1);
  }
}
