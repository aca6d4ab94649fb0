/**
  What cannot be read on systemd-boot and is not reported: the EFI variable with the counter
  of the boot, the entry it names, and the record of the trial. A boot service that does not
  see its counter ends the trial of a deployment that was never checked, and a confirmation
  that does not see its entry leaves the counter and reports success.
*/
module Unreadable {
  import opened Options
  import opened Assessments
  import opened Protocol
  import opened History
  import opened Services
  import opened SdTrial
  import opened SdServices

  // ---- a boot service that does not see its counter ------------------------

  /** In every reachable state in which the boot service of `t` loads the trial, `t` is judged
      used up if and only if the counter of this boot was not read and the record was; never
      is it judged to have fallen back. */
  lemma {:induction false} ExhaustedIffUnread(m: Machine, es: seq<Event>, o: Outcome, t: Deployment, p: Deployment, n: nat)
    requires Start(m, t, p, n) && TrialEvents(m, es)
    requires AtPc(Run(m, es), Loading) && Run(m, es).up.session.booted == t && Loads(Run(m, es).disk, o)
    ensures var m' := Run(m, es);
      var judged := JudgeSeen(m'.disk, m'.up.session, o);
      && judged in {TrialInProgress, Quiet, Exhausted(t.digest)}
      && (judged == Exhausted(t.digest) <==> Is(UnreadCounter(true), m', Do(o)))
      && (AtPc(Step(m', Do(o)), Demote(MarkingBad(RollBack(t.digest, false)))) <==> Is(UnreadCounter(true), m', Do(o)))
  {
    TrialInvariant(m, es, t, p, n);
    UnreadIsJudged(Run(m, es), o, t, p, n);
  }

  lemma {:induction false} UnreadIsJudged(m: Machine, o: Outcome, t: Deployment, p: Deployment, n: nat)
    requires Trial(m, t, p, n) && AtPc(m, Loading) && m.up.session.booted == t && Loads(m.disk, o)
    ensures var judged := JudgeSeen(m.disk, m.up.session, o);
      && judged in {TrialInProgress, Quiet, Exhausted(t.digest)}
      && (judged == Exhausted(t.digest) <==> Is(UnreadCounter(true), m, Do(o)))
      && (AtPc(Step(m, Do(o)), Demote(MarkingBad(RollBack(t.digest, false)))) <==> Is(UnreadCounter(true), m, Do(o)))
  {
    JudgeUnseen(m, o, t, p, n);
  }

  /** Then, however many tries are left, `t` is demoted and rejected and the machine reboots. */
  lemma {:induction false} UnreadEndsTrial(m: Machine, t: Deployment, p: Deployment, n: nat)
    requires Trial(m, t, p, n) && AtPc(m, Loading) && m.up.session.booted == t && m.disk.record.Some?
    ensures var m' := AllDone(Step(m, Do(Unread(true, false))), 5);
      m'.up.Off? && m'.disk == DemotedDisk(m.disk) && m'.rejected == m.rejected + {t.digest}
  {
    var o := Unread(true, false);
    UnreadIsJudged(m, o, t, p, n);
    StepKeepsTrial(m, Do(o), t, p, n);
    DemotionCompletes(Step(m, Do(o)), RollBack(t.digest, false), t, p, n);
  }

  /** It does happen, on the first of any number of attempts and with no check run. */
  lemma {:induction false} FirstBootUnreadRejects(m: Machine, t: Deployment, p: Deployment, n: nat)
    requires Start(m, t, p, n)
    ensures var loading := Step(Step(m, PowerOn(true, true)), StartBoot);
      var m' := AllDone(Step(loading, Do(Unread(true, false))), 5);
      && AtPc(loading, Loading) && loading.up.session.booted == t
      && m'.up.Off? && t.digest in m'.rejected
      && m'.disk == SdBoot([Entry(t, Some(Tries(0, 1))), Entry(p, None)], None)
  {
    var m1 := Step(m, PowerOn(true, true));
    Chooses(m.disk, t, p, n);
    StepKeepsTrial(m, PowerOn(true, true), t, p, n);
    StepKeepsTrial(m1, StartBoot, t, p, n);
    var loading := Step(m1, StartBoot);
    assert loading.disk == SdBoot([Entry(t, Some(Tries(n - 1, 1))), Entry(p, None)], Some(t));
    UnreadEndsTrial(loading, t, p, n);
  }

  // ---- a confirmation that does not see its entry --------------------------

  /** Where a confirmation can be after so many blessings that did not see the entry. */
  predicate ConfirmState(m: Machine, booted: Entry, unseen: nat) {
    m.disk.SdBoot? && |m.disk.entries| == 2 && (m.disk.entries[0] == booted || m.disk.entries[0].tries.None?) &&
    (m.up.On? ==>
      var s := m.up.session;
      s.selected == Some(booted) &&
      match s.pc
      case Clear(pc) => pc.why.Confirmed? && unseen == 0
      case Check(pc) => pc.EndingWatchdog? && (m.disk.entries[0].tries.Some? <==> unseen > 0)
      case pc => pc.Idle?)
  }

  lemma {:induction false} ConfirmStep(m: Machine, o: Outcome, booted: Entry, unseen: nat, t: Deployment, p: Deployment, n: nat)
    requires Trial(m, t, p, n) && ConfirmState(m, booted, unseen) && m.up.On?
    ensures ConfirmState(Step(m, Do(o)), booted, unseen + if Is(UnseenBless, m, Do(o)) then 1 else 0)
  {
    if m.up.session.pc.Clear? { BlessStrips(m.disk, m.up.session, t, p, n); }
  }

  /** A confirmation that reports success leaves the counter if and only if a blessing could
      not see the booted entry, which still had it. */
  lemma {:induction false} CounterLeftIffUnseen(m: Machine, es: seq<Event>, t: Deployment, p: Deployment, n: nat)
    requires Trial(m, t, p, n) && AtPc(m, Clear(Forgetting(Confirmed, 2))) && Pending(m.disk, m.up.session)
    requires forall i :: 0 <= i < |es| ==> es[i].Do?
    ensures var m' := Run(m, es);
      && Trial(m', t, p, n) && m'.up.On? && ConfirmState(m', m.up.session.selected.value, Count(m, es, UnseenBless))
      && (AtPc(m', Check(EndingWatchdog)) ==>
            (m'.disk.entries[0].tries.Some? <==> Count(m, es, UnseenBless) > 0))
    decreases |es|
  {
    if es != [] {
      var prefix, e := es[..|es| - 1], es[|es| - 1];
      CounterLeftIffUnseen(m, prefix, t, p, n);
      var m' := Run(m, prefix);
      StepKeepsTrial(m', e, t, p, n);
      ConfirmStep(m', e.o, m.up.session.selected.value, Count(m, prefix, UnseenBless), t, p, n);
    }
  }

  /** On the last attempt that loses the deployment just confirmed: the watchdog is ended, and
      the next boot starts `p`, which finds no trial. */
  lemma {:induction false} UnseenBlessingLoses(m: Machine, record: bool, retries: nat, t: Deployment, p: Deployment, n: nat)
    requires Trial(m, t, p, n) && AtPc(m, Clear(Blessing(Confirmed, retries)))
    requires Pending(m.disk, m.up.session) && LastAttempt(m.up.session)
    ensures var ended := Step(Step(m, Do(Unread(true, record))), Do(Done));
      var next := Step(Step(ended, Cut), PowerOn(true, true));
      && AtPc(ended, Idle) && ended.up.session.confirmed && ended.disk == m.disk
      && next.up.On? && next.up.session.booted == p && Judge(next.disk, next.up.session) == Quiet
  {
    var b := Step(m, Do(Unread(true, record)));
    assert b == At(m, Check(EndingWatchdog));
    var ended := Step(b, Do(Done));
    StepKeepsTrial(m, Do(Unread(true, record)), t, p, n);
    StepKeepsTrial(b, Do(Done), t, p, n);
    LostBootsPrevious(Step(ended, Cut), t, p, n);
  }

  lemma {:induction false} LostBootsPrevious(m: Machine, t: Deployment, p: Deployment, n: nat)
    requires Entries(m.disk, t, p, n) && t.digest != p.digest && m.up.Off? && TargetBad(m.disk) && m.disk.record.None?
    ensures var next := Step(m, PowerOn(true, true));
      next.up.On? && next.up.session.booted == p && Judge(next.disk, next.up.session) == Quiet
  {
    Chooses(m.disk, t, p, n);
    assert m.disk.entries[1 := Bumped(m.disk.entries[1])] == m.disk.entries;
  }

  /** It does happen: one attempt, a check that passes, and a blessing that sees nothing. */
  lemma {:induction false} ConfirmedTargetIsLost(m: Machine, t: Deployment, p: Deployment)
    requires Start(m, t, p, 1)
    ensures var passed := Step(Step(Step(Booted(m), StartCheck), Do(Done)), Verdict(true));
      var forgotten := Step(passed, Do(Done));
      var ended := Step(Step(forgotten, Do(Unread(true, false))), Do(Done));
      var next := Step(Step(ended, Cut), PowerOn(true, true));
      && Is(UnseenBless, forgotten, Do(Unread(true, false)))
      && AtPc(ended, Idle) && ended.up.session.confirmed
      && ended.disk == SdBoot([Entry(t, Some(Tries(0, 1))), Entry(p, None)], None)
      && next.up.On? && next.up.session.booted == p && Judge(next.disk, next.up.session) == Quiet
  {
    LastBoot(m, t, p);
    var booted := Booted(m);
    var passed := Step(Step(Step(booted, StartCheck), Do(Done)), Verdict(true));
    CheckPasses(booted, t, p, 1);
    StepKeepsTrial(passed, Do(Done), t, p, 1);
    var forgotten := Step(passed, Do(Done));
    assert forgotten == At(booted.(disk := Forget(booted.disk)), Clear(Blessing(Confirmed, 2)));
    UnseenBlessingLoses(forgotten, false, 2, t, p, 1);
  }

  lemma {:induction false} CheckPasses(m: Machine, t: Deployment, p: Deployment, n: nat)
    requires Trial(m, t, p, n) && AtPc(m, Idle) && m.up.session.booted == t && m.up.session.selected.Some?
    ensures var passed := Step(Step(Step(m, StartCheck), Do(Done)), Verdict(true));
      Trial(passed, t, p, n) && passed == At(m, Clear(Forgetting(Confirmed, 2)))
  {
    var m1 := Step(m, StartCheck);
    StepKeepsTrial(m, StartCheck, t, p, n);
    JudgeAny(m1, t, p, n);
    var m2 := Step(m1, Do(Done));
    StepKeepsTrial(m1, Do(Done), t, p, n);
    StepKeepsTrial(m2, Verdict(true), t, p, n);
  }
}
