/** How often a GRUB trial can start the target, and what each attempt sees. */
module Attempts {
  import opened Assessments
  import opened Protocol
  import opened History
  import opened GrubTrial
  import opened GrubSafety
  import opened Recovery

  function TriesLeft(d: Disk): nat {
    if d.Grub? && d.counter.Some? && d.counter.value > 0 then d.counter.value else 0
  }

  predicate Counted(d: Disk, t: Deployment, p: Deployment, n: nat) {
    InTrial(d, t, n) && TargetFirst(d, t, p)
  }

  lemma {:induction false} StepSpendsOneTry(m: Machine, e: Event, t: Deployment, p: Deployment, n: nat)
    requires Trial(m, t, p, n) && TrialEvent(m, e)
    ensures Counted(Step(m, e).disk, t, p, n) ==> Counted(m.disk, t, p, n)
    ensures Counted(Step(m, e).disk, t, p, n) ==>
      TriesLeft(Step(m, e).disk) + (if Is(CountedTry(t), m, e) then 1 else 0) ==
      TriesLeft(m.disk) + (if Is(UnsavedTry(t), m, e) then 1 else 0)
    ensures Is(CountedTry(t), m, e) ==> Counted(Step(m, e).disk, t, p, n)
    ensures Is(UnsavedTry(t), m, e) ==> Is(CountedTry(t), m, e)
  {
    StepKeepsTrial(m, e, t, p, n);
    StepOnlyLowers(m, e, t, p, n);
    if PreviousFirst(m.disk, t, p) { StepKeepsPreviousFirst(m, e, t, p, n); }
    if m.up.On? {
      OnlyBootsCount(m, e, t, p, n);
    }
  }

  lemma {:induction false} OnlyBootsCount(m: Machine, e: Event, t: Deployment, p: Deployment, n: nat)
    requires Trial(m, t, p, n) && TrialEvent(m, e) && m.up.On?
    ensures Step(m, e).disk.Grub?
    ensures Step(m, e).disk.counter == m.disk.counter || Step(m, e).disk.counter.None?
  {
    if e.Do? {
      match m.up.session.pc
      case Demote(pc) =>
      case Clear(pc) =>
      case Guard(pc) =>
      case Check(pc) =>
      case Arm(pc) => ArmingNothing(m, pc, e.o);
      case _ =>
    }
  }

  /** Conservation: while `t` is first and its trial runs, the tries made and the tries
      left add up to the tries armed, plus those whose count GRUB could not save. So
      attempt k leaves n - k tries, and there are at most n attempts. */
  lemma {:induction false} TriesAreConserved(m: Machine, es: seq<Event>, t: Deployment, p: Deployment, n: nat)
    requires Start(m, t, p, n) && TrialEvents(m, es)
    ensures Counted(Run(m, es).disk, t, p, n) ==>
      Count(m, es, CountedTry(t)) + TriesLeft(Run(m, es).disk) == n + Count(m, es, UnsavedTry(t))
    ensures Count(m, es, CountedTry(t)) <= n + Count(m, es, UnsavedTry(t))
    decreases |es|
  {
    if es != [] {
      var prefix, e := es[..|es| - 1], es[|es| - 1];
      TriesAreConserved(m, prefix, t, p, n);
      TrialInvariant(m, prefix, t, p, n);
      StepSpendsOneTry(Run(m, prefix), e, t, p, n);
    }
  }

  /** The only ways to start `t`: a counted try; the spent counter choosing it after a
      roll-back was cut between swap and clear; a confirmed trial; or `p` not loading. */
  lemma {:induction false} WaysToEnter(m: Machine, e: Event, t: Deployment, p: Deployment, n: nat)
    requires Trial(m, t, p, n) && Is(Entered(t), m, e)
    ensures Is(CountedTry(t), m, e) || Is(WindowBoot(t), m, e) || Is(UncountedBoot, m, e) || Is(LoadFailure, m, e)
    ensures Is(WindowBoot(t), m, e) ==> PreviousFirst(m.disk, t, p) && InTrial(m.disk, t, n)
  {
  }

  lemma {:induction false} EntriesAreBounded(m: Machine, es: seq<Event>, t: Deployment, p: Deployment, n: nat)
    requires Trial(m, t, p, n) && TrialEvents(m, es)
    ensures Count(m, es, Entered(t)) <=
      Count(m, es, CountedTry(t)) + Count(m, es, WindowBoot(t)) + Count(m, es, UncountedBoot) + Count(m, es, LoadFailure)
    decreases |es|
  {
    if es != [] {
      var prefix, e := es[..|es| - 1], es[|es| - 1];
      EntriesAreBounded(m, prefix, t, p, n);
      TrialInvariant(m, prefix, t, p, n);
      if Is(Entered(t), Run(m, prefix), e) { WaysToEnter(Run(m, prefix), e, t, p, n); }
    }
  }

  /** With the counter there and `t` not demoted, only a counted try starts `t`; a failed
      load starts `p`. */
  lemma {:induction false} TrialEntryIsCounted(m: Machine, e: Event, t: Deployment, p: Deployment, n: nat)
    requires Trial(m, t, p, n) && Is(TrialEntered(t), m, e) && !Is(HalfDemoted(t), m, e)
    ensures Is(CountedTry(t), m, e)
  {
  }

  lemma {:induction false} TrialEntriesAreCounted(m: Machine, es: seq<Event>, t: Deployment, p: Deployment, n: nat)
    requires Trial(m, t, p, n) && TrialEvents(m, es) && Count(m, es, HalfDemoted(t)) == 0
    ensures Count(m, es, TrialEntered(t)) <= Count(m, es, CountedTry(t))
    ensures Count(m, es, Entered(t)) <= Count(m, es, TrialEntered(t)) + Count(m, es, UncountedBoot)
    decreases |es|
  {
    if es != [] {
      var prefix, e := es[..|es| - 1], es[|es| - 1];
      TrialEntriesAreCounted(m, prefix, t, p, n);
      TrialInvariant(m, prefix, t, p, n);
      EntryHasCounterOrNot(Run(m, prefix), e, t, p, n);
      if Is(TrialEntered(t), Run(m, prefix), e) { TrialEntryIsCounted(Run(m, prefix), e, t, p, n); }
    }
  }

  lemma {:induction false} EntryHasCounterOrNot(m: Machine, e: Event, t: Deployment, p: Deployment, n: nat)
    requires Trial(m, t, p, n)
    ensures Is(Entered(t), m, e) ==> Is(TrialEntered(t), m, e) || Is(UncountedBoot, m, e)
  {
  }

  /** A trial armed with n tries starts `t` at most n times before its counter is cleared,
      plus the tries whose count could not be saved, if no boot begins with the roll-back
      half done. Entries may fail to load, and anything else may fail or be cut. */
  lemma {:induction false} AttemptBound(m: Machine, es: seq<Event>, t: Deployment, p: Deployment, n: nat)
    requires Start(m, t, p, n) && TrialEvents(m, es)
    requires Count(m, es, HalfDemoted(t)) == 0
    ensures Count(m, es, TrialEntered(t)) <= n + Count(m, es, UnsavedTry(t))
    ensures Count(m, es, Entered(t)) <= n + Count(m, es, UnsavedTry(t)) + Count(m, es, UncountedBoot)
  {
    TriesAreConserved(m, es, t, p, n);
    TrialEntriesAreCounted(m, es, t, p, n);
  }

  // ---- when no roll-back is left half done ---------------------------------

  /** The swap is done, the counter not yet cleared, and the command that does it runs. */
  predicate Demoting(m: Machine) {
    m.up.On? &&
    match m.up.session.pc
    case Demote(pc) => pc.Rechecking? || pc.Recording?
    case Clear(pc) => pc.Forgetting? && (pc.why.FellBackHome? || pc.why.RolledBack?)
    case _ => false
  }

  predicate HalfDemotedDisk(d: Disk, t: Deployment, p: Deployment, n: nat) {
    InTrial(d, t, n) && PreviousFirst(d, t, p)
  }

  lemma {:induction false} DemoteHalfway(m: Machine, pc: DemotePc, o: Outcome, t: Deployment, p: Deployment, n: nat)
    requires Trial(m, t, p, n) && m.up.On? && m.up.session.pc == Demote(pc) && !Is(DemotionFault, m, Do(o))
    requires HalfDemotedDisk(m.disk, t, p, n) ==> Demoting(m)
    ensures var m' := DemoteEffect(m, pc, o);
      HalfDemotedDisk(m'.disk, t, p, n) ==> Demoting(m')
  {
  }

  lemma {:induction false} ClearHalfway(m: Machine, pc: ClearPc, o: Outcome, t: Deployment, p: Deployment, n: nat)
    requires Trial(m, t, p, n) && m.up.On? && m.up.session.pc == Clear(pc) && !Is(DemotionFault, m, Do(o))
    requires HalfDemotedDisk(m.disk, t, p, n) ==> Demoting(m)
    ensures var m' := ClearEffect(m, pc, o);
      HalfDemotedDisk(m'.disk, t, p, n) ==> Demoting(m')
  {
  }

  lemma {:induction false} StepHalfway(m: Machine, e: Event, t: Deployment, p: Deployment, n: nat)
    requires Trial(m, t, p, n) && TrialEvent(m, e) && !Is(DemotionFault, m, e)
    requires HalfDemotedDisk(m.disk, t, p, n) ==> Demoting(m)
    ensures HalfDemotedDisk(Step(m, e).disk, t, p, n) ==> Demoting(Step(m, e))
  {
    if m.up.On? && e.Do? {
      match m.up.session.pc
      case Demote(pc) => DemoteHalfway(m, pc, e.o, t, p, n);
      case Clear(pc) => ClearHalfway(m, pc, e.o, t, p, n);
      case Guard(pc) =>
      case Check(pc) =>
      case Arm(pc) => ArmingNothing(m, pc, e.o);
      case _ =>
    }
  }

  /** If nothing is cut or fails for good between the swap of the order and the clearing of
      the counter, no boot begins with the roll-back half done. */
  lemma {:induction false} NoFaultNoHalfDemotion(m: Machine, es: seq<Event>, t: Deployment, p: Deployment, n: nat)
    requires Start(m, t, p, n) && TrialEvents(m, es) && Count(m, es, DemotionFault) == 0
    ensures Count(m, es, HalfDemoted(t)) == 0
    ensures HalfDemotedDisk(Run(m, es).disk, t, p, n) ==> Demoting(Run(m, es))
    decreases |es|
  {
    if es != [] {
      var prefix, e := es[..|es| - 1], es[|es| - 1];
      NoFaultNoHalfDemotion(m, prefix, t, p, n);
      TrialInvariant(m, prefix, t, p, n);
      StepHalfway(Run(m, prefix), e, t, p, n);
      OffIsNotDemoting(Run(m, prefix), e, t, p, n);
    }
  }

  lemma {:induction false} OffIsNotDemoting(m: Machine, e: Event, t: Deployment, p: Deployment, n: nat)
    requires Trial(m, t, p, n) && (HalfDemotedDisk(m.disk, t, p, n) ==> Demoting(m))
    ensures !Is(HalfDemoted(t), m, e)
  {
  }

  /** So `t` is started at most n times if every count is saved. */
  lemma {:induction false} AttemptBoundWithoutFaults(m: Machine, es: seq<Event>, t: Deployment, p: Deployment, n: nat)
    requires Start(m, t, p, n) && TrialEvents(m, es)
    requires Count(m, es, DemotionFault) == 0 && Count(m, es, UnsavedTry(t)) == 0
    ensures Count(m, es, TrialEntered(t)) <= n
  {
    NoFaultNoHalfDemotion(m, es, t, p, n);
    AttemptBound(m, es, t, p, n);
  }

  lemma HangEnters(m: Machine, t: Deployment, p: Deployment)
    requires m.up.Off? && m.disk.Grub? && m.disk.order == [t, p] && m.disk.counter.Some? && m.disk.counter.value > 0
    ensures Is(Entered(t), m, PowerOn(true, true))
    ensures !Is(Entered(t), Step(m, PowerOn(true, true)), Cut)
  {
  }

  /** Exactly n if all hang ... */
  lemma {:induction false} AllHangsEnter(m: Machine, k: nat, t: Deployment, p: Deployment, n: nat)
    requires Start(m, t, p, n) && k <= n
    ensures Count(m, Hangs(k), Entered(t)) == k
    decreases k
  {
    hide Is, Step, Run;
    if k > 0 {
      AllHangsEnter(m, k - 1, t, p, n);
      HangsOnlyCount(m, k - 1, t, p, n);
      var es := Hangs(k - 1);
      HangEnters(Run(m, es), t, p);
      var es1 := es + [PowerOn(true, true)];
      assert Hangs(k) == es1 + [Cut];
      RunThen(m, es, PowerOn(true, true));
      CountThen(m, es, PowerOn(true, true), Entered(t));
      CountThen(m, es1, Cut, Entered(t));
    }
  }

  lemma CountThen(m: Machine, es: seq<Event>, e: Event, k: Mark)
    ensures Count(m, es + [e], k) == Count(m, es, k) + if Is(k, Run(m, es), e) then 1 else 0
  {
    assert (es + [e])[..|es + [e]| - 1] == es;
  }

  /** ... and then `p` boots and sees that the trial failed. */
  lemma {:induction false} HangsFallBack(m: Machine, t: Deployment, p: Deployment, n: nat)
    requires Start(m, t, p, n)
    ensures var m' := Step(Run(m, Hangs(n)), PowerOn(true, true));
      m'.up.On? && m'.up.session.booted == p && Judge(m'.disk, m'.up.session) == FellBack(t.digest)
  {
    HangsOnlyCount(m, n, t, p, n);
    var m' := Step(Run(m, Hangs(n)), PowerOn(true, true));
    assert InTrial(m'.disk, t, n);
    JudgeInTrial(m'.disk, m'.up.session, t, n);
  }
}
