/**
  Safety of one GRUB trial of the deployment `t`, with `p` the deployment that was
  running when `t` was staged. Every statement is about every run: any interleaving
  of boots, load failures, power cuts after any single effect, failed effects, and
  boot and check services, each any number of times in one boot. `t.digest != p.digest` is assumed throughout,
  because `assess` compares digests only; `SameDigestDefeatsRollback` shows why.
*/
module GrubTrial {
  import opened Options
  import opened Assessments
  import opened Protocol

  predicate InTrial(d: Disk, t: Deployment, n: nat) {
    d.Grub? && d.target == Some(t.digest) && d.fallback && d.counter.Some? && -1 <= d.counter.value <= n
  }

  predicate Cleared(d: Disk) {
    d.Grub? && d.counter.None? && d.target.None? && !d.fallback
  }

  predicate TargetFirst(d: Disk, t: Deployment, p: Deployment) {
    d.Grub? && |d.order| == 2 && d.order[0] == t && d.order[1] == p
  }

  predicate PreviousFirst(d: Disk, t: Deployment, p: Deployment) {
    d.Grub? && |d.order| == 2 && d.order[0] == p && d.order[1] == t
  }

  /** What each program point may rely on. */
  predicate PcOk(m: Machine, s: Session, t: Deployment, p: Deployment, n: nat) {
    match s.pc
    case Demote(pc) => InTrial(m.disk, t, n) && DemoteOk(m.disk, s, pc, t, p)
    case Clear(pc) =>
      && pc.Forgetting?
      && if pc.why.Confirmed? then s.booted == t
         else (pc.why.FellBackHome? || pc.why.RolledBack?) && PreviousFirst(m.disk, t, p)
    case Check(Checking(counter)) => Counting(m.disk, s, counter, t, n)
    case Check(Rereading(counter)) => Counting(m.disk, s, counter, t, n)
    case Arm(pc) => ArmsNothing(pc)
    case _ => true
  }

  predicate DemoteOk(d: Disk, s: Session, pc: DemotePc, t: Deployment, p: Deployment) {
    match pc
    case ReadingDefault(path) => PathOk(path, s, t, p)
    case Swapping(path) => PathOk(path, s, t, p) && TargetFirst(d, t, p)
    case Rechecking(target) => PathOk(FallBack(target), s, t, p)
    case MarkingBad(_) => false
    case Recording(path) => PathOk(path, s, t, p) && PreviousFirst(d, t, p)
  }

  predicate Counting(d: Disk, s: Session, counter: Option<int>, t: Deployment, n: nat) {
    InTrial(d, t, n) && s.booted == t && counter == d.counter && counter.value >= 0
  }

  predicate PathOk(path: Path, s: Session, t: Deployment, p: Deployment) {
    path.target == t.digest && s.booted == (if path.FallBack? then p else t)
  }

  /** The invariant of a GRUB trial. */
  predicate Trial(m: Machine, t: Deployment, p: Deployment, n: nat) {
    && t.digest != p.digest
    && (TargetFirst(m.disk, t, p) || PreviousFirst(m.disk, t, p))
    && (InTrial(m.disk, t, n) || Cleared(m.disk))
    && (m.up.On? ==>
      var s := m.up.session;
      (s.booted == t || s.booted == p) && s.selected.None? && PcOk(m, s, t, p, n))
  }

  /** The state the finalizer leaves behind an armed update. */
  predicate Start(m: Machine, t: Deployment, p: Deployment, n: nat) {
    && t.digest != p.digest && n >= 1
    && m.disk == Grub(Some(n), Some(t.digest), true, [t, p])
    && m.up.Off?
  }

  lemma JudgeInTrial(d: Disk, s: Session, t: Deployment, n: nat)
    requires InTrial(d, t, n)
    ensures Judge(d, s) ==
      if s.booted.digest != t.digest then FellBack(t.digest)
      else if d.counter.value < 0 then Exhausted(t.digest)
      else TrialInProgress
    ensures TrialCounter(d, s) == d.counter
  {
  }

  lemma JudgeCleared(d: Disk, s: Session)
    requires Cleared(d)
    ensures Judge(d, s) == Quiet
  {
  }

  lemma {:induction false} BootKeepsTrial(m: Machine, loads: bool, saved: bool, t: Deployment, p: Deployment, n: nat)
    requires Trial(m, t, p, n) && m.up.Off?
    ensures Trial(GrubBoot(m, loads, saved), t, p, n)
  {
  }

  lemma {:induction false} AssessKeepsTrial(m: Machine, t: Deployment, p: Deployment, n: nat)
    requires Trial(m, t, p, n) && m.up.On? && m.up.session.pc.Loading?
    ensures Trial(At(m, AssessedPc(m.disk, m.up.session)), t, p, n)
  {
    if InTrial(m.disk, t, n) {
      JudgeInTrial(m.disk, m.up.session, t, n);
    } else {
      JudgeCleared(m.disk, m.up.session);
    }
  }

  lemma {:induction false} GuardKeepsTrial(m: Machine, pc: GuardPc, o: Outcome, t: Deployment, p: Deployment, n: nat)
    requires Trial(m, t, p, n) && m.up.On? && m.up.session.pc == Guard(pc)
    ensures Trial(GuardEffect(m, pc, o), t, p, n)
  {
  }

  lemma {:induction false} DemoteKeepsTrial(m: Machine, pc: DemotePc, o: Outcome, t: Deployment, p: Deployment, n: nat)
    requires Trial(m, t, p, n) && m.up.On? && m.up.session.pc == Demote(pc)
    ensures Trial(DemoteEffect(m, pc, o), t, p, n)
  {
  }

  lemma {:induction false} ClearKeepsTrial(m: Machine, pc: ClearPc, o: Outcome, t: Deployment, p: Deployment, n: nat)
    requires Trial(m, t, p, n) && m.up.On? && m.up.session.pc == Clear(pc)
    ensures Trial(ClearEffect(m, pc, o), t, p, n)
  {
    assert Cleared(Forget(m.disk)) && Forget(m.disk).order == m.disk.order;
  }

  lemma {:induction false} CheckKeepsTrial(m: Machine, pc: CheckPc, o: Outcome, t: Deployment, p: Deployment, n: nat)
    requires Trial(m, t, p, n) && m.up.On? && m.up.session.pc == Check(pc)
    ensures Trial(CheckEffect(m, pc, o), t, p, n)
  {
    if InTrial(m.disk, t, n) {
      JudgeInTrial(m.disk, m.up.session, t, n);
    } else {
      JudgeCleared(m.disk, m.up.session);
    }
  }

  lemma {:induction false} EffectKeepsTrial(m: Machine, o: Outcome, t: Deployment, p: Deployment, n: nat)
    requires Trial(m, t, p, n) && m.up.On? && TrialEvent(m, Do(o))
    ensures Trial(Effect(m, o), t, p, n)
  {
    match m.up.session.pc
    case Loading => AssessKeepsTrial(m, t, p, n);
    case Guard(pc) => GuardKeepsTrial(m, pc, o, t, p, n);
    case Demote(pc) => DemoteKeepsTrial(m, pc, o, t, p, n);
    case Clear(pc) => ClearKeepsTrial(m, pc, o, t, p, n);
    case Check(pc) => CheckKeepsTrial(m, pc, o, t, p, n);
    case Arm(pc) => ArmingNothing(m, pc, o);
    case _ =>
  }

  lemma {:induction false} StepKeepsTrial(m: Machine, e: Event, t: Deployment, p: Deployment, n: nat)
    requires Trial(m, t, p, n) && TrialEvent(m, e)
    ensures Trial(Step(m, e), t, p, n)
  {
    if m.up.Off? {
      if e.PowerOn? { BootKeepsTrial(m, e.loads, e.saved, t, p, n); }
    } else if e.Do? {
      EffectKeepsTrial(m, e.o, t, p, n);
    }
  }

  lemma {:induction false} TrialInvariant(m: Machine, es: seq<Event>, t: Deployment, p: Deployment, n: nat)
    requires Trial(m, t, p, n) && TrialEvents(m, es)
    ensures Trial(Run(m, es), t, p, n)
    decreases |es|
  {
    if es != [] {
      TrialInvariant(m, es[..|es| - 1], t, p, n);
      StepKeepsTrial(Run(m, es[..|es| - 1]), es[|es| - 1], t, p, n);
    }
  }
}
