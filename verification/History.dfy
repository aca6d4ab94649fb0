/** What has happened in a run: how many of its steps were of a given kind. */
module History {
  import opened Protocol

  datatype Mark =
    | HealthPass(dep: Deployment)       // every health check passed while `dep` was booted
    | LostRecord                        // the append to the rejected list left no trace
    | OrderChange                       // the boot order became another one
    | Entered(dep: Deployment)          // the boot loader started `dep`
    | CountedTry(dep: Deployment)       // GRUB counted an attempt at `dep`, the first entry
    | UnsavedTry(dep: Deployment)       // ... but could not save the counter
    | UnreadCounter(recorded: bool)     // the boot service could not read the counter of its boot; did it see the record?
    | UnseenBless                       // blessing could not see the booted entry, which still had its counter
    | LateCheck                         // a check started on the last attempt, the counter stripped already
    | BumpedTry(dep: Deployment)        // systemd-boot counted an attempt at the entry of `dep`
    | WindowBoot(dep: Deployment)       // GRUB's spent counter chose `dep`, already demoted
    | TrialEntered(dep: Deployment)     // GRUB started `dep` with the counter still there
    | HalfDemoted(dep: Deployment)      // a boot began with `dep` demoted and the counter still there
    | DemotionFault                     // a cut or failure after the swap, before the counter is cleared
    | UncountedBoot                     // the counter is gone
    | LoadFailure                       // the chosen entry did not load
    | HomeFault                         // the boot service failed and left the trial armed
    | MarkFault                         // ... and did not write its marker then
    | GuardFault                        // `cmd_boot`'s last resort failed
    | PreflightPass(dep: Deployment)    // preflight found nothing fatal in the staged `dep`
    | PreflightFail                     // ... or something
    | UnstageFault                      // the image refused so could not be dropped
    | LostRefusal                       // the append for it left no trace
    | TurnedOff                         // a boot ended, whatever ended it
    | ListUnread                        // `arm` could not read the rejected list
    | DropFault                         // dropping the staged update failed and left it staged
    | Armed(digest: string)             // `arm` wrote the trial of this image

  predicate Counts(m: Machine, dep: Deployment) {
    m.up.Off? && m.disk.Grub? && |m.disk.order| > 0 && m.disk.order[0] == dep &&
    m.disk.counter.Some? && !Spent(m.disk.counter)
  }

  /** A lost record, and a clearing that is tried again, are no faults. */
  predicate CutsDemotion(pc: Pc, e: Event) {
    match pc
    case Demote(Swapping(_)) => e.Do? && e.o != Done && e.o != Failed
    case Demote(Rechecking(_)) => e.Cut? || e.WatchdogFires? || (e.Do? && e.o != Done)
    case Demote(Recording(_)) => e.Cut? || e.WatchdogFires?
    case Clear(Forgetting(why, retries)) =>
      (why.FellBackHome? || why.RolledBack?) && (e.Cut? || e.WatchdogFires? || (e == Do(Failed) && retries == 0))
    case _ => false
  }

  predicate Is(k: Mark, m: Machine, e: Event) {
    match k
    case HealthPass(dep) =>
      e == Verdict(true) && m.up.On? && m.up.session.booted == dep &&
      m.up.session.pc.Check? && m.up.session.pc.check.Checking?
    case LostRecord =>
      e == Do(Failed) && m.up.On? && m.up.session.pc.Demote? && m.up.session.pc.demote.Recording?
    case OrderChange => m.disk.Grub? && Step(m, e).disk.Grub? && Step(m, e).disk.order != m.disk.order
    case Entered(dep) => m.up.Off? && Step(m, e).up.On? && Step(m, e).up.session.booted == dep
    case CountedTry(dep) => e.PowerOn? && Counts(m, dep)
    case UnsavedTry(dep) => e.PowerOn? && Counts(m, dep) && !e.saved
    case UnreadCounter(recorded) =>
      e.Do? && e.o.Unread? && e.o.counter && m.up.On? && m.up.session.pc.Loading? && m.disk.SdBoot? &&
      m.up.session.selected.Some? && (SeenDisk(m.disk, e.o).record.Some? <==> recorded)
    case UnseenBless =>
      e.Do? && m.up.On? && m.up.session.pc.Clear? && UnseenBlessing(m.up.session.pc.clear, e.o) &&
      Protocol.Armed(m.disk, m.up.session)
    case LateCheck =>
      e.StartCheck? && m.up.On? && m.up.session.pc.Idle? && m.disk.SdBoot? && m.up.session.selected.Some? &&
      Bad(m.up.session.selected.value) && m.up.session.selected.value !in m.disk.entries
    case BumpedTry(dep) =>
      e.PowerOn? && m.up.Off? && m.disk.SdBoot? && m.disk.entries != [] &&
      Chosen(m.disk.entries).dep == dep && Chosen(m.disk.entries).tries.Some?
    case WindowBoot(dep) =>
      e.PowerOn? && m.up.Off? && m.disk.Grub? && Spent(m.disk.counter) && |m.disk.order| > 1 && m.disk.order[1] == dep
    case TrialEntered(dep) =>
      m.up.Off? && m.disk.Grub? && m.disk.counter.Some? && Step(m, e).up.On? && Step(m, e).up.session.booted == dep
    case HalfDemoted(dep) =>
      e.PowerOn? && m.up.Off? && m.disk.Grub? && m.disk.counter.Some? && |m.disk.order| > 1 && m.disk.order[1] == dep
    case DemotionFault => m.up.On? && CutsDemotion(m.up.session.pc, e)
    case UncountedBoot => e.PowerOn? && m.up.Off? && m.disk.Grub? && m.disk.counter.None?
    case LoadFailure => e.PowerOn? && m.up.Off? && !e.loads
    case HomeFault =>
      e.Do? && m.up.On? && !m.up.session.pc.Guard? &&
      Step(m, e).up.On? && Step(m, e).up.session.pc == Guard(Unassessed) && Protocol.Armed(Step(m, e).disk, Step(m, e).up.session)
    case MarkFault =>
      e.Do? && m.up.On? && m.up.session.pc.Guard? &&
      ((m.up.session.pc.guard.Unassessed? && e.o != Done) || (m.up.session.pc.guard.Marking? && e.o == Failed))
    case GuardFault =>
      e.Do? && e.o != Done && m.up.On? && m.up.session.pc.Guard? &&
      (m.up.session.pc.guard.Unassessed? || m.up.session.pc.guard == Marking(true))
    case PreflightPass(dep) =>
      e == Verdict(true) && m.up.On? && m.up.session.pc.Arm? && m.up.session.pc.arm.Preflight? &&
      m.up.session.staged.Some? && m.up.session.staged.value.dep == dep
    case PreflightFail =>
      e == Verdict(false) && m.up.On? && m.up.session.pc.Arm? && m.up.session.pc.arm.Preflight?
    case UnstageFault => e.Do? && e.o != Done && m.up.On? && m.up.session.pc == Arm(Unstaging(true))
    case LostRefusal => e == Do(Failed) && m.up.On? && m.up.session.pc.Arm? && m.up.session.pc.arm.Refusing?
    case TurnedOff => m.up.On? && Step(m, e).up.Off?
    case DropFault =>
      e == Do(Failed) && m.up.On? && m.up.session.pc == Arm(Dropping) && m.up.session.staged.Some?
    case ListUnread => e.Do? && e.o != Done && m.up.On? && m.up.session.pc == Arm(Consulting)
    case Armed(digest) =>
      e.Do? && e.o != Failed && m.up.On? && m.up.session.pc.Arm? && m.up.session.pc.arm.Writing? &&
      m.up.session.staged.Some? && m.up.session.staged.value.dep.digest == digest
  }

  function Count(m: Machine, es: seq<Event>, k: Mark): nat
    decreases |es|
  {
    if es == [] then 0
    else
      var prefix := es[..|es| - 1];
      Count(m, prefix, k) + if Is(k, Run(m, prefix), es[|es| - 1]) then 1 else 0
  }

  // ---- what is about to happen ---------------------------------------------

  /** The trial is being cleared as passed. */
  predicate Confirming(m: Machine) {
    m.up.On? && m.up.session.pc.Clear? && m.up.session.pc.clear.why.Confirmed?
  }

  /** The trial is being cleared as fallen back or rolled back. */
  predicate Condemning(m: Machine) {
    m.up.On? && m.up.session.pc.Clear? && (m.up.session.pc.clear.why.FellBackHome? || m.up.session.pc.clear.why.RolledBack?)
  }
}
