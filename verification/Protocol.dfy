/**
  The trial protocol as a transition system. One step is one effect of a
  bootguard command (a grubenv write, a swap of the boot order, an append to the
  rejected list, a rename of a boot entry, ...), one action of the boot loader, or
  one act of the environment (a power cut, a hang ended by a reset, a verdict of
  the health checks). `Pc` says which effect the running command performs next, so
  a power cut can fall between any two effects.
*/
module Protocol {
  import opened Options
  import opened Assessments

  // ---- persistent state ----------------------------------------------------

  /** `digest` is the image digest, `id` the ostree checksum or composefs id. */
  datatype Deployment = Deployment(digest: string, id: string)

  datatype Tries = Tries(left: nat, done: nat)

  /** A systemd-boot entry; `tries` is the counter in its file name. */
  datatype Entry = Entry(dep: Deployment, tries: Option<Tries>)

  datatype Disk =
    | Grub(counter: Option<int>, target: Option<string>, fallback: bool, order: seq<Deployment>)
    | SdBoot(entries: seq<Entry>, record: Option<Deployment>)

  datatype Config = Config(enabled: bool, preflight: bool, maxAttempts: nat)

  // ---- one power-on --------------------------------------------------------

  /** Why the failed deployment is being demoted, and by which command. */
  datatype Path =
    | FallBack(target: string)
    | RollBack(target: string, inCheck: bool)

  /** Why the trial state is being cleared, and by which command. */
  datatype Why =
    | StaleState
    | FellBackHome
    | RolledBack(inCheck: bool)
    | Abandoned(inCheck: bool)
    | Confirmed

  /** What `arm` found out about the staged image before it wrote the counter. */
  datatype Screen = Screen(listRead: bool, passed: bool)

  datatype ArmResult =
    | Disabled
    | NotReported           // `bootc status` listed nothing staged
    | Dropped               // the staged deployment was discarded
    | Guarded(screen: Screen)
    | ArmFailed             // the command returned an error

  /** Guarding a trial boot. */
  datatype GuardPc = Unassessed | Marking(again: bool) | StartingWatchdog

  /** Making the previous deployment the default and rejecting the failed one. */
  datatype DemotePc =
    | ReadingDefault(path: Path)
    | Swapping(path: Path)
    | Rechecking(target: string)
    | MarkingBad(path: Path)
    | Recording(path: Path)

  /** Clearing the trial; `retries` is how often a failed effect is tried again. */
  datatype ClearPc = Forgetting(why: Why, retries: nat) | Blessing(why: Why, retries: nat)

  datatype CheckPc =
    | Reading
    | Checking(counter: Option<int>)
    | Rereading(counter: Option<int>)
    | RequestingReboot
    | EndingWatchdog

  datatype ArmPc =
    | Inspecting
    | Consulting
    | Preflight(listRead: bool)
    | Unstaging(fatal: bool)
    | Refusing(digest: string)
    | Writing(screen: Screen)
    | Renaming(screen: Screen)
    | Discarding
    | Dropping
    | Exit(result: ArmResult)

  datatype Pc =
    | Starting          // the boot service has not run yet
    | Loading           // it is reading `bootc status` and the trial
    | Guard(guard: GuardPc)
    | Demote(demote: DemotePc)
    | Clear(clear: ClearPc)
    | Rebooting
    | Idle              // no command is running
    | Check(check: CheckPc)
    | Arm(arm: ArmPc)

  /** `selected` is the counted entry systemd-boot says it booted. */
  datatype Session = Session(
    booted: Deployment,
    selected: Option<Entry>,
    marker: bool,
    confirmed: bool,
    watchdog: bool,
    staged: Option<Entry>,
    pc: Pc)

  /** Off includes the time in firmware. */
  datatype Power = Off | On(session: Session)

  datatype Machine = Machine(cfg: Config, disk: Disk, rejected: set<string>, up: Power)

  /** How an effect ends: done; failed without a trace; done yet reported as failed (a
      grubenv write whose checkpoint of /boot failed); or reported as done although, on
      systemd-boot, the EFI variable or the entry that tells the counter of this boot, or
      the record, could not be read. Where nothing of that is read the last is as
      FailedLate. */
  datatype Outcome = Done | Failed | FailedLate | Unread(counter: bool, record: bool)

  datatype Event =
    | PowerOn(loads: bool, saved: bool)
    | Cut
    | WatchdogFires
    | StartBoot
    | StartCheck
    | StartArm
    | Stage(dep: Deployment)
    | Do(o: Outcome)
    | Verdict(good: bool)
    | Finalize

  // ---- reading the state ---------------------------------------------------

  /** The trial as `Backend::trial` reports it. */
  function TrialCounter(disk: Disk, s: Session): Option<int> {
    match disk
    case Grub(counter, _, _, _) => counter
    case SdBoot(_, _) =>
      if s.selected.Some? && s.selected.value.tries.Some?
      then Some(s.selected.value.tries.value.left) else None
  }

  function TrialTarget(disk: Disk, s: Session): Option<string> {
    match disk
    case Grub(_, target, _, _) => target
    case SdBoot(_, record) =>
      if record.Some? then Some(record.value.digest)
      else if s.selected.Some? then Some(s.booted.digest)
      else None
  }

  function Judge(disk: Disk, s: Session): Assessment {
    Assess(TrialCounter(disk, s), TrialTarget(disk, s), s.booted.digest)
  }

  /** Loading a trial does not fail for what it cannot read on systemd-boot. */
  predicate Loads(disk: Disk, o: Outcome) {
    o == Done || (disk.SdBoot? && o.Unread?)
  }

  /** What a load takes for the disk, and for the boot. */
  function SeenDisk(disk: Disk, o: Outcome): Disk {
    if disk.SdBoot? && o.Unread? && o.record then disk.(record := None) else disk
  }

  function SeenSession(disk: Disk, s: Session, o: Outcome): Session {
    if disk.SdBoot? && o.Unread? && o.counter then s.(selected := None) else s
  }

  /** The judgement of a load that ends so. */
  function JudgeSeen(disk: Disk, s: Session, o: Outcome): Assessment {
    Judge(SeenDisk(disk, o), SeenSession(disk, s, o))
  }

  /** `trial_armed_without_bootc`: the boot loader's own view. */
  predicate Armed(disk: Disk, s: Session) {
    match disk
    case Grub(counter, _, _, _) => counter.Some?
    case SdBoot(entries, _) => s.selected.Some? && s.selected.value in entries
  }

  predicate HasRollback(disk: Disk) {
    match disk
    case Grub(_, _, _, order) => |order| > 1
    case SdBoot(entries, _) => |entries| > 1
  }

  predicate BootedIsDefault(disk: Disk, s: Session) {
    disk.Grub? && |disk.order| > 0 && disk.order[0] == s.booted
  }

  // ---- effects on the disk -------------------------------------------------

  function Swapped(order: seq<Deployment>): seq<Deployment>
    requires |order| > 1
  {
    [order[1], order[0]] + order[2..]
  }

  function Forget(disk: Disk): Disk {
    match disk
    case Grub(_, _, _, order) => Grub(None, None, false, order)
    case SdBoot(entries, _) => SdBoot(entries, None)
  }

  function FindEntry(entries: seq<Entry>, id: string): (r: Option<nat>)
    ensures r.Some? ==> r.value < |entries| && entries[r.value].dep.id == id
    ensures r.None? ==> forall i :: 0 <= i < |entries| ==> entries[i].dep.id != id
  {
    if entries == [] then None
    else if entries[0].dep.id == id then Some(0)
    else
      var r := FindEntry(entries[1..], id);
      if r.Some? then Some(r.value + 1) else None
  }

  /** `mark_bad`: no tries left, the tries already made kept. */
  function Demoted(e: Entry): Entry {
    if e.tries.Some? && e.tries.value.left == 0 then e
    else e.(tries := Some(Tries(0, if e.tries.Some? then e.tries.value.done else 0)))
  }

  function MarkBad(entries: seq<Entry>, id: string): seq<Entry> {
    var i := FindEntry(entries, id);
    if i.Some? then entries[i.value := Demoted(entries[i.value])] else entries
  }

  /** Strip the counter from entry `e`. */
  function Strip(entries: seq<Entry>, e: Entry): seq<Entry> {
    if entries == [] then []
    else [if entries[0] == e then e.(tries := None) else entries[0]] + Strip(entries[1..], e)
  }

  /** `bless`: strip the counter of the entry we booted, if it still has it. */
  function Bless(disk: Disk, selected: Option<Entry>): Disk {
    if disk.SdBoot? && selected.Some?
    then disk.(entries := Strip(disk.entries, selected.value)) else disk
  }

  lemma {:induction false} StripTwice(entries: seq<Entry>, e: Entry)
    ensures Strip(Strip(entries, e), e) == Strip(entries, e)
  {
    if entries != [] {
      var s := Strip(entries, e);
      assert s[1..] == Strip(entries[1..], e);
      StripTwice(entries[1..], e);
    }
  }

  /** A digest that can be stored in grubenv or a state file. */
  predicate IsSafeId(s: string) {
    s != "" && forall c :: c in s ==>
      'a' <= c <= 'z' || 'A' <= c <= 'Z' || '0' <= c <= '9' || c in ":._-"
  }

  // ---- the boot loader -----------------------------------------------------

  function Fresh(booted: Deployment, selected: Option<Entry>): Session {
    Session(booted, selected, false, false, false, None, Starting)
  }

  predicate Spent(counter: Option<int>) {
    counter == Some(0) || counter == Some(-1)
  }

  /** The counter after grub-custom.cfg has run. */
  function Counted(counter: Option<int>): Option<int> {
    if counter.None? then None
    else if Spent(counter) then Some(-1)
    else Some(counter.value - 1)
  }

  /** Does systemd-boot sort this entry last? */
  predicate Bad(e: Entry) {
    e.tries.Some? && e.tries.value.left == 0
  }

  function FirstGood(entries: seq<Entry>): (i: nat)
    ensures i <= |entries|
    ensures i < |entries| ==> !Bad(entries[i])
    ensures forall j :: 0 <= j < i ==> Bad(entries[j])
  {
    if entries == [] || !Bad(entries[0]) then 0 else 1 + FirstGood(entries[1..])
  }

  /** The entry systemd-boot starts: the first good one, or else the first. */
  function Choice(entries: seq<Entry>): (i: nat)
    requires entries != []
    ensures i < |entries|
  {
    var g := FirstGood(entries);
    if g < |entries| then g else 0
  }

  function Chosen(entries: seq<Entry>): Entry
    requires entries != []
  {
    entries[Choice(entries)]
  }

  function Bumped(e: Entry): Entry {
    if e.tries.None? then e
    else
      var t := e.tries.value;
      e.(tries := Some(Tries(if t.left > 0 then t.left - 1 else 0, t.done + 1)))
  }

  function GrubBoot(m: Machine, loads: bool, saved: bool): Machine
    requires m.disk.Grub?
  {
    var d := m.disk;
    var after := m.(disk := if saved then d.(counter := Counted(d.counter)) else d);
    var first := if Spent(d.counter) && |d.order| > 1 then 1 else 0;
    if d.order == [] then m
    else if loads then after.(up := On(Fresh(d.order[first], None)))
    else if d.fallback && first == 0 && |d.order| > 1 then after.(up := On(Fresh(d.order[1], None)))
    else after
  }

  function SdBootBoot(m: Machine, loads: bool): Machine
    requires m.disk.SdBoot?
  {
    var es := m.disk.entries;
    if es == [] then m
    else
      var i := Choice(es);
      var e := Bumped(es[i]);
      var after := m.(disk := m.disk.(entries := es[i := e]));
      if loads then after.(up := On(Fresh(e.dep, if e.tries.Some? then Some(e) else None)))
      else after
  }

  // ---- the commands, one effect at a time ----------------------------------

  function At(m: Machine, pc: Pc): Machine
    requires m.up.On?
  {
    m.(up := On(m.up.session.(pc := pc)))
  }

  /** Where a command goes when it returns an error: `cmd_boot` looks at the boot
      loader's view next, `cmd_check` just returns. */
  function AfterError(inCheck: bool): Pc {
    if inCheck then Idle else Guard(Unassessed)
  }

  function InCheck(path: Path): bool {
    path.RollBack? && path.inCheck
  }

  function WhyOf(path: Path): Why {
    match path
    case FallBack(_) => FellBackHome
    case RollBack(_, inCheck) => RolledBack(inCheck)
  }

  /** `finish_rollback`, up to its first effect. */
  function RollBackPc(disk: Disk, target: string, inCheck: bool): Pc {
    if !HasRollback(disk) then Clear(Forgetting(Abandoned(inCheck), 0))
    else if disk.Grub? then Demote(ReadingDefault(RollBack(target, inCheck)))
    else Demote(MarkingBad(RollBack(target, inCheck)))
  }

  /** `cmd_assess`, up to its first effect. */
  function AssessedPc(disk: Disk, s: Session): Pc {
    match Judge(disk, s)
    case Quiet => Idle
    case Stale => Clear(Forgetting(StaleState, 0))
    case TrialInProgress => Guard(Marking(false))
    case FellBack(target) =>
      if disk.Grub? then Demote(ReadingDefault(FallBack(target))) else Demote(MarkingBad(FallBack(target)))
    case Exhausted(target) => RollBackPc(disk, target, false)
  }

  /** Where a load that ends so leads to. */
  function LoadedPc(disk: Disk, s: Session, o: Outcome): Pc {
    if Loads(disk, o) then AssessedPc(SeenDisk(disk, o), SeenSession(disk, s, o)) else Guard(Unassessed)
  }

  function GuardEffect(m: Machine, pc: GuardPc, o: Outcome): Machine
    requires m.up.On?
  {
    var s := m.up.session;
    match pc
    case Unassessed =>
      At(m, if o == Done && Armed(m.disk, s) then Guard(Marking(true)) else Idle)
    case Marking(again) =>
      At(m.(up := On(s.(marker := s.marker || o != Failed))),
         if o == Done then Guard(StartingWatchdog) else if again then Idle else Guard(Unassessed))
    case StartingWatchdog =>
      At(m.(up := On(s.(watchdog := s.watchdog || o == Done))), if o == Done then Idle else Rebooting)
  }

  function DemoteEffect(m: Machine, pc: DemotePc, o: Outcome): Machine
    requires m.up.On?
  {
    var s := m.up.session;
    match pc
    case ReadingDefault(path) =>
      At(m, if o != Done then AfterError(InCheck(path))
            else if BootedIsDefault(m.disk, s) == path.FallBack? then Demote(Recording(path))
            else Demote(Swapping(path)))
    case Swapping(path) =>
      if !m.disk.Grub? || |m.disk.order| < 2 then At(m, AfterError(InCheck(path)))
      else
        At(if o != Failed then m.(disk := m.disk.(order := Swapped(m.disk.order))) else m,
           if o != Done then AfterError(InCheck(path))
           else if path.FallBack? then Demote(Rechecking(path.target))
           else Demote(Recording(path)))
    case Rechecking(target) =>
      At(m, if o == Done && BootedIsDefault(m.disk, s) then Demote(Recording(FallBack(target)))
            else Guard(Unassessed))
    case MarkingBad(path) =>
      if !m.disk.SdBoot? then At(m, AfterError(InCheck(path)))
      else if path.FallBack? && SeenDisk(m.disk, o).record.None? then At(m, Demote(Recording(path)))
      else
        var id := if path.FallBack? then m.disk.record.value.id else s.booted.id;
        var missing := path.RollBack? && FindEntry(m.disk.entries, id).None?;
        At(if o != Failed then m.(disk := m.disk.(entries := MarkBad(m.disk.entries, id))) else m,
           if o != Done || missing then AfterError(InCheck(path)) else Demote(Recording(path)))
    case Recording(path) =>
      // A lost record is only warned about.
      At(if o != Failed then m.(rejected := m.rejected + {path.target}) else m,
         Clear(Forgetting(WhyOf(path), 2)))
  }

  function WhenCleared(why: Why): Pc {
    match why
    case StaleState => Idle
    case FellBackHome => Idle
    case RolledBack(_) => Rebooting
    case Abandoned(_) => Idle
    case Confirmed => Check(EndingWatchdog)
  }

  function WhenNotCleared(why: Why): Pc {
    match why
    case StaleState => Guard(Unassessed)
    case FellBackHome => Guard(Unassessed)
    case RolledBack(inCheck) => AfterError(inCheck)
    case Abandoned(inCheck) => AfterError(inCheck)
    case Confirmed => Idle
  }

  /** `forget` clears the trial; `confirm` also strips systemd-boot's counter. */
  predicate AlsoBless(why: Why) {
    why.StaleState? || why.Abandoned? || why.Confirmed?
  }

  /** A blessing that cannot see the booted entry does nothing and reports success. */
  predicate UnseenBlessing(pc: ClearPc, o: Outcome) {
    pc.Blessing? && o.Unread? && o.counter
  }

  function ClearEffect(m: Machine, pc: ClearPc, o: Outcome): Machine
    requires m.up.On?
  {
    var disk' :=
      if o == Failed || UnseenBlessing(pc, o) then m.disk
      else if pc.Forgetting? then Forget(m.disk)
      else Bless(m.disk, m.up.session.selected);
    At(m.(disk := disk'),
       if o == Done && pc.Forgetting? && m.disk.SdBoot? && AlsoBless(pc.why) then Clear(Blessing(pc.why, pc.retries))
       else if o == Done || UnseenBlessing(pc, o) then WhenCleared(pc.why)
       else if pc.retries > 0 then Clear(Forgetting(pc.why, pc.retries - 1))
       else WhenNotCleared(pc.why))
  }

  function CheckEffect(m: Machine, pc: CheckPc, o: Outcome): Machine
    requires m.up.On?
  {
    var s := m.up.session;
    match pc
    case Reading =>
      At(m, if Loads(m.disk, o) && JudgeSeen(m.disk, s, o).TrialInProgress?
            then Check(Checking(TrialCounter(m.disk, s))) else Idle)
    case Checking(_) => m
    case Rereading(counter) =>
      At(m, if !Loads(m.disk, o) || !JudgeSeen(m.disk, s, o).TrialInProgress? then Idle
            else if AttemptsRemain(counter) then Check(RequestingReboot)
            else RollBackPc(m.disk, s.booted.digest, true))
    case RequestingReboot => At(m, if o == Done then Rebooting else Idle)
    case EndingWatchdog => At(m.(up := On(s.(confirmed := s.confirmed || o == Done))), Idle)
  }

  function ArmEffect(m: Machine, pc: ArmPc, o: Outcome): Machine
    requires m.up.On?
  {
    var s := m.up.session;
    match pc
    case Inspecting =>
      At(m, if !m.cfg.enabled then Arm(Exit(Disabled))
            else if o == Failed then Arm(Dropping)
            else if s.staged.None? || o == FailedLate then Arm(Exit(NotReported))
            else Arm(Consulting))
    case Consulting =>
      // An unreadable rejected list counts as an empty one.
      At(m, if s.staged.None? then Arm(Exit(NotReported))
            else if o == Done && s.staged.value.dep.digest in m.rejected then Arm(Unstaging(false))
            else if m.cfg.preflight then Arm(Preflight(o == Done))
            else Arm(Writing(Screen(o == Done, false))))
    case Preflight(_) => if o != Done then At(m, Arm(Dropping)) else m
    case Unstaging(fatal) =>
      At(if o != Failed then m.(up := On(s.(staged := None))) else m,
         if o != Done then Arm(Dropping)
         else if fatal && s.staged.Some? then Arm(Refusing(s.staged.value.dep.digest))
         else Arm(Exit(Dropped)))
    case Refusing(digest) =>
      At(if o != Failed then m.(rejected := m.rejected + {digest}) else m, Arm(Exit(Dropped)))
    case Writing(screen) =>
      if s.staged.None? || !IsSafeId(s.staged.value.dep.digest) then At(m, Arm(Discarding))
      else
        At(if o != Failed then m.(disk := ArmedDisk(m.disk, s.staged.value.dep, m.cfg.maxAttempts)) else m,
           if o != Done then Arm(Discarding)
           else if m.disk.Grub? then Arm(Exit(Guarded(screen)))
           else Arm(Renaming(screen)))
    case Renaming(screen) =>
      if s.staged.None? then At(m, Arm(Discarding))
      else
        var e := s.staged.value.(tries := Some(Tries(m.cfg.maxAttempts, 0)));
        At(if o != Failed then m.(up := On(s.(staged := Some(e)))) else m,
           if o == Done then Arm(Exit(Guarded(screen))) else Arm(Discarding))
    case Discarding =>
      At(if o != Failed then m.(disk := Forget(m.disk)) else m, Arm(Dropping))
    case Dropping =>
      At(if o != Failed then m.(up := On(s.(staged := None))) else m,
         Arm(Exit(if o == Done then Dropped else ArmFailed)))
    case Exit(_) => m
  }

  /** The disk once the trial of `dep` is written; systemd-boot's counter comes after. */
  function ArmedDisk(disk: Disk, dep: Deployment, attempts: nat): Disk {
    if disk.Grub? then Grub(Some(attempts), Some(dep.digest), true, disk.order)
    else disk.(record := Some(dep))
  }

  function Effect(m: Machine, o: Outcome): Machine
    requires m.up.On?
  {
    match m.up.session.pc
    case Starting => m
    case Loading => At(m, LoadedPc(m.disk, m.up.session, o))
    case Guard(pc) => GuardEffect(m, pc, o)
    case Demote(pc) => DemoteEffect(m, pc, o)
    case Clear(pc) => ClearEffect(m, pc, o)
    case Rebooting => m.(up := Off)
    case Idle => m
    case Check(pc) => CheckEffect(m, pc, o)
    case Arm(pc) => ArmEffect(m, pc, o)
  }

  /** The verdict of the health checks, or of preflight. */
  function Judged(m: Machine, good: bool): Machine
    requires m.up.On?
  {
    match m.up.session.pc
    case Check(Checking(counter)) =>
      At(m, if good then Clear(Forgetting(Confirmed, 2)) else Check(Rereading(counter)))
    case Arm(Preflight(listRead)) =>
      At(m, if good then Arm(Writing(Screen(listRead, true))) else Arm(Unstaging(true)))
    case _ => m
  }

  /** The finalizer of ostree or bootc installs what is still staged. */
  function Finalized(m: Machine): Machine
    requires m.up.On?
  {
    var s := m.up.session;
    if !(s.pc.Arm? && s.pc.arm.Exit?) then m
    else if s.staged.None? then m.(up := Off)
    else
      var disk' := match m.disk
        case Grub(_, _, _, _) => m.disk.(order := [s.staged.value.dep, s.booted])
        case SdBoot(entries, _) =>
          var i := FindEntry(entries, s.booted.id);
          m.disk.(entries := [s.staged.value] + (if i.Some? then [entries[i.value]] else []));
      m.(disk := disk', up := Off)
  }

  function Step(m: Machine, e: Event): Machine {
    if m.up.Off? then
      if e.PowerOn? then
        if m.disk.Grub? then GrubBoot(m, e.loads, e.saved) else SdBootBoot(m, e.loads)
      else m
    else
      var s := m.up.session;
      match e
      case PowerOn(_, _) => m
      case Cut => m.(up := Off)
      case WatchdogFires => if s.watchdog && !s.confirmed then m.(up := Off) else m
      case StartBoot => if s.pc.Starting? || s.pc.Idle? then At(m, Loading) else m
      case StartCheck => if s.pc.Idle? then At(m, Check(Reading)) else m
      case StartArm => if s.pc.Idle? then At(m, Arm(Inspecting)) else m
      case Stage(dep) => if s.pc.Idle? then m.(up := On(s.(staged := Some(Entry(dep, None))))) else m
      case Do(o) => Effect(m, o)
      case Verdict(good) => Judged(m, good)
      case Finalize => Finalized(m)
  }

  function Run(m: Machine, es: seq<Event>): Machine
    decreases |es|
  {
    if es == [] then m else Step(Run(m, es[..|es| - 1]), es[|es| - 1])
  }

  lemma {:induction false} RunSplit(m: Machine, a: seq<Event>, b: seq<Event>)
    ensures Run(m, a + b) == Run(Run(m, a), b)
    decreases |b|
  {
    if b == [] {
      assert a + b == a;
    } else {
      var n := |b| - 1;
      assert (a + b)[..|a + b| - 1] == a + b[..n];
      RunSplit(m, a, b[..n]);
    }
  }

  lemma RunCons(m: Machine, e: Event, es: seq<Event>)
    ensures Run(m, [e] + es) == Run(Step(m, e), es)
  {
    RunSplit(m, [e], es);
    assert [e][..0] == [];
    assert Run(m, [e]) == Step(Run(m, []), e);
  }

  lemma RunThen(m: Machine, es: seq<Event>, e: Event)
    ensures Run(m, es + [e]) == Step(Run(m, es), e)
  {
    assert (es + [e])[..|es + [e]| - 1] == es;
  }

  /** `k` effects in a row, none failing. */
  function AllDone(m: Machine, k: nat): Machine
    decreases k
  {
    if k == 0 then m else AllDone(Step(m, Do(Done)), k - 1)
  }

  lemma {:induction false} RunAllDone(m: Machine, es: seq<Event>)
    requires forall i :: 0 <= i < |es| ==> es[i] == Do(Done)
    ensures Run(m, es) == AllDone(m, |es|)
    decreases |es|
  {
    if es != [] {
      assert es == [es[0]] + es[1..];
      RunCons(m, es[0], es[1..]);
      RunAllDone(Step(m, es[0]), es[1..]);
    }
  }

  /** `arm` writes no second trial and the finalizer installs no update; `arm` may run, and
      refuse or drop what is staged. */
  predicate TrialEvent(m: Machine, e: Event) {
    m.up.On? && m.up.session.pc.Arm? ==>
      (e.Do? ==> !m.up.session.pc.arm.Writing?) && (e.Finalize? ==> m.up.session.staged.None?)
  }

  predicate TrialEvents(m: Machine, es: seq<Event>)
    decreases |es|
  {
    es == [] ||
    (TrialEvents(m, es[..|es| - 1]) && TrialEvent(Run(m, es[..|es| - 1]), es[|es| - 1]))
  }

  lemma {:induction false} TrialEventsSplit(m: Machine, a: seq<Event>, b: seq<Event>)
    ensures TrialEvents(m, a + b) <==> TrialEvents(m, a) && TrialEvents(Run(m, a), b)
    decreases |b|
  {
    if b == [] {
      assert a + b == a;
    } else {
      var n := |b| - 1;
      assert (a + b)[..|a + b| - 1] == a + b[..n] && (a + b)[|a + b| - 1] == b[n];
      TrialEventsSplit(m, a, b[..n]);
      RunSplit(m, a, b[..n]);
    }
  }

  lemma TrialEventsCons(m: Machine, e: Event, es: seq<Event>)
    ensures TrialEvents(m, [e] + es) <==> TrialEvent(m, e) && TrialEvents(Step(m, e), es)
  {
    TrialEventsSplit(m, [e], es);
    assert [e][..0] == [];
    assert Run(m, [e]) == Step(Run(m, []), e);
  }

  /** Where `arm` can be in a trial. */
  predicate ArmsNothing(pc: ArmPc) {
    !pc.Renaming? && !pc.Discarding? && (pc.Exit? ==> !pc.result.Guarded?)
  }

  lemma {:induction false} ArmingNothing(m: Machine, pc: ArmPc, o: Outcome)
    requires m.up.On? && m.up.session.pc == Arm(pc) && ArmsNothing(pc) && !pc.Writing?
    ensures var m' := ArmEffect(m, pc, o);
      && m'.disk == m.disk && m'.cfg == m.cfg && m.rejected <= m'.rejected && m'.up.On?
      && m'.up.session.pc.Arm? && ArmsNothing(m'.up.session.pc.arm)
      && m'.up.session == m.up.session.(staged := m'.up.session.staged, pc := m'.up.session.pc)
  {
  }
}
