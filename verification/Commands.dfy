/**
  The commands of bootguard/src/main.rs as they run: effects on the machine's state, in
  program order, each of which may fail. Every method is proved to take only steps of
  the protocol: `Valid` says that the state is what the protocol's run over `log` gives,
  and each effect demands the program point at which the protocol performs it. So all
  that is proved about runs holds of these commands; a power cut between two effects
  is a prefix of `log`.
*/
module Commands {
  import opened Options
  import opened Assessments
  import opened Protocol
  import History

  /** `ms` are the states of the run over `es`. */
  ghost predicate IsRun(es: seq<Event>, ms: seq<Machine>) {
    |ms| == |es| + 1 && forall i {:trigger es[i]} :: 0 <= i < |es| ==> ms[i + 1] == Step(ms[i], es[i])
  }

  lemma {:induction false} TraceIsRun(es: seq<Event>, ms: seq<Machine>, k: nat)
    requires IsRun(es, ms) && k <= |es|
    ensures Run(ms[k], es[k..]) == ms[|es|]
    decreases |es| - k
  {
    if k < |es| {
      TraceIsRun(es, ms, k + 1);
      RunCons(ms[k], es[k], es[k + 1..]);
      assert es[k..] == [es[k]] + es[k + 1..];
    }
  }

  /** What a command does next: it asks for a verdict, or performs an effect. */
  function NextEvent(m: Machine, o: Outcome, says: bool): Event {
    if m.up.On? && ((m.up.session.pc.Check? && m.up.session.pc.check.Checking?) ||
                    (m.up.session.pc.Arm? && m.up.session.pc.arm.Preflight? && o == Done))
    then Verdict(says) else Do(o)
  }

  /** What a command has come to after `k` steps, whose effects end as `world` says from `i` on. */
  function Perform(m: Machine, world: nat -> Outcome, i: nat, says: bool, k: nat): Machine
    decreases k
  {
    if k == 0 then m else Perform(Step(m, NextEvent(m, world(i), says)), world, i + 1, says, k - 1)
  }

  /** No command is running. */
  predicate Resting(m: Machine) {
    m.up.Off? || m.up.session.pc.Idle? || (m.up.session.pc.Arm? && m.up.session.pc.arm.Exit?)
  }

  lemma {:induction false} RestPerforms(m: Machine, world: nat -> Outcome, i: nat, says: bool, k: nat)
    requires Resting(m)
    ensures Perform(m, world, i, says, k) == m
    decreases k
  {
    if k > 0 {
      RestPerforms(m, world, i + 1, says, k - 1);
    }
  }

  /** A command leaves nothing open: it has one end, given how its effects end. */
  lemma {:induction false} PerformanceIsUnique(m: Machine, world: nat -> Outcome, i: nat, says: bool, j: nat, k: nat)
    requires Resting(Perform(m, world, i, says, j)) && Resting(Perform(m, world, i, says, k))
    ensures Perform(m, world, i, says, j) == Perform(m, world, i, says, k)
    decreases j
  {
    if j == 0 {
      RestPerforms(m, world, i, says, k);
    } else if k == 0 {
      RestPerforms(m, world, i, says, j);
    } else {
      PerformanceIsUnique(Step(m, NextEvent(m, world(i), says)), world, i + 1, says, j - 1, k - 1);
    }
  }

  /** The events of a run, and the states it went through. */
  datatype Journal = Journal(log: seq<Event>, states: seq<Machine>)

  /** The running command: the event that started it, how many came before, the state it
      found, and what the checks say, or preflight. */
  datatype Call = NoCall | Call(event: Event, past: nat, from: Machine, says: bool)

  /** The journal is a run of `k` steps to `m`; since it was called the command has done
      nothing but what comes next, and every effect ended as `world` says. */
  ghost predicate Keeps(j: Journal, call: Call, world: nat -> Outcome, m: Machine, k: nat) {
    && |j.log| == k && IsRun(j.log, j.states) && j.states[k] == m
    && (call.Call? ==>
          && call.past < k && j.log[call.past] == call.event && j.states[call.past] == call.from
          && forall i :: call.past < i < k ==> j.log[i] == NextEvent(j.states[i], world(i), call.says))
  }

  function Extended(j: Journal, e: Event, m: Machine): Journal {
    Journal(j.log + [e], j.states + [m])
  }

  lemma ExtendedIsRun(j: Journal, e: Event)
    requires IsRun(j.log, j.states)
    ensures var m := Step(j.states[|j.log|], e); IsRun(Extended(j, e, m).log, Extended(j, e, m).states)
  {
    var j' := Extended(j, e, Step(j.states[|j.log|], e));
    forall i {:trigger j'.log[i]} | 0 <= i < |j'.log| ensures j'.states[i + 1] == Step(j'.states[i], j'.log[i]) {
      if i < |j.log| {
        assert j'.log[i] == j.log[i] && j'.states[i] == j.states[i] && j'.states[i + 1] == j.states[i + 1];
      }
    }
  }

  lemma KeepsOn(j: Journal, call: Call, world: nat -> Outcome, m: Machine, k: nat, e: Event)
    requires Keeps(j, call, world, m, k) && call.Call? && e == NextEvent(m, world(k), call.says)
    ensures Keeps(Extended(j, e, Step(m, e)), call, world, Step(m, e), k + 1)
  {
    hide Step, NextEvent, IsRun;
    ExtendedIsRun(j, e);
    var j' := Extended(j, e, Step(m, e));
    RunHasStates(j);
    assert j'.states[k] == m && j'.states[call.past] == j.states[call.past];
    forall i | call.past < i < k + 1 ensures j'.log[i] == NextEvent(j'.states[i], world(i), call.says) {
      assert j'.states[i] == j.states[i];
      if i < k { assert j'.log[i] == j.log[i]; }
    }
  }

  lemma RunHasStates(j: Journal)
    requires IsRun(j.log, j.states)
    ensures |j.states| == |j.log| + 1
  {
  }

  lemma KeepsCall(j: Journal, call: Call, world: nat -> Outcome, m: Machine, k: nat, e: Event, says: bool)
    requires Keeps(j, call, world, m, k)
    ensures Keeps(Extended(j, e, Step(m, e)), Call(e, k, m, says), world, Step(m, e), k + 1)
  {
    hide Step, NextEvent, IsRun;
    ExtendedIsRun(j, e);
  }

  lemma {:induction false} JournalIsPerformed(
      j: Journal, call: Call, world: nat -> Outcome, m: Machine, k: nat, i: nat)
    requires Keeps(j, call, world, m, k) && call.Call? && call.past < i <= k
    ensures Perform(j.states[i], world, i, call.says, k - i) == m
    decreases k - i
  {
    hide Keeps, IsRun, Step, NextEvent, Perform;
    LastKept(j, call, world, m, k);
    if i < k {
      JournalIsPerformed(j, call, world, m, k, i + 1);
      KeptStep(j, call, world, m, k, i);
    }
    PerformOnce(j.states[i], world, i, call.says, k - i);
  }

  lemma KeptStep(j: Journal, call: Call, world: nat -> Outcome, m: Machine, k: nat, i: nat)
    requires Keeps(j, call, world, m, k) && call.Call? && call.past < i < k && |j.states| == k + 1
    ensures j.states[i + 1] == Step(j.states[i], NextEvent(j.states[i], world(i), call.says))
  {
    hide Step, NextEvent;
    assert j.states[i + 1] == Step(j.states[i], j.log[i]);
  }

  lemma PerformOnce(m: Machine, world: nat -> Outcome, i: nat, says: bool, k: nat)
    ensures Perform(m, world, i, says, k) ==
      if k == 0 then m else Perform(Step(m, NextEvent(m, world(i), says)), world, i + 1, says, k - 1)
  {
    hide Step, NextEvent;
  }

  /** So a command comes to what it is to perform. */
  lemma CallIsPerformed(j: Journal, call: Call, world: nat -> Outcome, m: Machine, k: nat)
    requires Keeps(j, call, world, m, k) && call.Call?
    ensures call.past < k
    ensures Perform(Step(call.from, call.event), world, call.past + 1, call.says, k - call.past - 1) == m
  {
    hide Step, NextEvent, Perform;
    JournalIsPerformed(j, call, world, m, k, call.past + 1);
    assert j.states[call.past + 1] == Step(j.states[call.past], j.log[call.past]);
  }

  /** The effect that comes next is a step. */
  lemma EffectIsNext(m: Machine, o: Outcome, says: bool)
    requires m.up.On? && !(m.up.session.pc.Check? && m.up.session.pc.check.Checking?)
    requires m.up.session.pc.Arm? && m.up.session.pc.arm.Preflight? ==> o != Done
    ensures NextEvent(m, o, says) == Do(o) && Step(m, Do(o)) == Effect(m, o)
  {
    hide Effect;
  }

  lemma EffectStaysOn(m: Machine, o: Outcome)
    requires m.up.On? && !m.up.session.pc.Rebooting?
    ensures Effect(m, o).up.On?
  {
    match m.up.session.pc
    case Guard(pc) =>
    case Demote(pc) =>
    case Clear(pc) =>
    case Check(pc) =>
    case Arm(pc) =>
    case _ =>
  }

  lemma StartSteps(m: Machine)
    requires m.up.On? && (m.up.session.pc.Starting? || m.up.session.pc.Idle?)
    ensures Step(m, StartBoot) == Protocol.At(m, Loading)
    ensures m.up.session.pc.Idle? ==> Step(m, StartCheck) == Protocol.At(m, Check(Reading))
    ensures m.up.session.pc.Idle? ==> Step(m, StartArm) == Protocol.At(m, Arm(Inspecting))
  {
  }

  lemma VerdictSteps(m: Machine, says: bool)
    requires m.up.On?
    ensures Step(m, Verdict(says)) == Judged(m, says)
  {
  }

  lemma LastKept(j: Journal, call: Call, world: nat -> Outcome, m: Machine, k: nat)
    requires Keeps(j, call, world, m, k)
    ensures |j.log| == k && |j.states| == k + 1 && j.states[k] == m
  {
  }

  datatype TrialView = TrialView(counter: Option<int>, target: Option<string>, rollback: bool)

  class Host {
    const cfg: Config
    var disk: Disk
    var rejected: set<string>
    const booted: Deployment
    const selected: Option<Entry>
    var marker: bool
    var confirmed: bool
    var watchdog: bool
    var staged: Option<Entry>

    /** How every effect ends: the `i`-th step, if it is one, ends as `world(i)`. */
    const world: nat -> Outcome
    var turn: nat

    ghost var journal: Journal
    ghost var call: Call
    ghost var pc: Pc
    ghost var off: bool

    ghost function Now(): Machine
      reads this
    {
      Machine(cfg, disk, rejected,
        if off then Off else On(Session(booted, selected, marker, confirmed, watchdog, staged, pc)))
    }

    /** The run has come to `m`, one step for every turn. */
    ghost predicate Logged(m: Machine)
      reads `journal, `call, `turn
    {
      Keeps(journal, call, world, m, turn)
    }

    ghost predicate Valid()
      reads this
    {
      Logged(Now())
    }

    ghost predicate At(at: Pc)
      reads this
    {
      Valid() && !off && pc == at && (call.Call? || at.Starting?)
    }

    /** The run has come to `m`, and of the turn just taken the outcome is `o`. */
    ghost predicate Performing(m: Machine, o: Outcome)
      reads `journal, `call, `turn
    {
      turn > 0 && Keeps(journal, call, world, m, turn - 1) && call.Call? && o == world(turn - 1)
    }

    /** `e` was started in the state `before`, and what came of it is the protocol's. */
    ghost predicate Performed(before: Machine, e: Event, says: bool)
      reads this
    {
      exists k: nat :: Performance(Step(before, e), says, k) == Now()
    }

    ghost function Performance(m: Machine, says: bool, k: nat): Machine
      reads `call
    {
      Perform(m, world, if call.Call? then call.past + 1 else 0, says, k)
    }

    /** The last effect was the boot service's last resort to guard a trial, and failed. */
    ghost predicate LastResortFailed()
      reads `journal
    {
      && |journal.log| > 0 && |journal.states| == |journal.log| + 1
      && History.Is(History.GuardFault, journal.states[|journal.log| - 1], journal.log[|journal.log| - 1])
    }

    /** A machine the boot loader has just started. */
    constructor (m: Machine, world: nat -> Outcome)
      requires m.up.On? && m.up.session.pc == Starting
      ensures At(Starting) && Now() == m && journal == Journal([], [m]) && this.world == world
    {
      cfg, disk, rejected := m.cfg, m.disk, m.rejected;
      booted, selected := m.up.session.booted, m.up.session.selected;
      marker, confirmed, watchdog := m.up.session.marker, m.up.session.confirmed, m.up.session.watchdog;
      staged := m.up.session.staged;
      this.world, turn := world, 0;
      journal, call, pc, off := Journal([], [m]), NoCall, m.up.session.pc, false;
    }

    /** How the next effect ends. */
    method Next() returns (o: Outcome)
      modifies `turn
      ensures o == world(old(turn)) && turn == old(turn) + 1
    {
      o := world(turn);
      turn := turn + 1;
    }

    /** Record the step from `m` to `next`. */
    ghost method Advance(e: Event, m: Machine, next: Machine)
      requires turn > 0 && Keeps(journal, call, world, m, turn - 1) && call.Call?
      requires e == NextEvent(m, world(turn - 1), call.says) && next == Step(m, e)
      modifies `journal, `pc, `off
      ensures Logged(next) && journal == Extended(old(journal), e, next)
      ensures off == next.up.Off? && (!off ==> pc == next.up.session.pc)
    {
      hide Keeps, Step, NextEvent;
      KeepsOn(journal, call, world, m, turn - 1, e);
      journal := Extended(journal, e, next);
      off := next.up.Off?;
      if !off { pc := next.up.session.pc; }
    }

    /** The command `e` begins. */
    method Start(ghost e: Event, ghost says: bool, ghost at: Pc)
      requires Valid() && !off && Step(Now(), e) == Protocol.At(Now(), at)
      modifies `journal, `pc, `turn, `call
      ensures At(at) && turn == old(turn) + 1 && call == Call(e, old(turn), old(Now()), says)
    {
      hide Keeps, Step;
      KeepsCall(journal, call, world, Now(), turn, e, says);
      journal, call := Extended(journal, e, Step(Now(), e)), Call(e, turn, Now(), says);
      turn, pc := turn + 1, at;
    }

    /** So a command has performed what the protocol says. */
    lemma Performs()
      requires Valid() && call.Call?
      ensures Performed(call.from, call.event, call.says)
    {
      hide Keeps, Step, Perform;
      CallIsPerformed(journal, call, world, Now(), turn);
      assert Performance(Step(call.from, call.event), call.says, turn - call.past - 1) == Now();
    }

    ghost method DoGuard(g: GuardPc, o: Outcome, m: Machine)
      requires Performing(m, o) && m.up.On? && m.up.session.pc == Guard(g)
      modifies `journal, `pc, `off
      ensures Logged(GuardEffect(m, g, o)) && !off && pc == GuardEffect(m, g, o).up.session.pc
      ensures History.Is(History.GuardFault, m, Do(o)) ==> LastResortFailed()
    {
      hide Keeps, Step, NextEvent, GuardEffect;
      EffectIsNext(m, o, call.says);
      EffectStaysOn(m, o);
      LastKept(journal, call, world, m, turn - 1);
      Advance(Do(o), m, GuardEffect(m, g, o));
    }

    ghost method DoDemote(d: DemotePc, o: Outcome, m: Machine)
      requires Performing(m, o) && m.up.On? && m.up.session.pc == Demote(d)
      modifies `journal, `pc, `off
      ensures Logged(DemoteEffect(m, d, o)) && !off && pc == DemoteEffect(m, d, o).up.session.pc
    {
      hide Keeps, Step, NextEvent, DemoteEffect;
      EffectIsNext(m, o, call.says);
      EffectStaysOn(m, o);
      Advance(Do(o), m, DemoteEffect(m, d, o));
    }

    ghost method DoClear(c: ClearPc, o: Outcome, m: Machine)
      requires Performing(m, o) && m.up.On? && m.up.session.pc == Clear(c)
      modifies `journal, `pc, `off
      ensures Logged(ClearEffect(m, c, o)) && !off && pc == ClearEffect(m, c, o).up.session.pc
    {
      hide Keeps, Step, NextEvent, ClearEffect;
      EffectIsNext(m, o, call.says);
      EffectStaysOn(m, o);
      Advance(Do(o), m, ClearEffect(m, c, o));
    }

    ghost method DoCheck(c: CheckPc, o: Outcome, m: Machine)
      requires Performing(m, o) && m.up.On? && m.up.session.pc == Check(c) && !c.Checking?
      modifies `journal, `pc, `off
      ensures Logged(CheckEffect(m, c, o)) && !off && pc == CheckEffect(m, c, o).up.session.pc
    {
      hide Keeps, Step, NextEvent, CheckEffect;
      EffectIsNext(m, o, call.says);
      EffectStaysOn(m, o);
      Advance(Do(o), m, CheckEffect(m, c, o));
    }

    ghost method DoArm(a: ArmPc, o: Outcome, m: Machine)
      requires Performing(m, o) && m.up.On? && m.up.session.pc == Arm(a) && (a.Preflight? ==> o != Done)
      modifies `journal, `pc, `off
      ensures Logged(ArmEffect(m, a, o)) && !off && pc == ArmEffect(m, a, o).up.session.pc
    {
      hide Keeps, Step, NextEvent, ArmEffect;
      EffectIsNext(m, o, call.says);
      EffectStaysOn(m, o);
      Advance(Do(o), m, ArmEffect(m, a, o));
    }

    ghost method DoLoad(o: Outcome, m: Machine)
      requires Performing(m, o) && m.up.On? && m.up.session.pc == Loading
      modifies `journal, `pc, `off
      ensures Logged(Protocol.At(m, LoadedPc(m.disk, m.up.session, o)))
      ensures !off && pc == LoadedPc(m.disk, m.up.session, o)
    {
      hide Keeps, Step, NextEvent, LoadedPc;
      EffectIsNext(m, o, call.says);
      Advance(Do(o), m, Protocol.At(m, LoadedPc(m.disk, m.up.session, o)));
    }

    // ---- effects -----------------------------------------------------------

    ghost function Booted(): Session
      reads this
    {
      Session(booted, selected, marker, confirmed, watchdog, staged, pc)
    }

    /** What `Trial::load` reads if it ends so. Without a record, a boot from a counted entry
        stands for its own trial. */
    function View(o: Outcome): (v: TrialView)
      reads this
      ensures v.counter == TrialCounter(SeenDisk(disk, o), SeenSession(disk, Booted(), o))
      ensures v.target == TrialTarget(SeenDisk(disk, o), SeenSession(disk, Booted(), o))
      ensures v.rollback == HasRollback(disk)
    {
      match disk
      case Grub(counter, target, _, order) => TrialView(counter, target, |order| > 1)
      case SdBoot(entries, record) =>
        var entry := if o.Unread? && o.counter then None else selected;
        var saved := if o.Unread? && o.record then None else record;
        TrialView(
          if entry.Some? && entry.value.tries.Some? then Some(entry.value.tries.value.left) else None,
          if saved.Some? then Some(saved.value.digest) else if entry.Some? then Some(booted.digest) else None,
          |entries| > 1)
    }

    /** What the next load gives. */
    ghost function Loaded(): Option<TrialView>
      reads this
    {
      if Loads(disk, world(turn)) then Some(View(world(turn))) else None
    }

    /** Whether the effect after `k` others loads the trial of this disk, and how it judges it. */
    ghost predicate WouldLoad(k: nat)
      reads this
    {
      Loads(disk, world(turn + k))
    }

    ghost function WouldJudge(k: nat): Assessment
      reads this
    {
      JudgeSeen(disk, Booted(), world(turn + k))
    }

    method LoadForBoot() returns (t: Option<TrialView>)
      requires At(Loading)
      modifies `journal, `pc, `off, `turn
      ensures t == old(Loaded())
      ensures At(old(LoadedPc(disk, Booted(), world(turn))))
    {
      hide Keeps, Step, Perform;
      ghost var m := Now();
      var o := Next();
      t := if Loads(disk, o) then Some(View(o)) else None;
      DoLoad(o, m);
    }

    method LoadForCheck() returns (t: Option<TrialView>)
      requires At(Check(Reading))
      modifies `journal, `pc, `off, `turn
      ensures t == old(Loaded())
      ensures At(if t.Some? && old(JudgeSeen(disk, Booted(), world(turn))) == TrialInProgress
                 then Check(Checking(t.value.counter)) else Idle)
    {
      hide Keeps, Step, Perform;
      ghost var m := Now();
      var o := Next();
      t := if Loads(disk, o) then Some(View(o)) else None;
      DoCheck(Reading, o, m);
    }

    method LoadAgain(counter: Option<int>) returns (t: Option<TrialView>)
      requires At(Check(Rereading(counter)))
      modifies `journal, `pc, `off, `turn
      ensures t == old(Loaded())
      ensures At(if t.None? || old(JudgeSeen(disk, Booted(), world(turn))) != TrialInProgress then Idle
                 else if AttemptsRemain(counter) then Check(RequestingReboot)
                 else RollBackPc(disk, booted.digest, true))
    {
      hide Keeps, Step, Perform;
      ghost var m := Now();
      var o := Next();
      t := if Loads(disk, o) then Some(View(o)) else None;
      DoCheck(Rereading(counter), o, m);
    }

    predicate BootsFirst()
      reads this
    {
      disk.Grub? && |disk.order| > 0 && disk.order[0] == booted
    }

    /** The fallback is permanent: on GRUB the booted deployment is first; on systemd-boot
        the entry of the record is marked bad, unless the record was missed. */
    ghost predicate FellHome(before: Disk)
      reads this
    {
      match before
      case Grub(_, _, _, _) => BootsFirst()
      case SdBoot(entries, record) =>
        disk.SdBoot? && (disk.entries == entries || (record.Some? && disk.entries == MarkBad(entries, record.value.id)))
    }

    /** `booted_is_default`, before anything is changed. */
    method ReadBootedIsDefault(path: Path) returns (r: Option<bool>)
      requires At(Demote(ReadingDefault(path)))
      modifies `journal, `pc, `off, `turn
      ensures r == if world(old(turn)) == Done then Some(BootsFirst()) else None
      ensures r.None? ==> At(AfterError(InCheck(path)))
      ensures r.Some? ==> At(Demote(if r.value == path.FallBack? then Recording(path) else Swapping(path)))
    {
      hide Keeps, Step, Perform;
      ghost var m := Now();
      var o := Next();
      r := if o == Done then Some(BootsFirst()) else None;
      DoDemote(ReadingDefault(path), o, m);
    }

    /** `booted_is_default`, after `bootc rollback`. */
    method Recheck(target: string) returns (ok: bool)
      requires At(Demote(Rechecking(target)))
      modifies `journal, `pc, `off, `turn
      ensures ok <==> world(old(turn)) == Done && BootsFirst()
      ensures At(if ok then Demote(Recording(FallBack(target))) else Guard(Unassessed))
    {
      hide Keeps, Step, Perform;
      ghost var m := Now();
      var o := Next();
      ok := o == Done && BootsFirst();
      DoDemote(Rechecking(target), o, m);
    }

    /** `bootc rollback`. It may swap the order and still report a failure. */
    method SwapOrder(path: Path) returns (ok: bool)
      requires At(Demote(Swapping(path))) && disk.Grub?
      modifies `disk, `journal, `pc, `off, `turn
      ensures disk ==
        if |old(disk).order| > 1 && world(old(turn)) != Failed
        then old(disk).(order := Swapped(old(disk).order)) else old(disk)
      ensures ok <==> |old(disk).order| > 1 && world(old(turn)) == Done
      ensures ok ==> At(Demote(if path.FallBack? then Rechecking(path.target) else Recording(path)))
      ensures !ok ==> At(AfterError(InCheck(path)))
    {
      hide Keeps, Step, Perform;
      ghost var m := Now();
      var o := Next();
      if o != Failed && |disk.order| > 1 {
        disk := disk.(order := Swapped(disk.order));
      }
      ok := o == Done && |disk.order| > 1;
      DoDemote(Swapping(path), o, m);
    }

    /** The entry to be marked bad: on a fallback the one of the record, if that can be read. */
    ghost function Failing(path: Path): Option<string>
      reads this
    {
      if path.RollBack? then Some(booted.id)
      else if disk.SdBoot? && disk.record.Some? && !(world(turn).Unread? && world(turn).record)
      then Some(disk.record.value.id) else None
    }

    /** `sdboot::mark_bad`; it fails on a roll-back if the deployment has no entry. */
    method MarkEntryBad(path: Path) returns (ok: bool)
      requires At(Demote(MarkingBad(path))) && disk.SdBoot?
      modifies `disk, `journal, `pc, `off, `turn
      ensures var id := old(Failing(path));
        && disk == (if id.Some? && world(old(turn)) != Failed
                    then old(disk).(entries := MarkBad(old(disk).entries, id.value)) else old(disk))
        && (ok <==>
              id.None? || (world(old(turn)) == Done && (path.FallBack? || FindEntry(old(disk).entries, id.value).Some?)))
      ensures At(if ok then Demote(Recording(path)) else AfterError(InCheck(path)))
    {
      hide Keeps, Step, Perform;
      ghost var m := Now();
      var o := Next();
      if path.FallBack? && (disk.record.None? || (o.Unread? && o.record)) {
        ok := true;
      } else {
        var id := if path.FallBack? then disk.record.value.id else booted.id;
        var i := FindEntry(disk.entries, id);
        if i.Some? && o != Failed {
          disk := disk.(entries := disk.entries[i.value := Demoted(disk.entries[i.value])]);
        }
        ok := o == Done && (path.FallBack? || i.Some?);
      }
      DoDemote(MarkingBad(path), o, m);
    }

    /** `reject`: append to the list, unless it is there; a failure is only warned about. */
    method Reject(path: Path)
      requires At(Demote(Recording(path)))
      modifies `rejected, `journal, `pc, `off, `turn
      ensures At(Clear(Forgetting(WhyOf(path), 2)))
      ensures rejected == if world(old(turn)) == Failed then old(rejected) else old(rejected) + {path.target}
    {
      hide Keeps, Step, Perform;
      ghost var m := Now();
      var o := Next();
      if path.target !in rejected && o != Failed {
        rejected := rejected + {path.target};
      }
      assert o != Failed ==> rejected == m.rejected + {path.target};
      DoDemote(Recording(path), o, m);
    }

    method ForceReboot()
      requires At(Rebooting)
      modifies `journal, `pc, `off, `turn
      ensures Valid() && off
    {
      hide Keeps, Step, Perform;
      ghost var m := Now();
      var o := Next();
      EffectIsNext(m, o, call.says);
      Advance(Do(o), m, m.(up := Off));
    }

    predicate CountedByLoader()
      reads this
      ensures CountedByLoader() == Armed(disk, Booted())
    {
      match disk
      case Grub(counter, _, _, _) => counter.Some?
      case SdBoot(entries, _) => selected.Some? && selected.value in entries
    }

    method TrialArmedWithoutBootc() returns (armed: bool)
      requires At(Guard(Unassessed))
      modifies `journal, `pc, `off, `turn
      ensures At(if armed then Guard(Marking(true)) else Idle)
      ensures armed <==> world(old(turn)) == Done && CountedByLoader()
      ensures !armed && CountedByLoader() ==> LastResortFailed()
    {
      hide Keeps, Step, Perform;
      ghost var m := Now();
      var o := Next();
      armed := o == Done && CountedByLoader();
      DoGuard(Unassessed, o, m);
    }

    // ---- clearing ----------------------------------------------------------

    /** One call of `forget`, or of `confirm` where the verdict strips the counter too.
        A failed call may have done either part; one that does not see the booted entry
        leaves its counter and succeeds. */
    method ClearOnce(why: Why, ghost retries: nat) returns (ok: bool, ghost seen: bool)
      requires At(Clear(Forgetting(why, retries)))
      modifies `disk, `journal, `pc, `off, `turn
      ensures PartlyCleared(old(disk), disk, why, selected)
      ensures ok ==> At(WhenCleared(why))
      ensures ok && seen ==> disk == AllCleared(old(disk), why, selected)
      ensures ok && !seen ==> disk == Forget(old(disk)) && disk.SdBoot? && AlsoBless(why)
      ensures !ok ==> At(if retries > 0 then Clear(Forgetting(why, retries - 1)) else WhenNotCleared(why))
    {
      hide Keeps, Step, Perform;
      ghost var m := Now();
      var o := Next();
      if o != Failed {
        match disk
        case Grub(_, _, _, order) => disk := Grub(None, None, false, order);
        case SdBoot(entries, _) => disk := SdBoot(entries, None);
      }
      DoClear(Forgetting(why, retries), o, m);
      ok, seen := o == Done, true;
      if ok && disk.SdBoot? && AlsoBless(why) {
        m := Now();
        o := Next();
        var pending := !(o.Unread? && o.counter);
        if o != Failed && pending && selected.Some? {
          disk := disk.(entries := Strip(disk.entries, selected.value));
        }
        DoClear(Blessing(why, retries), o, m);
        ok, seen := o == Done || !pending, pending;
      }
    }

    /** `sys::retry` around it: at most three calls. */
    method ClearWithRetry(why: Why) returns (ok: bool, ghost seen: bool)
      requires At(Clear(Forgetting(why, 2)))
      modifies `disk, `journal, `pc, `off, `turn
      ensures PartlyCleared(old(disk), disk, why, selected)
      ensures ok ==> At(WhenCleared(why)) && IsCleared(old(disk), disk, why, selected, seen)
      ensures !ok ==> At(WhenNotCleared(why))
    {
      hide Keeps, Step, Perform;
      ok, seen := ClearOnce(why, 2);
      var tried := 0;
      while tried < 2 && !ok
        invariant 0 <= tried <= 2
        invariant PartlyCleared(old(disk), disk, why, selected)
        invariant ok ==> At(WhenCleared(why)) && IsCleared(old(disk), disk, why, selected, seen)
        invariant !ok ==> At(if tried < 2 then Clear(Forgetting(why, 1 - tried)) else WhenNotCleared(why))
      {
        ClearingAgain(old(disk), disk, why, selected);
        ok, seen := ClearOnce(why, 1 - tried);
        tried := tried + 1;
      }
    }

    // ---- rolling back ------------------------------------------------------

    /** The demotion called from the deployment that failed. */
    method RollBackFrom(path: Path) returns (ok: bool)
      requires path.RollBack?
      requires At(Demote(if disk.Grub? then ReadingDefault(path) else MarkingBad(path)))
      modifies `disk, `journal, `pc, `off, `turn
      ensures ok ==> At(Demote(Recording(path))) && disk == DemotedDisk(old(disk), booted)
      ensures !ok ==> At(AfterError(path.inCheck))
      ensures disk.Grub? == old(disk).Grub?
    {
      hide Keeps, Step, Perform;
      if disk.Grub? {
        // An earlier roll-back may have come as far as the swap.
        var first := ReadBootedIsDefault(path);
        if first.None? { return false; }
        if !first.value { return true; }
        ok := SwapOrder(path);
      } else {
        ok := MarkEntryBad(path);
      }
    }

    /** The demotion called from the deployment that GRUB fell back to, or that sorts first
        now. A record that cannot be read names no entry. */
    method MakeFallbackPermanent(path: Path) returns (ok: bool)
      requires path.FallBack?
      requires At(Demote(if disk.Grub? then ReadingDefault(path) else MarkingBad(path)))
      modifies `disk, `journal, `pc, `off, `turn
      ensures ok ==> At(Demote(Recording(path))) && FellHome(old(disk))
      ensures !ok ==> At(Guard(Unassessed))
      ensures disk.Grub? == old(disk).Grub?
    {
      hide Keeps, Step, Perform;
      if disk.SdBoot? {
        ok := MarkEntryBad(path);
        return;
      }
      var first := ReadBootedIsDefault(path);
      if first.None? { return false; }
      if first.value { return true; }
      ok := SwapOrder(path);
      if !ok { return; }
      ok := Recheck(path.target);
    }

    /** Demote the failed deployment, record it, forget its trial and reboot. */
    method DemoteAndReboot(path: Path) returns (ok: bool)
      requires path.RollBack?
      requires At(Demote(if disk.Grub? then ReadingDefault(path) else MarkingBad(path)))
      modifies `disk, `rejected, `journal, `pc, `off, `turn
      ensures disk.Grub? == old(disk).Grub?
      ensures ok ==> Valid() && off && disk == Forget(DemotedDisk(old(disk), booted))
      ensures !ok ==> At(AfterError(path.inCheck))
    {
      hide Keeps, Step, Perform;
      ok := RollBackFrom(path);
      if !ok { return; }
      Reject(path);
      ghost var seen;
      ok, seen := ClearWithRetry(RolledBack(path.inCheck));
      if !ok { return; }
      ForceReboot();
    }

    /** Roll back from userspace; `inCheck` tells which command does it. */
    method FinishRollback(target: string, inCheck: bool, rollback: bool) returns (ok: bool, ghost seen: bool)
      requires At(RollBackPc(disk, target, inCheck)) && rollback == HasRollback(disk)
      modifies `disk, `rejected, `journal, `pc, `off, `turn
      ensures Valid() && (off ==> ok)
      ensures ok && rollback ==> off && disk == Forget(DemotedDisk(old(disk), booted))
      ensures ok && !rollback ==> At(Idle) && rejected == old(rejected)
      ensures ok && !rollback ==> IsCleared(old(disk), disk, Abandoned(inCheck), selected, seen)
      ensures !ok ==> At(AfterError(inCheck))
      ensures disk.Grub? == old(disk).Grub?
    {
      hide Keeps, Step, Perform;
      if rollback {
        ok := DemoteAndReboot(RollBack(target, inCheck));
        seen := true;
      } else {
        ok, seen := ClearOnce(Abandoned(inCheck), 0);
      }
    }

    // ---- bootguard boot ----------------------------------------------------

    method WriteMarker(again: bool) returns (ok: bool)
      requires At(Guard(Marking(again)))
      modifies `marker, `journal, `pc, `off, `turn
      ensures ok <==> world(old(turn)) == Done
      ensures marker == (old(marker) || world(old(turn)) != Failed)
      ensures At(if ok then Guard(StartingWatchdog) else if again then Idle else Guard(Unassessed))
      ensures !ok && again ==> LastResortFailed()
    {
      hide Keeps, Step, Perform;
      ghost var m := Now();
      var o := Next();
      marker := marker || o != Failed;
      DoGuard(Marking(again), o, m);
      ok := o == Done;
    }

    method StartWatchdog()
      requires At(Guard(StartingWatchdog))
      modifies `watchdog, `journal, `pc, `off, `turn
      ensures if world(old(turn)) == Done then At(Idle) && watchdog else Valid() && off
    {
      hide Keeps, Step, Perform;
      ghost var m := Now();
      var o := Next();
      watchdog := watchdog || o == Done;
      DoGuard(StartingWatchdog, o, m);
      if o != Done { ForceReboot(); }
    }

    /** The marker first, then the watchdog; without one the boot ends in a reboot. */
    method GuardTrial(again: bool) returns (ok: bool)
      requires At(Guard(Marking(again)))
      modifies `marker, `watchdog, `journal, `pc, `off, `turn
      ensures Valid() && (off ==> ok)
      ensures ok && !off ==> At(Idle) && marker && watchdog
      ensures !ok ==> At(if again then Idle else Guard(Unassessed))
      ensures !ok && again ==> LastResortFailed()
    {
      hide Keeps, Step, Perform;
      ok := WriteMarker(again);
      if ok { StartWatchdog(); }
    }

    /** Back on the previous deployment: make that permanent and reject the target. */
    method FinishFallback(target: string) returns (ok: bool)
      requires At(Demote(if disk.Grub? then ReadingDefault(FallBack(target)) else MarkingBad(FallBack(target))))
      modifies `disk, `rejected, `journal, `pc, `off, `turn
      ensures ok ==> At(Idle) && disk == Forget(disk) && FellHome(old(disk))
      ensures !ok ==> At(Guard(Unassessed))
      ensures disk.Grub? == old(disk).Grub?
    {
      hide Keeps, Step, Perform;
      ok := MakeFallbackPermanent(FallBack(target));
      if !ok { return; }
      Reject(FallBack(target));
      ghost var seen;
      ok, seen := ClearWithRetry(FellBackHome);
    }

    /** What a boot service that did not fail has done about a trial so judged; `seen` tells
        whether a clearing could see the booted entry. */
    ghost predicate Assessed(before: Disk, judged: Assessment, seen: bool)
      reads this
    {
      match judged
      case Quiet => disk == before
      case Stale => IsCleared(before, disk, StaleState, selected, seen)
      case TrialInProgress => disk == before && (off || (marker && watchdog))
      case FellBack(_) => disk == Forget(disk) && FellHome(before)
      case Exhausted(_) =>
        if HasRollback(before) then off && disk == Forget(DemotedDisk(before, booted))
        else IsCleared(before, disk, Abandoned(false), selected, seen)
    }

    method CmdAssess() returns (ok: bool, ghost seen: bool)
      requires At(Loading)
      modifies `disk, `rejected, `marker, `watchdog, `journal, `pc, `off, `turn
      ensures Valid() && (off ==> ok)
      ensures disk.Grub? == old(disk).Grub?
      ensures ok ==> old(Loaded()).Some? && Assessed(old(disk), old(JudgeSeen(disk, Booted(), world(turn))), seen)
      ensures ok && !off ==> At(Idle)
      ensures !ok ==> At(Guard(Unassessed))
    {
      hide Keeps, Step, Perform;
      var t := LoadForBoot();
      seen := true;
      if t.None? { return false, seen; }
      match Assess(t.value.counter, t.value.target, booted.digest)
      case Quiet => ok := true;
      case Stale => ok, seen := ClearOnce(StaleState, 0);
      case TrialInProgress => ok := GuardTrial(false);
      case FellBack(target) => ok := FinishFallback(target);
      case Exhausted(target) => ok, seen := FinishRollback(target, false, t.value.rollback);
    }

    /** The boot of a trial that could not be assessed is still guarded. */
    method GuardUnassessed()
      requires At(Guard(Unassessed))
      modifies `marker, `watchdog, `journal, `pc, `off, `turn
      ensures Valid() && (off || pc == Idle)
      ensures !off && CountedByLoader() ==> watchdog || LastResortFailed()
    {
      hide Keeps, Step, Perform;
      var armed := TrialArmedWithoutBootc();
      if armed {
        var guarded := GuardTrial(true);
      }
    }

    /** The boot service; `setup` tells whether boot counting could be set up. */
    method CmdBoot(setup: bool) returns (ok: bool, ghost seen: bool)
      requires (At(Starting) || At(Idle)) && Valid()
      modifies `disk, `rejected, `marker, `watchdog, `journal, `pc, `off, `turn, `call
      ensures Valid() && (off || pc == Idle)
      ensures Performed(old(Now()), StartBoot, false)
      ensures ok ==> setup && old(WouldLoad(1)) && Assessed(old(disk), old(WouldJudge(1)), seen)
      ensures
        !off && CountedByLoader() && (disk.SdBoot? && old(WouldLoad(1)) ==> old(WouldJudge(1)) == TrialInProgress)
        ==> watchdog || LastResortFailed()
    {
      hide Keeps, Step, Perform;
      StartSteps(Now());
      Start(StartBoot, false, Loading);
      ok, seen := BootTrial();
      ok := ok && setup;
      Performs();
    }

    /** Assess, and guard a boot that could not be assessed. */
    method BootTrial() returns (ok: bool, ghost seen: bool)
      requires At(Loading)
      modifies `disk, `rejected, `marker, `watchdog, `journal, `pc, `off, `turn
      ensures Valid() && (off || pc == Idle)
      ensures ok ==> old(WouldLoad(0)) && Assessed(old(disk), old(WouldJudge(0)), seen)
      ensures
        !off && CountedByLoader() && (disk.SdBoot? && old(WouldLoad(0)) ==> old(WouldJudge(0)) == TrialInProgress)
        ==> watchdog || LastResortFailed()
    {
      hide Keeps, Step, Perform;
      ok, seen := CmdAssess();
      if !ok { GuardUnassessed(); }
    }

    // ---- bootguard check ---------------------------------------------------

    /** End the watchdog: by its marker or by stopping it, one of them is enough. */
    method EndWatchdog() returns (ok: bool)
      requires At(Check(EndingWatchdog))
      modifies `confirmed, `journal, `pc, `off, `turn
      ensures At(Idle) && (ok <==> world(old(turn)) == Done) && confirmed == (old(confirmed) || ok)
    {
      hide Keeps, Step, Perform;
      ghost var m := Now();
      var o := Next();
      ok := o == Done;
      confirmed := confirmed || ok;
      DoCheck(EndingWatchdog, o, m);
    }

    method Confirm() returns (ok: bool, ghost seen: bool)
      requires At(Clear(Forgetting(Confirmed, 2)))
      modifies `disk, `confirmed, `journal, `pc, `off, `turn
      ensures At(Idle)
      ensures ok ==> confirmed && IsCleared(old(disk), disk, Confirmed, selected, seen)
      ensures !ok ==> confirmed == old(confirmed)
    {
      hide Keeps, Step, Perform;
      // Still armed, the trial could end as failed after all.
      ok, seen := ClearWithRetry(Confirmed);
      if !ok { return; }
      ok := EndWatchdog();
    }

    method RequestReboot()
      requires At(Check(RequestingReboot))
      modifies `journal, `pc, `off, `turn
      ensures if world(old(turn)) == Done then Valid() && off else At(Idle)
    {
      hide Keeps, Step, Perform;
      ghost var m := Now();
      var o := Next();
      DoCheck(RequestingReboot, o, m);
      if o == Done { ForceReboot(); }
    }

    /** The checks answer; the trial is confirmed, or read once more before it is failed. */
    method Conclude(good: bool, counter: Option<int>)
      requires At(Check(Checking(counter))) && good == call.says
      modifies `journal, `pc, `off, `turn
      ensures At(if good then Clear(Forgetting(Confirmed, 2)) else Check(Rereading(counter)))
    {
      hide Keeps, Step, Perform;
      ghost var m := Now();
      turn := turn + 1;
      VerdictSteps(m, good);
      Advance(Verdict(good), m, Judged(m, good));
    }

    /** What `cmd_check` does once a check has failed. */
    method ActOnFailure(counter: Option<int>, rollback: bool) returns (ok: bool)
      requires At(Check(Rereading(counter))) && rollback == HasRollback(disk)
      modifies `disk, `rejected, `journal, `pc, `off, `turn
      ensures Valid() && (off || pc == Idle)
      ensures AttemptsRemain(counter) ==> disk == old(disk) && rejected == old(rejected)
    {
      hide Keeps, Step, Perform;
      ghost var seen;
      var again := LoadAgain(counter);
      if again.None? { return false; }
      if Assess(again.value.counter, again.value.target, booted.digest) != TrialInProgress { return true; }
      if AttemptsRemain(counter) {
        RequestReboot();
        ok := true;
      } else {
        ok, seen := FinishRollback(booted.digest, true, rollback);
      }
    }

    /** The check service, however often it is started; `answers` is what the health checks
        will say. */
    method CmdCheck(answers: Answers) returns (ok: bool, ghost seen: bool)
      requires At(Idle)
      modifies `disk, `rejected, `confirmed, `journal, `pc, `off, `turn, `call
      ensures Valid() && (off || pc == Idle)
      ensures Performed(old(Now()), StartCheck, Healthy(answers))
      ensures disk != old(disk) || rejected != old(rejected) || confirmed != old(confirmed) ==>
        old(WouldLoad(1)) && old(WouldJudge(1)) == TrialInProgress
      ensures ok ==> old(WouldLoad(1)) && (old(WouldJudge(1)) == TrialInProgress && Healthy(answers) ==> confirmed)
      ensures confirmed && !old(confirmed) ==>
        Healthy(answers) && IsCleared(old(disk), disk, Confirmed, selected, seen)
      ensures !Healthy(answers) && AttemptsRemain(old(View(world(turn + 1))).counter) ==> disk == old(disk)
    {
      hide Keeps, Step, Perform;
      StartSteps(Now());
      Start(StartCheck, Healthy(answers), Check(Reading));
      ok, seen := CheckTrial(answers);
      Performs();
    }

    /** From the first reading of the trial on. */
    method CheckTrial(answers: Answers) returns (ok: bool, ghost seen: bool)
      requires At(Check(Reading)) && call.says == Healthy(answers)
      modifies `disk, `rejected, `confirmed, `journal, `pc, `off, `turn
      ensures Valid() && (off || pc == Idle)
      ensures disk != old(disk) || rejected != old(rejected) || confirmed != old(confirmed) ==>
        old(WouldLoad(0)) && old(WouldJudge(0)) == TrialInProgress
      ensures ok ==> old(WouldLoad(0)) && (old(WouldJudge(0)) == TrialInProgress && Healthy(answers) ==> confirmed)
      ensures confirmed && !old(confirmed) ==>
        Healthy(answers) && IsCleared(old(disk), disk, Confirmed, selected, seen)
      ensures !Healthy(answers) && AttemptsRemain(old(View(world(turn))).counter) ==> disk == old(disk)
    {
      hide Keeps, Step, Perform;
      var t := LoadForCheck();
      seen := true;
      if t.None? { return false, seen; }
      if Assess(t.value.counter, t.value.target, booted.digest) != TrialInProgress { return true, seen; }
      var good := RunChecks(answers);
      Conclude(good, t.value.counter);
      if good {
        ok, seen := Confirm();
      } else {
        ok := ActOnFailure(t.value.counter, t.value.rollback);
      }
    }

    // ---- bootguard arm -----------------------------------------------------

    /** `bootc status` and the detection of the stack. */
    method Inspect() returns (status: Outcome)
      requires At(Arm(Inspecting)) && cfg.enabled
      modifies `journal, `pc, `off, `turn
      ensures status == world(old(turn)) && turn == old(turn) + 1
      ensures At(Arm(
        if status == Failed then Dropping
        else if staged.None? || status == FailedLate then Exit(NotReported) else Consulting))
    {
      hide Keeps, Step, Perform;
      ghost var m := Now();
      status := Next();
      DoArm(Inspecting, status, m);
    }

    /** The rejected list; one that cannot be read counts as empty. */
    method Consult() returns (listRead: bool)
      requires At(Arm(Consulting)) && staged.Some?
      modifies `journal, `pc, `off, `turn
      ensures (listRead <==> world(old(turn)) == Done) && turn == old(turn) + 1
      ensures At(Arm(
        if listRead && staged.value.dep.digest in rejected then Unstaging(false)
        else if cfg.preflight then Preflight(listRead) else Writing(Screen(listRead, false))))
    {
      hide Keeps, Step, Perform;
      ghost var m := Now();
      var o := Next();
      listRead := o == Done;
      DoArm(Consulting, o, m);
    }

    /** Whether the staged image passes preflight; None if it could not be looked at. */
    method PassesPreflight(ghost listRead: bool, passes: bool) returns (findings: Option<bool>)
      requires At(Arm(Preflight(listRead))) && passes == call.says
      modifies `journal, `pc, `off, `turn
      ensures turn == old(turn) + 1 && findings == if world(old(turn)) == Done then Some(passes) else None
      ensures At(Arm(
        if findings.None? then Dropping
        else if passes then Writing(Screen(listRead, true)) else Unstaging(true)))
    {
      hide Keeps, Step, Perform;
      ghost var m := Now();
      var o := Next();
      if o != Done {
        DoArm(Preflight(listRead), o, m);
        return None;
      }
      VerdictSteps(m, passes);
      Advance(Verdict(passes), m, Judged(m, passes));
      findings := Some(passes);
    }

    /** `unstage`: drop the staged deployment. It may be dropped and the call still fail. */
    method Unstage(fatal: bool) returns (ok: bool)
      requires At(Arm(Unstaging(fatal))) && staged.Some?
      modifies `staged, `journal, `pc, `off, `turn
      ensures staged == if world(old(turn)) == Failed then old(staged) else None
      ensures (ok <==> world(old(turn)) == Done) && turn == old(turn) + 1
      ensures At(Arm(
        if !ok then Dropping
        else if fatal then Refusing(old(staged).value.dep.digest) else Exit(Dropped)))
    {
      hide Keeps, Step, Perform;
      ghost var m := Now();
      var o := Next();
      if o != Failed { staged := None; }
      DoArm(Unstaging(fatal), o, m);
      ok := o == Done;
    }

    /** Reject the image before it was ever applied. */
    method Refuse(digest: string)
      requires At(Arm(Refusing(digest)))
      modifies `rejected, `journal, `pc, `off, `turn
      ensures At(Arm(Exit(Dropped)))
      ensures rejected == if world(old(turn)) == Failed then old(rejected) else old(rejected) + {digest}
    {
      hide Keeps, Step, Perform;
      ghost var m := Now();
      var o := Next();
      if o != Failed { rejected := rejected + {digest}; }
      DoArm(Refusing(digest), o, m);
    }

    /** `Backend::arm`: write the trial and, for systemd-boot, count the staged entry. */
    method WriteTrial(ghost screen: Screen) returns (ok: bool)
      requires At(Arm(Writing(screen))) && staged.Some?
      modifies `disk, `staged, `journal, `pc, `off, `turn
      ensures staged.Some? && staged.value.dep == old(staged).value.dep
      ensures ok <==>
        IsSafeId(staged.value.dep.digest) && world(old(turn)) == Done && (disk.SdBoot? ==> world(old(turn) + 1) == Done)
      ensures disk ==
        if IsSafeId(staged.value.dep.digest) && world(old(turn)) != Failed
        then ArmedDisk(old(disk), staged.value.dep, cfg.maxAttempts) else old(disk)
      ensures staged.value.tries ==
        if IsSafeId(staged.value.dep.digest) && world(old(turn)) == Done && disk.SdBoot? && world(old(turn) + 1) != Failed
        then Some(Tries(cfg.maxAttempts, 0)) else old(staged).value.tries
      ensures At(Arm(if ok then Exit(Guarded(screen)) else Discarding))
    {
      hide Keeps, Step, Perform;
      ghost var m := Now();
      var o := Next();
      var dep := staged.value.dep;
      if IsSafeId(dep.digest) && o != Failed {
        disk := ArmedDisk(disk, dep, cfg.maxAttempts);
      }
      DoArm(Writing(screen), o, m);
      ok := IsSafeId(dep.digest) && o == Done;
      if ok && disk.SdBoot? {
        ok := CountStaged(screen);
      }
    }

    /** The staged entry gets its counter. */
    method CountStaged(ghost screen: Screen) returns (ok: bool)
      requires At(Arm(Renaming(screen))) && staged.Some?
      modifies `staged, `journal, `pc, `off, `turn
      ensures ok <==> world(old(turn)) == Done
      ensures staged == Some(
        if world(old(turn)) == Failed then old(staged).value
        else old(staged).value.(tries := Some(Tries(cfg.maxAttempts, 0))))
      ensures At(Arm(if ok then Exit(Guarded(screen)) else Discarding))
    {
      hide Keeps, Step, Perform;
      ghost var m := Now();
      var o := Next();
      if o != Failed { staged := Some(staged.value.(tries := Some(Tries(cfg.maxAttempts, 0)))); }
      DoArm(Renaming(screen), o, m);
      ok := o == Done;
    }

    /** `discard_arm`: undo a failed `arm`, as far as that works. */
    method DiscardArm()
      requires At(Arm(Discarding))
      modifies `disk, `journal, `pc, `off, `turn
      ensures disk == if world(old(turn)) == Failed then old(disk) else Forget(old(disk))
      ensures At(Arm(Dropping))
    {
      hide Keeps, Step, Perform;
      ghost var m := Now();
      var o := Next();
      if o != Failed {
        match disk
        case Grub(_, _, _, order) => disk := Grub(None, None, false, order);
        case SdBoot(entries, _) => disk := SdBoot(entries, None);
      }
      DoArm(Discarding, o, m);
    }

    /** What `arm` has come to when it has not failed. */
    ghost predicate SafelyArmed(before: Option<Entry>, passes: bool)
      reads this
    {
      pc == Arm(Exit(NotReported)) || staged.None? ||
      (staged.Some? && before.Some? && staged.value.dep == before.value.dep &&
       (cfg.preflight ==> passes) &&
       pc.Arm? && pc.arm.Exit? && pc.arm.result.Guarded? &&
       (pc.arm.result.screen.listRead ==> staged.value.dep.digest !in rejected) &&
       CarriesTries(staged.value))
    }

    /** The boot loader will count the configured number of tries of `e`. */
    ghost predicate CarriesTries(e: Entry)
      reads this
    {
      match disk
      case Grub(counter, target, fallback, _) =>
        counter == Some(cfg.maxAttempts) && target == Some(e.dep.digest) && fallback
      case SdBoot(_, record) =>
        record == Some(e.dep) && e.tries == Some(Tries(cfg.maxAttempts, 0))
    }

    /** Preflight finds the reported image unfit and dropping it works, if the command comes to
        `bootc status` after `k` effects. */
    ghost predicate Refuses(k: nat, passes: bool)
      reads this
    {
      && cfg.preflight && staged.Some? && !passes
      && world(turn + k) != Failed && world(turn + k) != FailedLate
      && !(world(turn + k + 1) == Done && staged.value.dep.digest in rejected)
      && world(turn + k + 2) == Done && world(turn + k + 3) == Done
    }

    /** The list as the command leaves it: only an image it refuses is added, unless the
        append is lost. */
    ghost function RejectedThen(k: nat, passes: bool): set<string>
      reads this
    {
      if Refuses(k, passes) && world(turn + k + 4) != Failed then rejected + {staged.value.dep.digest} else rejected
    }

    /** From the status to the trial written; on an error the caller drops the update. */
    method ArmStaged(passes: bool) returns (ok: bool)
      requires At(Arm(Inspecting)) && cfg.enabled && passes == call.says
      modifies `disk, `staged, `rejected, `journal, `pc, `off, `turn
      ensures ok ==> Valid() && !off && pc.Arm? && pc.arm.Exit? && pc.arm.result != ArmFailed
      ensures ok ==> SafelyArmed(old(staged), passes)
      ensures !ok ==> At(Arm(Dropping))
      ensures rejected == old(RejectedThen(0, passes))
    {
      hide Keeps, Step, Perform;
      var status := Inspect();
      if status == Failed { return false; }
      if staged.None? || status == FailedLate { return true; }
      var digest := staged.value.dep.digest;
      var listRead := Consult();
      if listRead && digest in rejected {
        ok := Unstage(false);
        return;
      }
      if cfg.preflight {
        ok := Vet(listRead, passes);
      } else {
        ok := WriteOrDiscard(Screen(listRead, false));
      }
    }

    /** From preflight on. */
    method Vet(ghost listRead: bool, passes: bool) returns (ok: bool)
      requires At(Arm(Preflight(listRead))) && passes == call.says && staged.Some?
      modifies `disk, `staged, `rejected, `journal, `pc, `off, `turn
      ensures ok ==> if passes then At(Arm(Exit(Guarded(Screen(listRead, true))))) else At(Arm(Exit(Dropped)))
      ensures ok ==>
        if passes then staged.Some? && staged.value.dep == old(staged).value.dep && CarriesTries(staged.value)
        else staged.None?
      ensures !ok ==> At(Arm(Dropping))
      ensures rejected ==
        if !passes && world(old(turn)) == Done && world(old(turn) + 1) == Done && world(old(turn) + 2) != Failed
        then old(rejected) + {old(staged).value.dep.digest} else old(rejected)
    {
      hide Keeps, Step, Perform;
      var digest := staged.value.dep.digest;
      var findings := PassesPreflight(listRead, passes);
      if findings.None? { return false; }
      if findings.value {
        ok := WriteOrDiscard(Screen(listRead, true));
      } else {
        ok := Unstage(true);
        if ok { Refuse(digest); }
      }
    }

    method WriteOrDiscard(ghost screen: Screen) returns (ok: bool)
      requires At(Arm(Writing(screen))) && staged.Some?
      modifies `disk, `staged, `journal, `pc, `off, `turn
      ensures staged.Some? && staged.value.dep == old(staged).value.dep
      ensures if ok then At(Arm(Exit(Guarded(screen)))) && CarriesTries(staged.value) else At(Arm(Dropping))
    {
      hide Keeps, Step, Perform;
      ok := WriteTrial(screen);
      if !ok { DiscardArm(); }
    }

    /** `unstage_any`: whichever stack staged the update, it goes. */
    method UnstageAny() returns (ok: bool)
      requires At(Arm(Dropping))
      modifies `staged, `journal, `pc, `off, `turn
      ensures staged == if world(old(turn)) == Failed then old(staged) else None
      ensures ok <==> world(old(turn)) == Done
      ensures At(Arm(Exit(if ok then Dropped else ArmFailed)))
    {
      hide Keeps, Step, Perform;
      ghost var m := Now();
      var o := Next();
      if o != Failed { staged := None; }
      DoArm(Dropping, o, m);
      ok := o == Done;
    }

    /** Disabled by configuration. */
    method LeaveAlone()
      requires At(Arm(Inspecting)) && !cfg.enabled
      modifies `journal, `pc, `off, `turn
      ensures At(Arm(Exit(Disabled)))
    {
      hide Keeps, Step, Perform;
      ghost var m := Now();
      ghost var o := Next();
      DoArm(Inspecting, o, m);
    }

    /** The shutdown service: whatever could not be armed is dropped, if that works. `passes`
        is what preflight will say. */
    method CmdArm(passes: bool) returns (ok: bool)
      requires At(Idle)
      modifies `disk, `staged, `rejected, `journal, `pc, `off, `turn, `call
      ensures Valid() && !off && pc.Arm? && pc.arm.Exit?
      ensures Performed(old(Now()), StartArm, passes)
      ensures ok <==> pc.arm.result != ArmFailed
      ensures ok && cfg.enabled ==> SafelyArmed(old(staged), passes)
      ensures rejected == if cfg.enabled then old(RejectedThen(1, passes)) else old(rejected)
    {
      hide Keeps, Step, Perform;
      StartSteps(Now());
      Start(StartArm, passes, Arm(Inspecting));
      if cfg.enabled {
        ok := ArmStaged(passes);
        if !ok { ok := UnstageAny(); }
      } else {
        LeaveAlone();
        ok := true;
      }
      Performs();
    }
  }

  /** The disk after the deployment `failed`, booted, was made not the default. */
  function DemotedDisk(disk: Disk, failed: Deployment): Disk {
    match disk
    case Grub(_, _, _, order) =>
      if |order| > 1 && order[0] == failed then disk.(order := Swapped(order)) else disk
    case SdBoot(entries, _) => disk.(entries := MarkBad(entries, failed.id))
  }

  lemma {:induction false} StillFound(entries: seq<Entry>, id: string, e: Entry)
    requires FindEntry(entries, id).Some? && e.dep.id == id
    ensures FindEntry(entries[FindEntry(entries, id).value := e], id) == FindEntry(entries, id)
  {
    var i := FindEntry(entries, id).value;
    if i > 0 {
      StillFound(entries[1..], id, e);
      assert entries[i := e][1..] == entries[1..][i - 1 := e];
    }
  }

  /** A second roll-back of the same deployment does not swap it back to the front. */
  lemma DemotingAgain(disk: Disk, failed: Deployment)
    ensures DemotedDisk(DemotedDisk(disk, failed), failed) == DemotedDisk(disk, failed)
  {
    if disk.SdBoot? {
      var i := FindEntry(disk.entries, failed.id);
      if i.Some? {
        StillFound(disk.entries, failed.id, Demoted(disk.entries[i.value]));
      }
    }
  }

  function AllCleared(disk: Disk, why: Why, selected: Option<Entry>): Disk {
    if AlsoBless(why) then Bless(Forget(disk), selected) else Forget(disk)
  }

  predicate PartlyCleared(before: Disk, after: Disk, why: Why, selected: Option<Entry>) {
    after == before || after == Forget(before) || after == AllCleared(before, why, selected)
  }

  /** Cleared, but for the counter of an entry that could not be seen. */
  predicate IsCleared(before: Disk, after: Disk, why: Why, selected: Option<Entry>, seen: bool) {
    after == AllCleared(before, why, selected) ||
    (!seen && after == Forget(before) && before.SdBoot? && AlsoBless(why))
  }

  /** Clearing what is partly cleared gives the same as clearing it once. */
  lemma ClearingAgain(before: Disk, after: Disk, why: Why, selected: Option<Entry>)
    requires PartlyCleared(before, after, why, selected)
    ensures AllCleared(after, why, selected) == AllCleared(before, why, selected)
    ensures Forget(after) == Forget(before) || Forget(after) == AllCleared(before, why, selected)
    ensures forall d :: PartlyCleared(after, d, why, selected) ==> PartlyCleared(before, d, why, selected)
  {
    assert Forget(Forget(before)) == Forget(before);
    if before.SdBoot? && selected.Some? {
      StripTwice(before.entries, selected.value);
      StripTwice(Strip(before.entries, selected.value), selected.value);
      var cleared := Bless(Forget(before), selected);
      assert cleared == SdBoot(Strip(before.entries, selected.value), None);
      assert Forget(cleared) == cleared && Bless(cleared, selected) == cleared;
    }
    assert Forget(AllCleared(before, why, selected)) == AllCleared(before, why, selected);
  }

  /** What the units, the list of failed units and the scripts answer. None stands for a
      question that could not be answered, or a directory that could not be read. */
  datatype Answers = Answers(
    units: seq<bool>,
    failOnFailedUnits: bool,
    anyFailed: Option<bool>,
    required: Option<seq<bool>>,
    wanted: seq<bool>)

  /** Every required unit is active and every required script succeeds. */
  predicate Healthy(a: Answers) {
    && (forall i :: 0 <= i < |a.units| ==> a.units[i])
    && (a.failOnFailedUnits ==> a.anyFailed == Some(false))
    && a.required.Some? && forall i :: 0 <= i < |a.required.value| ==> a.required.value[i]
  }

  /** `run_checks`. */
  method RunChecks(a: Answers) returns (good: bool)
    ensures good <==> Healthy(a)
  {
    for i := 0 to |a.units|
      invariant forall j :: 0 <= j < i ==> a.units[j]
    {
      if !a.units[i] { return false; }
    }
    if a.failOnFailedUnits && a.anyFailed != Some(false) { return false; }
    if a.required.None? { return false; }
    var scripts := a.required.value;
    for i := 0 to |scripts|
      invariant forall j :: 0 <= j < i ==> scripts[j]
    {
      if !scripts[i] { return false; }
    }
    good := true;
  }
}
