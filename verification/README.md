# bootguard, verified

A model of `bootguard`, which returns a machine to its previous deployment when an OS
upgrade does not come up healthy, and proofs about it. `dafny verify dfyconfig.toml`
checks everything.

An update is armed at shutdown, counted by the boot loader on each attempt, assessed at
early boot, health-checked, watched, and in the end confirmed or rolled back. All that the
next step can rely on is what the last one left on disk, and the power may go at any
point. The main part of the project is this protocol, for both boot stacks (ostree with
GRUB, composefs with systemd-boot).

## How the model is built

- `Protocol` is a transition system. One step is one effect of a command (a grubenv write,
  a swap of the boot order, an append to the rejected list, a rename), one action of the
  boot loader (`GrubBoot` runs `grub-custom.cfg`, `SdBootBoot` sorts and renames entries),
  or one act of the environment: a power cut, a hang ended by the watchdog or by a reset, a
  verdict of the checks. Every effect may be done, may fail without a trace, or may be done
  and reported as failed (a grubenv write whose checkpoint of /boot failed); on systemd-boot
  it may also be reported as done although the EFI variable with the counter of the boot, the
  entry it names or the record could not be read (`Unread`). The program point is part of the
  state, so a cut can fall between any two effects.
- `Commands` is the code of `main.rs` and `backend.rs` as it runs: a class `Host` whose
  methods change its fields in program order. How each effect ends is not theirs to choose:
  `world` says it. `Valid` says that the state is what the protocol's run over the journal
  gives, and `Performed` that a command has come to what the protocol does from the state it
  found, in that world: which is one end and no other (`PerformanceIsUnique`). So every
  theorem about runs is a theorem about these commands, and a command cannot leave out a step.
- `GrubTrial` and `SdTrial` hold the invariant of one trial on each stack; `GrubSafety`,
  `SdSafety`, `Rejection`, `Recovery`, `SdRecovery`, `Attempts`, `Guarding`, `Refinement`,
  `Arming` and `Abandoning` hold the theorems, over all runs; `LateChecks`, `Homecoming`,
  `Uninstalled` and `Unreadable` four ways in which the code does harm, and exactly when;
  `Failures` what each failed effect leads to, and `Loaders` what the boot loaders start.
  `Services`, `GrubServices` and `SdServices` run the services to their end. `History` counts what happened in a run.
  `Hypotheses` holds the runs in which a promise fails because a hypothesis does.
- `Cpio`, `CpioWriter`, `Resolver` and `Kernel` are the preflight parsers; `EnvBlock`,
  `GrubEnv`, `EntryNames`, `TrialRecord`, `Decimal` and `MergeCfg` the formats in which the
  trial is stored. `GrubEnv.EditsAreEffects` and `EntryNames.NamesFollowEntries` tie the
  bytes and the names to the protocol's disk; `TornWrites` and `TornTrials` say what is read
  of a grubenv write that was cut short. Where the source loops over a buffer, the
  loop is a method proved against a function, and the theorems are about that function.

In a trial `t` is the deployment on trial, `p` the one that was running when it was staged,
`n` the number of attempts.

## Hypotheses

The theorems state these as `requires` or as counts of events in the run. Each is needed,
and most have a lemma that shows the run in which the promise fails without it.

- The digests of `t` and `p` differ (`Hypotheses.SameDigestDefeatsRollback`: `assess`
  compares digests only). On systemd-boot their composefs ids differ too.
- In a trial no second one is written and no update is installed (`TrialEvents`). `arm` may
  run, and drop or refuse what is staged. `Arming` has no such hypothesis.
- A trial starts with its update installed. `Uninstalled` says what happens when a cut
  between `arm` and the finalizer leaves the trial without it.
- Commands run one at a time. Each may be started any number of times in one boot.
- Recovery on GRUB: between the swap of the order and the clearing of the variables, a
  spent counter makes GRUB start the failed deployment, and only that deployment's own boot
  service repairs it. `Recovery.WindowIsReachable` and `Recovery.WindowLoops` show the
  endless loop if it never gets that far. Hence `Recovery.Clean` asks, once the attempts
  are used up, that the chosen deployment loads and its boot service runs to the end.
- Where attempts are bounded on GRUB: no boot begins with the roll-back half done
  (`HalfDemoted`), for which it is enough that nothing is cut or fails for good between the
  swap and the clearing (`DemotionFault`); tries whose count is not saved (`UnsavedTry`) come
  on top. Entries may fail to load.
- A confirmation on systemd-boot is permanent if no check starts on the last attempt after
  the counter was stripped (`LateCheck`, `LateChecks.SecondCheckRevokes`).
- The append to the rejected list is not lost (`LostRecord`,
  `Hypotheses.LostRecordForgets`), and `arm` can read the list (`ListUnread`,
  `Hypotheses.UnreadListRearms`).
- `/run` can be written, and the boot loader's state read, when the boot service falls back
  on it (`GuardFault`); nor, on systemd-boot, is a counter unread with no record seen
  (`UnreadCounter(false)`). `Guarding.UnguardedIffMissed` says that this is exact.
- On systemd-boot a boot service that cannot read the counter of its boot, but sees the
  record, ends the trial (`UnreadCounter(true)`, `Unreadable.ExhaustedIffUnread`): a trial
  whose counter is unreadable is documented to count as used up. A confirmation that cannot
  see its entry leaves the counter (`UnseenBless`). Recovery, rejection, the bound of n
  attempts and the need of a passed check hold all the same. Without `UnreadCounter(true)`
  the entry's name also tells the attempts left (`LateChecks.NameTellsTheTries`). In the
  schedules of `Refinement` everything is read.
- In the protocol the grubenv block is written whole or not at all; `GrubEnv.UpdateEnv`
  says what a write that is cut short leaves, `TornTrials` what is read of it. systemd-boot's
  renaming of the entry it starts always succeeds.
- `default=1` with a single entry in the order starts that entry.
- Forcing a reboot ends in a reset; a command killed by a signal is a hang.
- The snippet is installed and the boot loader counts: `setup` succeeded. No mark starts
  inside the snippet (`MergeCfg.NoMark`; the comments of grub-custom.cfg begin with other
  letters than those of the marks).

## Where the code is not what its documentation says

- "An update that cannot be guarded is not applied": it stays staged, and is applied without
  a trial, if and only if dropping it fails as well (`Arming.LeftStagedIffDropFails`,
  `Arming.UnguardedUpdateIsApplied`).
- On systemd-boot a deployment that was confirmed on its last attempt is demoted and
  rejected by a second check of the same boot that fails, because the trial is read from the
  counter of the boot and not from the entry (`LateChecks.FailedCheckRevokesIff`,
  `LateChecks.SecondCheckRevokes`).
- There, too, a confirmation whose blessing cannot see the booted entry reports success and
  leaves the counter. After the last attempt the next boot starts the previous deployment,
  which finds no trial: the healthy one is lost and nothing says so
  (`Unreadable.CounterLeftIffUnseen`, `Unreadable.ConfirmedTargetIsLost`). A counter that
  cannot be read on the first of many attempts rejects an image that no check has seen
  (`Unreadable.FirstBootUnreadRejects`).
- A clear of grubenv that is cut short inside the line of the counter leaves the target
  alone, so a deployment whose confirmation was being written is judged used up
  (`TornTrials.TornClearJudged`). After a torn `arm` an update whose digest was not written
  whole is taken for no deployment (`TornTrials.TornArmJudged`).
- When the previous deployment cannot make a fallback permanent on GRUB, `cmd_boot` marks
  its boot as a trial and starts the watchdog, no check confirms it, and the watchdog resets
  the healthy deployment, again and again (`Homecoming.HomeIsMarkedIff`,
  `Homecoming.HomeLoops`, `Homecoming.HomeLoopIsReachable`).
- "Fell back" is said to mean that the trial failed. After a cut between `arm` and the
  finalizer the update is gone and its trial is not: the next boot rejects an image that was
  never booted, and, once the boot loader has used up the tries, GRUB starts the deployment
  before the running one, which demotes that for good, unless the update was its image again
  (`Uninstalled.NeverBootedIsRejected`, `Uninstalled.RunningIsDemoted`,
  `Uninstalled.OrphanDemotesIff`).
- `base_name` is said to be the name without its counter. A name such as `x+1+3.conf` is
  stripped to `x+1.conf`, which counts (`EntryNames.StrippingUncoversTheStem`). For a file
  that does not end in `.conf`, `with_tries` would change the base name
  (`EntryNames.BaseNameKept`); `find_entry` passes on none, so this stays inside the codec.
- `merge_custom_cfg` is said to be idempotent. With an orphan mark it is not
  (`MergeCfg.MergeTwiceIff`), but `setup` as a whole is (`MergeCfg.SetUpTwice`).
- A grubenv variable whose name holds a backslash or a newline does not survive an edit of
  other variables (`GrubEnv.UpdateIsFaithfulIff`): only values are escaped. A file can hold
  one, its name escaped (`GrubEnv.EscapedKeyIsLost`).

## Model

| member | source | states |
|---|---|---|
| Recovery.FiniteRecovery | bootguard/src/main.rs:177-227 | On GRUB, whatever interrupts the boots of a trial of n attempts and whatever its checks say, after n + 1 boots that are not interrupted where it matters the trial variables are clear and, unless the target was confirmed, the previous deployment is first in order; the next boot starts the one that is first and finds no trial |
| Recovery.UnpassedIsRolledBack | bootguard/src/main.rs:177-227 | So a trial that no check passed ends with the previous deployment first |
| Recovery.CleanBootsPayForRank | bootguard/src/main.rs:202-227 | Over any sequence of boots the rank (counter, order) never rises and pays one for every clean boot, and a trial that no check passes stays unconfirmed |
| Recovery.HangsOnlyCount | bootguard/src/grub-custom.cfg:5-13 | The bound is tight: k of n hangs leave the trial armed with n - k tries |
| Recovery.RecoveredBootsPrevious | bootguard/src/state.rs:21-36 | The first boot after recovery that loads starts the previous deployment, which finds no trial |
| Recovery.RecoveryIsPermanent | bootguard/src/backend.rs:85-112 | No later event of the run undoes recovery |
| Recovery.WindowLoops | bootguard/src/grub-custom.cfg:6-8 | Swapped, not cleared, counter spent: any number of boots that hang before the boot service changes nothing and starts the failed deployment again |
| Recovery.WindowIsReachable | bootguard/src/backend.rs:99-112 | One power cut right after the swap reaches that window from the start of a trial |
| GrubSafety.OrderFlipsOnce | bootguard/src/backend.rs:85-112 | Over all interleavings of boots, cuts, failures and assessments and checks repeated in one boot or over many, the order changes exactly once if it ends swapped and never if not, and nothing puts the target first again |
| GrubSafety.ConfirmationNeedsHealthPass | bootguard/src/main.rs:279-343 | The target ends first in order without trial state only if a boot of it passed every check |
| GrubSafety.ConfirmationIsPermanent | bootguard/src/main.rs:311-319 | A confirmed target stays first with the variables clear, whatever boots, checks and failures follow |
| GrubSafety.RejectedBeforeForgotten | bootguard/src/main.rs:177-188 | Whenever a trial is cleared with a fallback or roll-back verdict, checks passed before or not, its digest is in the rejected list already, unless the append was lost |
| GrubSafety.ForgottenUnpassedIsRejected | bootguard/src/main.rs:177-188 | A trial that is over and that no check passed is rejected |
| GrubTrial.TrialInvariant | bootguard/src/main.rs:202-343 | Every run keeps the invariant of a GRUB trial, which says what each program point may rely on; services may be started any number of times in one boot |
| SdTrial.TrialInvariant | bootguard/src/sdboot.rs:145-157 | Every run, whatever is read of the counter and the record, keeps the invariant of a systemd-boot trial: the target's entry is counted with tries left and made that add up to n, or out of tries with those made kept, or stripped, or demoted after that, and the previous entry carries no counter |
| SdSafety.ConfirmationNeedsHealthPass | bootguard/src/main.rs:311-328 | The counter is stripped from the target's entry only after a boot of it passed every check |
| SdSafety.RejectedBeforeForgotten | bootguard/src/main.rs:215-220 | Whenever a trial is cleared with a fallback or roll-back verdict, its digest is in the rejected list already, unless the append was lost |
| SdSafety.ForgottenUnpassedIsRejected | bootguard/src/main.rs:215-220 | The record of a trial that no check passed is removed only when it is out of tries and rejected |
| Rejection.CondemnedByRecording | bootguard/src/main.rs:183-184 | On any machine, only the step that records the target leads to clearing it as failed |
| SdSafety.TriesAreConserved | bootguard/src/sdboot.rs:1-5 | While the target's entry carries a counter of its trial, its name tells exactly the attempts made, and those left are the rest of the n or none; there are at most n in all, whatever else happens |
| LateChecks.NameTellsTheTries | bootguard/src/sdboot.rs:1-5 | Without late checks every counter on the target's entry tells the attempts made, and those left if no boot service missed its counter with the record there |
| LateChecks.FailedCheckRevokesIff | bootguard/src/backend.rs:40-45 | From any state between two commands, a failed check demotes the deployment after its confirmation if and only if it starts on the last attempt with the counter of the booted entry gone |
| LateChecks.ConfirmationIsPermanent | bootguard/src/backend.rs:73-82 | Without such a check a confirmed deployment stays confirmed in every run |
| LateChecks.SecondCheckRevokes | bootguard/src/main.rs:321-343 | One attempt, a check that passes and one that fails: the confirmed deployment ends demoted and rejected |
| SdRecovery.FiniteRecovery | bootguard/src/main.rs:202-227 | On systemd-boot, after n + 1 clean boots of a trial of n attempts, whatever its checks say, nothing records it and the target is stripped or out of tries; the next boot starts the target or the previous deployment accordingly and finds no trial |
| SdRecovery.UnpassedIsRolledBack | bootguard/src/main.rs:202-227 | So a trial that no check passed ends with the target out of tries |
| SdRecovery.RecoveryIsPermanent | bootguard/src/sdboot.rs:149-157 | From then on only the previous deployment is booted |
| SdSafety.InterruptedConfirm | bootguard/src/backend.rs:73-82 | A stop between removing the record and stripping the counter: with tries left the next boot is a trial in progress that can still be blessed, or no trial to a load that cannot read its counter; with none left the previous deployment boots and finds no trial |
| Unreadable.ExhaustedIffUnread | bootguard/src/backend.rs:40-45 | In every reachable state, a boot service of the target that loads the trial judges it used up, and rolls it back, if and only if the counter of the boot could not be read and the record could; it never judges that the target fell back |
| Unreadable.UnreadEndsTrial | bootguard/src/main.rs:221-225 | From any state of a trial such a load ends with the target out of tries and rejected, the record gone and the machine off, however many tries were left |
| Unreadable.FirstBootUnreadRejects | bootguard/src/sdboot.rs:71-76 | It happens on the first of any number of attempts, with no check run |
| Unreadable.CounterLeftIffUnseen | bootguard/src/sdboot.rs:78-81 | However its effects end, a confirmation that comes to end the watchdog leaves the counter on the booted entry if and only if a blessing could not see that entry |
| Unreadable.UnseenBlessingLoses | bootguard/src/sdboot.rs:144-147 | On the last attempt of any trial that loses the deployment: the watchdog is ended, and the next boot starts the previous deployment, which finds no trial |
| Unreadable.ConfirmedTargetIsLost | bootguard/src/main.rs:311-319 | One attempt, a check that passes and a blessing that sees nothing: such a run from the start of a trial |
| Abandoning.KeptOnlyWithoutRollback | bootguard/src/main.rs:177-181 | From any machine, over any run: a trial is given up with its deployment kept only when there is no rollback deployment |
| Abandoning.UsedUpAloneIsKept | bootguard/src/main.rs:177-181 | systemd-boot with one entry, judged used up: the boot service strips its counter, removes the record, rejects nothing, and the next boot starts it and finds no trial |
| Abandoning.FailedAloneIsKept | bootguard/src/main.rs:321-343 | So does a check that fails on the last attempt |
| Abandoning.CounterLeftIffUnseen | bootguard/src/backend.rs:73-82 | Giving up, however its effects end: one reported as success leaves the counter if and only if the blessing could not see the entry; one that fails has stripped it only if its blessing was done |
| Abandoning.UsedUpOnlyIsKept | bootguard/src/main.rs:177-181 | GRUB with one deployment, judged used up: the variables are cleared, the order kept, nothing rejected, and the next boot finds no trial |
| Abandoning.FailedOnlyIsKept | bootguard/src/main.rs:321-343 | So does a check that fails on the last attempt |
| Abandoning.StaleIsCleared | bootguard/src/main.rs:206-209 | A counter without a target is cleared, and nothing else changes |
| Failures.ClearingFailsIff | bootguard/src/sys.rs:79-89 | A clearing that is retried ends in an error if and only if each of its tries, three or one, had an effect that failed |
| Failures.FailedLeavesNoTrace | bootguard/src/main.rs:34-43 | In every program point, an effect that fails changes neither disk nor list nor boot |
| Failures.LateIsDone | bootguard/src/grub.rs:19-27 | One that is done and reported as failed leaves the disk, the list and the staged update as one that is reported as done |
| Failures.FailedDemotionKeepsTrial | bootguard/src/backend.rs:84-115 | A demotion that reports an error ends its command, has rejected nothing, and leaves the trial as it was |
| Failures.NoEntryNoRollBack | bootguard/src/backend.rs:91-94 | A roll-back without an entry of its deployment is an error and changes nothing |
| Failures.MissedRecordStillRejects | bootguard/src/backend.rs:113-114 | A fallback that cannot read the record changes no entry, and rejects and forgets |
| Failures.FirstAlreadyRejects | bootguard/src/backend.rs:98-103 | A fallback to a deployment that is first already, alone or not, keeps the order, rejects the target and ends the trial |
| Failures.MissedRecordIsOwn | bootguard/src/backend.rs:40-45 | A load that misses the record takes a counted entry for its own trial, and any other for none |
| Failures.UnclearedIsGuarded | bootguard/src/main.rs:385-400 | A boot service whose clearing fails, after a stale counter, a fallback or a roll-back, ends with the boot marked and watched if GRUB counts it |
| Failures.FailedCheckIsWatched | bootguard/src/main.rs:321-343 | A check service that ends in such an error leaves the boot to its watchdog, which resets it with the disk as it was |
| Failures.UnendedWatchdogResets | bootguard/src/main.rs:300-309 | A confirmation that cannot end the watchdog is reset, and the next boot starts the same deployment without a trial |
| Failures.SecondLookDecides | bootguard/src/main.rs:330-333 | A failed check acts if and only if the trial, read again after the checks, is seen to be in progress |
| Failures.StartedAgainGuards | bootguard/src/main.rs:192-200 | A boot service started again guards a trial boot that is not guarded yet |
| Failures.NothingToArm | bootguard/src/main.rs:116-121 | Disabled, or with nothing reported as staged, arm leaves the machine as it was |
| Loaders.GrubStarts | bootguard/src/grub-custom.cfg:5-13 | For any order and counter, which entry GRUB starts, and what it leaves in the counter |
| Loaders.SdStarts | bootguard/src/sdboot.rs:1-5 | For any entries, which one systemd-boot starts: the first with tries left or no counter, else the first; and only its name counts |
| Loaders.SwappedTwice | bootguard/src/bootc.rs:91-97 | A roll-back exchanges the first two deployments and keeps the rest, and a second one takes it back |
| Loaders.AttemptsRemainIff | bootguard/src/state.rs:43-51 | Another attempt remains if and only if the next counted boot would be a trial |
| Attempts.TriesAreConserved | bootguard/src/grub-custom.cfg:5-13 | While the target is first, tries made plus tries left are n plus the tries that could not be saved |
| Attempts.WaysToEnter | bootguard/src/grub-custom.cfg:5-13 | The only ways GRUB starts the target in a trial: a counted try, the window, a boot without counter, a load failure |
| Attempts.EntriesAreBounded | bootguard/src/grub-custom.cfg:5-13 | The number of boots of the target is at most the sum of those four |
| Attempts.AttemptBound | bootguard/src/grub-custom.cfg:5-13 | A trial of n attempts starts the target at most n times while its counter is there, plus the tries whose count could not be saved, if no boot begins with the roll-back half done; entries may fail to load |
| Attempts.NoFaultNoHalfDemotion | bootguard/src/backend.rs:84-112 | If nothing is cut or fails for good between swapping the order and clearing the counter, no boot begins with the roll-back half done |
| Attempts.AttemptBoundWithoutFaults | bootguard/src/grub-custom.cfg:5-13 | So a trial without such a fault, every count saved, starts the target at most n times |
| Attempts.AllHangsEnter | bootguard/src/grub-custom.cfg:9-11 | Exactly k times after k hangs, so exactly n if all hang |
| Attempts.HangsFallBack | bootguard/src/state.rs:26-27 | After n hangs the previous deployment boots and sees that the trial failed |
| Refinement.GrubRefinesAbstract | bootguard/src/backend.rs:36-39 | Under every schedule of hangs before the boot service, stalls after it, failed checks, and passed checks followed by the watchdog's timeout, the GRUB machine boots, judges and turns itself off as the abstract trial does |
| Refinement.GrubStepStalls | bootguard/src/main.rs:349-365 | A trial boot that stalls after its boot service is reset by its watchdog, and counts as a hang |
| Refinement.SdRefinesAbstract | bootguard/src/backend.rs:40-45 | So does the systemd-boot machine |
| Refinement.BackendsAgree | bootguard/src/backend.rs:34-115 | Both stacks boot the same deployment, assess it the same way and end the boot the same way, at every boot of the same schedule |
| Refinement.GrubHealthyIsKept | bootguard/src/main.rs:347-359 | A boot of a GRUB trial whose check passed is confirmed and on, with its watchdog running, and the timeout changes nothing |
| Refinement.SdHealthyIsKept | bootguard/src/main.rs:347-359 | So is one of systemd-boot |
| Guarding.GrubTrialIsGuarded | bootguard/src/main.rs:190-219 | No reachable state of a GRUB trial past the boot service has an armed trial, no watchdog and no confirmation, unless the boot service's last resort failed in the run |
| Guarding.SdTrialIsGuarded | bootguard/src/main.rs:385-400 | The same for systemd-boot, when bootc status fails too, unless the last resort failed or the counter was unread with no record seen |
| Guarding.HangIsReset | bootguard/src/main.rs:349-365 | A guarded trial boot that hangs unconfirmed is reset and the disk keeps the attempt counted |
| Guarding.ConfirmedIsNotReset | bootguard/src/main.rs:347-359 | On any machine, over every run: once a confirmation has ended without error the timeout of the watchdog never ends that boot |
| Guarding.UnguardedIffMissed | bootguard/src/main.rs:385-400 | The boot service leaves a trial boot without watchdog if and only if reading the boot loader's state, or marking, failed after the assessment did, or, on systemd-boot, the counter was unread with no record seen; unless an unread counter with the record seen ends the trial |
| Homecoming.HomeIsMarkedIff | bootguard/src/main.rs:385-400 | A boot of the previous deployment on GRUB ends marked as a trial if and only if its boot service failed with the trial still armed and could write the marker, and watched if and only if it failed so and the last resort did not fail |
| Homecoming.HomeIsReset | bootguard/src/main.rs:215-220 | Such a boot is confirmed by no check, and its watchdog resets it into the same trial |
| Homecoming.HomeLoops | bootguard/src/main.rs:215-220 | Any number of such boots leaves the machine as it was |
| Homecoming.HomeLoopIsReachable | bootguard/src/grub-custom.cfg:5-13 | The loop is reached from the start of a trial by hangs and one boot whose demotion fails |
| Homecoming.PreviousIsNeverMarked | bootguard/src/backend.rs:166-168 | On systemd-boot no boot of the previous deployment is ever marked or watched |
| Arming.ArmFailsClosed | bootguard/src/main.rs:88-131 | For every combination of failures: if enabled arm returns without error and the staged image was reported, nothing is staged or the image passed preflight where that is on, has an id that can be stored, carries exactly the configured tries, and is not in the rejected list if that could be read |
| Arming.LeftStagedIffDropFails | bootguard/src/main.rs:122-129 | An enabled arm of a reported image leaves it staged without a trial if and only if dropping it failed as well |
| Arming.UnfitIsRejectedIff | bootguard/src/main.rs:98-105 | However its effects end, arm adds to the rejected list the image that preflight found unfit, if and only if dropping it worked and the append was not lost, and nothing else |
| Arming.ArmCompletes | bootguard/src/main.rs:88-112 | Nothing failing, an unfit image ends dropped and rejected, a fit one staged with its tries |
| Arming.FailedArmIsUndone | bootguard/src/main.rs:107-110 | An id that cannot be stored, or a failed write of the trial, done or not, ends with no trial and nothing staged |
| Arming.DropErrorIsReported | bootguard/src/main.rs:122-129 | Arm returns an error exactly if dropping the update reported one |
| Arming.FinalizerWaits | bootguard/src/main.rs:114-116 | The finalizer installs nothing before arm has ended |
| Arming.UnguardedUpdateIsApplied | bootguard/src/main.rs:122-129 | When bootc status and dropping both fail, the update is installed and the next boot starts it without a trial |
| Arming.PassedMeansPreflightPassed | bootguard/src/main.rs:98-105 | An image arm goes on with as passed was passed by preflight in the same run |
| Arming.RejectedIsNeverArmed | bootguard/src/main.rs:94-97 | Once rejected, a digest is never armed in the rest of any run in which arm can read the list |
| Arming.FinalizeStartsGrubTrial | bootguard/src/backend.rs:49-58 | What arm guards and ostree installs is the start of a trial as the theorems assume it, exactly if the digests differ |
| Arming.FinalizeStartsSdTrial | bootguard/src/sdboot.rs:135-142 | The same for bootc's installation of the staged entry, exactly if digests and ids differ and the running deployment has an entry that is not on trial itself |
| Uninstalled.CutOrphansTrial | bootguard/src/backend.rs:49-58 | A cut between arm and the finalizer leaves the trial armed with its update gone |
| Uninstalled.OrphanDemotesIff | bootguard/src/main.rs:215-225 | For any counter, a boot of such a trial whose service runs to its end demotes the deployment that was running if and only if the older one boots (the tries are used up and the chosen entry loads, or tries are left and it does not) and the update is not its image; whatever boots, the update ends rejected and the trial over, but an older deployment with the image of the update and a try left is guarded as the trial, and one without rolls itself back |
| Uninstalled.NeverBootedIsRejected | bootguard/src/main.rs:215-220 | With tries left one clean boot of the running deployment rejects the update, which was never booted |
| Uninstalled.HangsOfPreviousCount | bootguard/src/grub-custom.cfg:5-13 | Boots of the running deployment that hang count down the tries of the update |
| Uninstalled.RunningIsDemoted | bootguard/src/backend.rs:99-112 | After n of them GRUB starts the older deployment, whose boot service puts itself first, if the update is not its image |
| Uninstalled.DemotionOfRunningIsPermanent | bootguard/src/backend.rs:99-112 | No later event of a run without a new update undoes that |
| Uninstalled.DemotedOnlyByOlder | bootguard/src/backend.rs:99-112 | Over every run, the running deployment is demoted only if the older one was started |
| Uninstalled.RecordAloneRejects | bootguard/src/backend.rs:113-114 | On systemd-boot the record alone is left: the next boot rejects the update and changes no entry |
| Hypotheses.SameDigestDefeatsRollback | bootguard/src/state.rs:26-27 | With equal digests the boot that fell back ends the trial and keeps the unhealthy deployment first |
| Hypotheses.LostRecordForgets | bootguard/src/main.rs:34-43 | A lost record ends the trial without rejecting the image |
| Hypotheses.UnreadListRearms | bootguard/src/main.rs:45-48 | An unreadable list counts as empty and a rejected image is armed, on either stack, with preflight or without |
| Services.GuardCompletes | bootguard/src/main.rs:192-200 | The boot service of a trial boot ends marked, with the watchdog running |
| GrubServices.DemotionCompletes | bootguard/src/backend.rs:85-112 | The demotion run to its end leaves the previous deployment first, the variables clear and the target rejected, however far an earlier one got |
| Commands.TraceIsRun | bootguard/src/main.rs:385-400 | The states a host went through are the protocol's run over its journal, from any of them on |
| Commands.CallIsPerformed | bootguard/src/main.rs:385-400 | A journal kept step by step has come to what the protocol performs from the state the command found |
| Commands.PerformanceIsUnique | bootguard/src/main.rs:202-343 | Given how its effects end and what the checks say, a command has one end, however long it is watched |
| Commands.Host.LoadForBoot | bootguard/src/main.rs:143-155 | What the boot service reads, on systemd-boot with the counter or the record unread or not, decides where it goes on exactly as the protocol's judgement of what was read does; if loading fails it goes on to the boot loader's own view |
| Commands.Host.SwapOrder | bootguard/src/bootc.rs:91-97 | The first two entries are swapped exactly if there are two and the call did not fail without a trace, and it succeeds exactly if it was reported done |
| Commands.Host.MarkEntryBad | bootguard/src/backend.rs:113-114 | Exactly when the entry of the deployment, or on a fallback that of the record, has no tries left afterwards, and when that is an error |
| Commands.Host.Reject | bootguard/src/main.rs:57-64 | The list grows by this digest exactly if the append is not lost, and the command goes on |
| Commands.Host.Refuse | bootguard/src/main.rs:100-103 | So it does for an image refused before it was applied |
| Commands.Host.RollBackFrom | bootguard/src/backend.rs:84-96 | Success means the failed deployment is demoted: swapped only if it still was first, or its entry marked bad |
| Commands.DemotingAgain | bootguard/src/backend.rs:87-90 | A second roll-back of the same deployment changes nothing, on either stack |
| Commands.Host.MakeFallbackPermanent | bootguard/src/backend.rs:98-115 | Success on GRUB means that the booted deployment is first in order; on systemd-boot that the entry of the record is marked bad, or, if the record was missed, that no entry changed |
| Commands.Host.ClearOnce | bootguard/src/backend.rs:65-82 | Success means cleared, and stripped where confirmed unless the booted entry could not be seen; a failure leaves all, part or nothing done |
| Commands.Host.ClearWithRetry | bootguard/src/sys.rs:79-89 | Up to three partial calls clear as much as one that succeeds |
| Commands.ClearingAgain | bootguard/src/backend.rs:73-82 | Clearing what is partly cleared gives what clearing once gives |
| Commands.Host.FinishRollback | bootguard/src/main.rs:177-188 | Success: demoted, forgotten and off, or, without a rollback deployment, the trial abandoned |
| Commands.Host.GuardTrial | bootguard/src/main.rs:192-200 | Success: marked with a live watchdog, or rebooting |
| Commands.Host.CmdAssess | bootguard/src/main.rs:202-227 | What each of the five assessments of what was read leads to, with every effect free to fail |
| Commands.Host.CmdBoot | bootguard/src/main.rs:385-400 | The boot service performs what the protocol does from the state it found, whatever fails; without error setup succeeded and the trial is dealt with as what was read is judged; a boot that the boot loader still counts is watched unless the last resort failed, on systemd-boot if the trial did not load or was judged in progress |
| Commands.Host.Confirm | bootguard/src/main.rs:311-319 | The confirmed marker is set only once the record is gone and the counter stripped, or its entry was not seen; a failure sets none |
| Commands.RunChecks | bootguard/src/main.rs:279-298 | Passes if and only if every required unit is active, no unit failed where that matters, and every required script could be listed and succeeded |
| Commands.Host.CmdCheck | bootguard/src/main.rs:321-343 | However often it is started it performs what the protocol does: confirms only on healthy answers and a cleared trial; without error it has read the trial, and confirmed it if that was in progress and healthy; changes anything only if what it read is judged in trial; with attempts remaining a failure changes no disk |
| Commands.Host.WriteTrial | bootguard/src/backend.rs:49-58 | Exactly when the trial is written with the configured tries, when the entry is counted, and when that is a success |
| Commands.Host.ArmStaged | bootguard/src/main.rs:90-112 | Without error: nothing staged, or the same image armed, passed, and not rejected if the list could be read; the list grows exactly by an image that was refused and recorded |
| Commands.Host.CmdArm | bootguard/src/main.rs:116-131 | The same after the fallback that drops the update, performed as the protocol does; an error only if dropping failed |
| Cpio.WalkIffLayout | bootguard/src/preflight.rs:146-195 | The walker accepts with an offset and an answer if and only if the bytes before the offset are zero padding and complete trailer-ended archives with right checksums, and the answer tells whether a non-trailer entry is an init |
| Cpio.PayloadOffset | bootguard/src/preflight.rs:146-157 | The outer loop ends on every input and computes the walk |
| Cpio.SkipArchive | bootguard/src/preflight.rs:158-193 | The inner loop reads one archive to its trailer |
| Cpio.EntryIffRead | bootguard/src/preflight.rs:159-185 | One header is accepted if and only if an entry of the format stands there |
| Cpio.ByteSum | bootguard/src/preflight.rs:131-142 | The buffered sum is the sum of the bytes modulo 2^32 |
| CpioWriter.RoundTrip | bootguard/src/preflight.rs:146-195 | For every sequence of well-formed archives, padded and followed by a payload, the walker returns the payload's offset and whether an init was written |
| CpioWriter.EntryWritten | bootguard/src/preflight.rs:159-185 | A written entry, its fields in digits of either case, is read back with its name, mode, size, checksum and alignment |
| CpioWriter.HexRoundTrip | bootguard/src/preflight.rs:161-163 | A number written in hexadecimal digits, each letter in either case, is read back |
| CpioWriter.FieldIffWritten | bootguard/src/preflight.rs:161-163 | A header field is read as a number if and only if it spells that number in eight hexadecimal digits of either case, or in seven behind a plus sign |
| CpioWriter.InitNameIff | bootguard/src/preflight.rs:112-114 | A name is an init's if and only if it is one of five paths behind any number of ./ and then of slashes |
| CpioWriter.InitModeIff | bootguard/src/preflight.rs:115-119 | By its octal digits, a mode is an init's if and only if it is a link's, or a regular file's that someone may execute |
| CpioWriter.LongPaddingStops | bootguard/src/preflight.rs:148-152 | Of a longer run of zeros a mebibyte is skipped, and what follows is the payload |
| CpioWriter.NameSizeRefused | bootguard/src/preflight.rs:167-169 | An entry whose header spells a name size of 0 or of more than 4096 is refused |
| Resolver.ResolveBeneath | bootguard/src/preflight.rs:300-336 | The loop ends for every set of links, loops included |
| Resolver.NamesOfJoin | bootguard/src/preflight.rs:304-311 | The names of a path are those of its parts before and behind any slash |
| Resolver.JoinRoundTrip | bootguard/src/preflight.rs:304-311 | Names joined with slashes are read back, behind a leading slash too |
| Resolver.LinkFreePath | bootguard/src/preflight.rs:316-323 | A path of names on which there is no link, relative or absolute, results in exactly those names |
| Resolver.LinkLeads | bootguard/src/preflight.rs:325-333 | A link on a path is replaced by its target: from the root if that is absolute, from the directory of the link if not, the names behind it kept and one link less allowed |
| Resolver.DotDotTakesBack | bootguard/src/preflight.rs:316-319 | A .. takes back the name before it, and at the root goes nowhere |
| Resolver.ChainResolvesIff | bootguard/src/preflight.rs:325-328 | A chain of links is followed to its end if and only if it has at most 40 |
| Resolver.ResolvesAsChroot | bootguard/src/preflight.rs:300-336 | It resolves every path as a recursive chroot resolver with 40 links does |
| Resolver.ResolveFollows | bootguard/src/preflight.rs:304-334 | Names put before those to do are resolved first, with what is left of the links |
| Resolver.StaysBeneathRoot | bootguard/src/preflight.rs:316-323 | No result has a "..", nor a symbolic link as any prefix |
| Resolver.RealResolvesToItself | bootguard/src/preflight.rs:319-323 | A path without links or ".." is its own result |
| Resolver.SelfLinkHasNoResult | bootguard/src/preflight.rs:325-328 | A link to itself has no result, whatever the number of links allowed |
| Kernel.CheckKernel | bootguard/src/preflight.rs:43-85 | Accepts if and only if the image has a kernel's form and all its sections, payload and setup lie within the file |
| Kernel.SectionsEnd | bootguard/src/preflight.rs:67-72 | The loop finds the largest section end, or a section header that was not read |
| Kernel.BzAcceptedIff | bootguard/src/preflight.rs:96-108 | A bzImage without a PE header is accepted if and only if boot sector, setup sectors and kernel lie within the file |
| Kernel.Arm64AcceptedIff | bootguard/src/preflight.rs:43-53 | An image without a PE or bzImage magic is accepted if and only if the arm64 magic stands at byte 56 and it has 64 bytes |
| Kernel.MagicsStand | bootguard/src/preflight.rs:43-85 | The bytes and places by which the other images are recognised |
| Kernel.NoSectionIsCutOff | bootguard/src/preflight.rs:67-75 | Every section header of an accepted PE image was read and its data ends within the file |
| Kernel.MonotoneInSize | bootguard/src/preflight.rs:43-85 | Acceptance is monotone in the size |
| Kernel.AcceptedFromNeed | bootguard/src/preflight.rs:43-108 | A header is refused at every size or accepted exactly from one size on |
| Kernel.PeAcceptedIff | bootguard/src/preflight.rs:54-84 | A header laid out as the PE format says, with any sections, and with a zboot payload or a bzImage setup or not, is accepted if and only if no section, payload or kernel reaches behind the end of the file |
| Kernel.ReadsU16 | bootguard/src/preflight.rs:32-37 | A 16-bit number stored lowest byte first is read back |
| Kernel.ReadsU32 | bootguard/src/preflight.rs:38-40 | So is a 32-bit number |
| EnvBlock.RoundTripIff | bootguard/src/grubenv.rs:16-59 | The variables written are read back if and only if no key has '=', a backslash, a newline or a leading '#'; values are free |
| EnvBlock.HeaderIsLine | bootguard/src/grubenv.rs:8-18 | A block is the header line and then its variables |
| GrubEnv.Env.Parse | bootguard/src/grubenv.rs:16-39 | The loop with its escape flag reads the lines of the block |
| GrubEnv.Env.Serialize | bootguard/src/grubenv.rs:41-59 | The nested loops write the block of exactly the given size, or fail if it is too small |
| GrubEnv.Env.Set | bootguard/src/grubenv.rs:69-78 | The loop that finds the variable: a value with a newline or backslash is refused and nothing changes; else the variable reads back and all others are kept in order |
| GrubEnv.Env.Unset | bootguard/src/grubenv.rs:80-82 | The loop that filters: all variables of that name are gone, every other reads as before and stays in order |
| GrubEnv.GetWithVar | bootguard/src/grubenv.rs:61-78 | A set variable reads back, every other reads as before |
| GrubEnv.GetWithout | bootguard/src/grubenv.rs:61-82 | A removed variable reads as absent, every other as before |
| GrubEnv.WriteInPlace | bootguard/src/grubenv.rs:93-99 | Exactly the bytes that the device accepts change, and the file keeps its size |
| GrubEnv.UpdateEnv | bootguard/src/grub.rs:19-27 | The file holds the edited block up to where the write was cut short, or not one byte changed; a short write and a failed checkpoint are reported |
| GrubEnv.TornIsReadable | bootguard/src/grubenv.rs:93-99 | A write cut short anywhere leaves a block of the same size that can be read |
| TornWrites.TornReads | bootguard/src/grubenv.rs:93-99 | Whatever the file held, after any cut the block is read as the variables written whole, one line begun by the new text and ended by the old, and what the rest of the old text says |
| TornWrites.AddedTorn | bootguard/src/grubenv.rs:93-99 | Of variables added behind others, each reads as written, as a beginning with padding behind it, or not at all, as its record was cut |
| TornWrites.DroppedTorn | bootguard/src/grubenv.rs:93-99 | Variables dropped from the end go one by one from the front, the one that the cut touches with them |
| TornTrials.TornArmReads | bootguard/src/grub.rs:36-44 | Of an arm cut at any byte: the counter is read if and only if its line is whole, the target whole or cut short with padding behind it, the fallback only if all is written |
| TornTrials.TornArmJudged | bootguard/src/state.rs:21-36 | The next boot judges it quiet, stale, or a fallback from an id that is no image's, until the target is whole; then as the trial |
| TornTrials.TornClearReads | bootguard/src/grub.rs:29-34 | Of a clear cut at any byte: the counter goes first, then the target, then the fallback |
| TornTrials.TornClearJudged | bootguard/src/state.rs:21-36 | A clear cut inside the line of the counter, and no other, makes the deployment of the target be judged used up, also one that was being confirmed |
| GrubEnv.EditedMeans | bootguard/src/grub.rs:29-44 | An edit sets or removes the three variables of the trial and keeps all others in order |
| GrubEnv.UpdateIsFaithfulIff | bootguard/src/grub.rs:19-27 | A whole edit keeps the size of the block and yields exactly the variables meant if and only if no variable in the file has a backslash or newline in its name |
| GrubEnv.EscapedKeyIsLost | bootguard/src/grubenv.rs:16-59 | For every name with a backslash or newline there is a file that holds the variable, and clearing a trial loses or changes it |
| GrubEnv.TrialRoundTrip | bootguard/src/grub.rs:29-44 | An armed trial is read back with its target and attempts, a cleared one not at all, and all other variables stand in their place |
| GrubEnv.SpacedCounter | bootguard/src/grubenv.rs:65-67 | A counter with white space around it is read as the same number |
| GrubEnv.EditsAreEffects | bootguard/src/grub.rs:29-44 | On the bytes of the file, arming and clearing are the protocol's effects |
| GrubEnv.SafeDigestIsStored | bootguard/src/backend.rs:51-53 | A digest that passes the check of ids can be stored |
| Decimal.ReadI32 | bootguard/src/grubenv.rs:65-67 | A counter written as text is read back as the same number |
| Decimal.SignsRead | bootguard/src/sdboot.rs:21-25 | A plus sign is accepted in a counter, a minus sign not in a file name's |
| EntryNames.CounterRoundTrip | bootguard/src/sdboot.rs:21-42 | For every file name, the counter written is the counter read |
| EntryNames.CounterReadIff | bootguard/src/sdboot.rs:21-25 | The two parts of a counter in a .conf name are read if and only if both are numbers |
| EntryNames.BaseNameKept | bootguard/src/sdboot.rs:27-42 | Counting keeps the base name if and only if the name ends in .conf |
| EntryNames.AttemptsInName | bootguard/src/sdboot.rs:1-5 | After k attempts of an entry armed with n tries the name reads n - k and k, on the same base name |
| EntryNames.TrialGivesNameBack | bootguard/src/sdboot.rs:144-147 | After arming and any number of attempts, stripping gives back the name the entry was staged under |
| EntryNames.NamesFollowEntries | bootguard/src/sdboot.rs:149-157 | Read as counters, the renamings are the protocol's attempt and demotion of an entry |
| EntryNames.StrippingUncoversTheStem | bootguard/src/sdboot.rs:27-33 | A base name that ends in a counter itself still counts after stripping |
| TrialRecord.RoundTrip | bootguard/src/sdboot.rs:110-134 | Every record that is saved is loaded as the same digest and id |
| TrialRecord.LooseRecord | bootguard/src/sdboot.rs:109-117 | A record is read also from lines that end in a carriage return, and from a last line without an end |
| TrialRecord.IdsOfParts | bootguard/src/sys.rs:111-113 | Letters and digits joined by a colon, dot, underscore or dash are an id that can be stored, joined by anything else they are none |
| MergeCfg.MergeTwiceIff | bootguard/src/state.rs:53-67 | For every snippet in which no mark starts: merging twice is merging once if and only if the text has no mark or its first begin mark precedes its first end mark |
| MergeCfg.OldBlockIsReplaced | bootguard/src/state.rs:56-64 | A block of this or an older version is replaced and no byte around it changes |
| MergeCfg.BlockIsCurrent | bootguard/src/state.rs:53-67 | After a merge the first marks enclose the current block, between the texts that were around the old one |
| MergeCfg.StartsOnItsOwnLine | bootguard/src/state.rs:65-66 | An appended block comes behind the whole text and starts a line, with at most a newline put between |
| MergeCfg.OrphanBegin | bootguard/src/state.rs:56-66 | A begin mark alone: the second merge cuts the text behind it |
| MergeCfg.OrphanEnd | bootguard/src/state.rs:57-66 | An end mark first: every merge appends another block |
| MergeCfg.SetUpTwice | bootguard/src/grub.rs:57-83 | The snippet is present after setup, and a second setup changes nothing, orphan marks or not |

## Left out

- Attempts.AttemptBound: needs that no boot begins with the roll-back half done; `Recovery.WindowLoops` shows that the target can be started without bound otherwise.
- Recovery.FiniteRecovery: the failed deployment must reach its boot service in the window, see Hypotheses.
- Arming.ArmFailsClosed: says nothing when `bootc status` does not list the staged deployment; when dropping the update fails too, see `Arming.LeftStagedIffDropFails`.
- Cpio.WalkIffLayout: a read inside the file is assumed to succeed; an I/O error in the middle of the file is not modelled.
- Resolver.ResolveBeneath: `read_link` of an existing link is assumed to succeed; the file system does not change during the resolution.
- GrubEnv.UpdateEnv: the protocol takes the write to be whole; `TornTrials` says what is read otherwise, and how it is judged.
- TornWrites.TornReads: the variables written hold no backslash or newline. What GRUB itself makes of a counter cut short is not modelled.
- TornTrials.TornArmReads: the block was last written by the program and holds no trial.
- TornTrials.TornClearReads: the block was last written by the program, with the trial behind all other variables, as `arm` leaves it.
- SdTrial.TrialInvariant: two commands running at once are not modelled.
- GrubEnv.Env.Parse: bytes that are not UTF-8 are kept as they are, where the program replaces them.
- GrubEnv.TrialRoundTrip: only ASCII white space is trimmed around the counter.
- Kernel.CheckKernel: which of the errors is reported, and its wording, are not stated.
- Commands.Host.CmdBoot: `setup` is not a step; its result is a parameter that decides the exit code.
- Time: the timeouts of commands, scripts and the watchdog. The watchdog is a step that may happen while it runs.
- Processes, `systemctl`, mounts, freezing /boot and `bootc` itself: each is an outcome that may be anything. Of the EFI variables the counter of the boot is an outcome at each reading (`Unread`); `LoaderFeatures` belongs to `setup`.
- `bootc status` (JSON), `ostree admin status` and configuration parsing: the model starts from what they report.
- Preflight of kernel arguments, fstab, compression magic and the presence of the tool, and the external decompressors: one answer, pass or fail.
- `entry_verity`, the path in `LoaderBootCountPath` and `sources_custom_cfg`: line filters.
- `clear`, `status`, `report`, `preflight` as commands, notices, hooks and log messages.
- Shell scripts, container files, ISO building and the rest of the repository.
