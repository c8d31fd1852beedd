# Verification model of the Thesada firmware core

A Dafny model of the parts of `lib/thesada-core` whose correctness spans many
calls, resets or threads, with proofs about every input and every run. Each
fallible external call (NVS, flash, file system, sockets) is a boolean of the
step's environment, so the run theorems hold for every pattern of failures
unless a row names the reads or writes that must work.

`dafny verify dfyconfig.toml` checks the whole project.

| files | component |
|---|---|
| `OtaHealth`, `OtaGuard`, `OtaUpdate`, `OtaRuns`, `OtaLaws` | two-slot boot guard: bootloader, crash streak, switch, confirm |
| `OtaFled`, `OtaFledRuns` | the 24 h skip of a release the guard fled from |
| `OtaJoint`, `OtaCycle` | guard and fled record together, one release offered again and again |
| `OtaDownload` | resuming Range download |
| `MqttRollback`, `MqttRuns`, `MqttLaws` | broker reboot budget and last-good rollback |
| `CmdConfig`, `CmdConfigScan`, `CmdConfigGrammar`, `CmdConfigProof`, `CmdConfigVerdict` | scanner for pushed configs |
| `Glob` | one-backtrack glob matcher |
| `CliPage`, `CliReply` | paging of CLI replies |
| `Mesh`, `MeshCodec`, `MeshExtra` | Meshtastic header and Data codec |
| `LoginRate`, `LoginRuns`, `LoginLaws` | login lockout table |
| `ConfigStore`, `ConfigRuns`, `ConfigPlain` | live config, file and held topic prefix |
| `HttpJobs`, `EnrollJobs` | heap jobs shared by main loop and worker tasks |
| `FatCommit` | upload commit on FAT |
| `ClockFloor` | day number and build epoch |
| `Options`, `ByteStrings` | shared types |

Where the source updates state in place, a class has the same fields and its
methods are proved to move the whole state as a transition function says; the
run theorems are about that function. Integers are unbounded except where the
source's width matters, and there the wrap is written out (32-bit streak,
`millis()`, packed fled word, base-128 numbers, build epoch).

## What the proofs found

- Glob matching is wrong for some patterns whenever the name holds a literal
  `*`, and only then (`Glob.RightForName`).
- CLI paging needs 20 free bytes on an empty page, exactly; 19 for valid UTF-8
  (`CliPage.TwentyIsExact`, `CliPage.NineteenIsExactForUtf8`).
- Rolling back to a last-good config whose `port` is missing or no integer that
  fits 32 bits, such as `"8883"` or 3000000000, dials port 0 instead of 8883
  (`MqttRuns.RollbackEndpoint`, `MqttRuns.RollbackToMissingPort`).
- A bad broker edit is rolled back unless the last-good text was once stored
  while the write of its flag failed: no later session of that config sets the
  flag, so it is never rolled back to (`MqttLaws.BadEditIsRolledBack`,
  `MqttLaws.LostFlagStays`, `MqttLaws.FlagCanBeLost`).
- The Data decoder reads one-byte tags and numbers of at most five bytes: all
  number fields of a length are skipped exactly when the field number is below
  16 and the length at most five. Its comment promises this for every field that
  is not malformed (`MeshExtra.SkippedIffNarrow`, `MeshExtra.SkippedExactly`).
- The guard leaves a second time only after an image was written or an arrival
  record could be lost, and one lost record is enough; no other failed call
  matters (`OtaRuns.NoPingPong`, `OtaRuns.LostRecordCostsASwitch`).
- A boot that cannot read the fled record downloads at every check until a
  download installs; beside forced checks nothing else goes past two downloads a
  day (`OtaFledRuns.RecordedBudget`,
  `OtaFledRuns.RecordedBudgetReached`).
- `fatCommit` keeps a copy through every failure unless there was no old file,
  the rename fails and the remove after it works (`FatCommit.Commit`,
  `FatCommit.UploadCanBeLost`).
- A shell write that turns the prefix into something else than a string drops
  the held boot prefix (`ConfigRuns.OverlayKeptIff`).
- A reload that cannot open the file keeps the boot prefix live but forgets that
  it was held, so the next save overwrites the pushed one
  (`ConfigRuns.UnopenedReloadForgets`).
- The build epoch wraps for stamps from 2106-02-08 06:28:16 on
  (`ClockFloor.FloorWraps`).

## Model

| member | source | states |
|---|---|---|
| OtaUpdate.BootGuard.VerifyRollbackLater | lib/thesada-core/src/OTAUpdate.cpp:80-97 | new device state of the early boot; defers unless a rescue flag is cleared and honoured |
| OtaUpdate.BootGuard.InitArduino | lib/thesada-core/src/OTAUpdate.cpp:77-97 | the core confirms a pending image only when told not to defer |
| OtaUpdate.BootGuard.TakePlanned | lib/thesada-core/src/ota_health_policy.h:79-85 | reads the planned word and leaves it zero |
| OtaUpdate.BootGuard.UpdateLeft | lib/thesada-core/src/OTAUpdate.cpp:358-387 | stale left record removed, arrival recorded |
| OtaUpdate.BootGuard.StoreStreak | lib/thesada-core/src/OTAUpdate.cpp:404-451 | brownout and crash counters, with a failed write leaving the streak unread |
| OtaUpdate.BootGuard.RecordStreak | lib/thesada-core/src/OTAUpdate.cpp:389-451 | whole new state of a boot's accounting; what it stores is `OtaRuns.ResetTable`, `OtaRuns.InstallStartsAtOne` and `OtaRuns.StreakAccounting` |
| OtaUpdate.BootGuard.RollbackTarget | lib/thesada-core/src/OTAUpdate.cpp:307-347 | the other slot exactly when it is valid, verifies and is not the recorded left image |
| OtaUpdate.BootGuard.ArmRescue | lib/thesada-core/src/OTAUpdate.cpp:157-172 | streak zeroed before the flag; armed only if every write lands |
| OtaUpdate.BootGuard.RollbackPending | lib/thesada-core/src/OTAUpdate.cpp:480-505 | the guard on a pending image |
| OtaUpdate.BootGuard.RollbackValid | lib/thesada-core/src/OTAUpdate.cpp:506-534 | the guard on a valid image |
| OtaUpdate.BootGuard.RollbackIfCrashLoop | lib/thesada-core/src/OTAUpdate.cpp:470-534 | acts only on a known streak at the limit; whole new state |
| OtaUpdate.BootGuard.MarkProvenOnBroker | lib/thesada-core/src/OTAUpdate.cpp:133-153 | proven id stored once per boot after a session |
| OtaUpdate.BootGuard.SettleHealthy | lib/thesada-core/src/OTAUpdate.cpp:539-594 | streak cleared and USB image marked after a settled hour |
| OtaUpdate.BootGuard.ConfirmIfHealthy | lib/thesada-core/src/OTAUpdate.cpp:558-605 | whole new state of a main loop turn |
| OtaUpdate.BootGuard.PowerUp | lib/thesada-core/src/OTAUpdate.cpp:80-534 | a whole boot: bootloader, early boot, accounting, guard |
| OtaRuns.BootAfterSwitch | lib/thesada-core/src/OTAUpdate.cpp:358-387 | the boot after a switch records the image that was left, and stays |
| OtaRuns.BootRecorded | lib/thesada-core/src/OTAUpdate.cpp:307-347 | a device that recorded a left image never leaves for it: it stays, or the image it is on is aborted |
| OtaRuns.StepBudget | lib/thesada-core/src/OTAUpdate.cpp:470-534 | per event, a leave is paid for by a slot write or an arrival whose record could be lost; no other failed call pays |
| OtaRuns.RunBudget | lib/thesada-core/src/OTAUpdate.cpp:307-534 | the same over whole runs from any coherent state |
| OtaRuns.NoPingPong | lib/thesada-core/src/OTAUpdate.cpp:307-534 | in every run the guard leaves a running image at most once plus the slot writes and the arrivals whose record could be lost |
| OtaRuns.NeverReturns | lib/thesada-core/src/OTAUpdate.cpp:307-387 | after an arrival that recorded, no switch back while no slot is written, whatever calls fail from then on |
| OtaRuns.LostRecordCostsASwitch | lib/thesada-core/src/OTAUpdate.cpp:358-387 | the bound is reached: a run with one lost record, no slot write and two leaves |
| OtaRuns.HealthGate | lib/thesada-core/src/OTAUpdate.cpp:480-604 | an image installed through a planned restart reads Valid only if the step that made it so was a loop turn with the gate open for it or a guard that found no other slot, whatever rescue flag was left |
| OtaRuns.RunOnTrial | lib/thesada-core/src/ota_health_policy.h:138-207 | the invariant behind it: on trial until such a step confirms, through every gate-open turn whose writes fail |
| OtaRuns.GateConfirms | lib/thesada-core/src/OTAUpdate.cpp:558-605 | a loop turn confirms a pending image if and only if it sees it pending, the gate is open and both writes land |
| OtaRuns.RestartsNeverFire | lib/thesada-core/src/ota_health_policy.h:95-103 | no number of operator restarts, or broker restarts with a matching proven id, of a confirmed image brings the guard to fire, let alone leave |
| OtaRuns.SessionProves | lib/thesada-core/src/OTAUpdate.cpp:133-153 | a turn with a broker session stores the running image as proven |
| OtaRuns.StreakBound | lib/thesada-core/src/ota_health_policy.h:128-133 | the stored streak never exceeds the counted boots, lost writes or not |
| OtaRuns.FiresOnlyAfterThree | lib/thesada-core/src/ota_health_policy.h:174-176 | from a zero streak the guard fires only after three counted boots |
| OtaRuns.StreakAccounting | lib/thesada-core/src/OTAUpdate.cpp:389-451 | while counter writes land, the streak is exactly the counted boots since the last clearing event, counted by the listed reset reasons and markers, an install starting at one |
| OtaRuns.ResetTable | lib/thesada-core/src/ota_health_policy.h:47-133 | with nothing planned the boot stores 0 after a power-on or wake, one more modulo 2^32 after a software reset, panic or watchdog, and the same otherwise |
| OtaRuns.ClassListed | lib/thesada-core/src/ota_health_policy.h:50-103 | the class of every boot by reset reason, marker word, image state and proven id |
| OtaRuns.InstallStartsAtOne | lib/thesada-core/src/ota_health_policy.h:93-133 | the first boot of an installed image stores a streak of one, whatever the installing image left, and the guard does not fire |
| OtaRuns.GuardZeroes | lib/thesada-core/src/OTAUpdate.cpp:470-534 | exactly when the guard zeroes the stored streak |
| OtaRuns.TurnZeroes | lib/thesada-core/src/OTAUpdate.cpp:558-605 | exactly when a loop turn zeroes it |
| OtaLaws.GuardLeavesIff | lib/thesada-core/src/OTAUpdate.cpp:470-534 | the guard leaves if and only if the streak is known and three or more and every call of its path works; the streak is zero then and the other image boots, with the flag set or the given-up image invalid |
| OtaLaws.NowhereToGo | lib/thesada-core/src/OTAUpdate.cpp:480-505 | a pending image at the limit without a target is confirmed, its streak cleared or not |
| OtaLaws.FailedSwitchDisarms | lib/thesada-core/src/OTAUpdate.cpp:506-534 | a switch whose boot slot cannot be set stays and takes its flag back when that write lands |
| OtaLaws.TargetListed | lib/thesada-core/src/OTAUpdate.cpp:307-347 | the other slot is a target if and only if it is valid, whole and not the image recorded as left |
| OtaLaws.ArrivalIsConfirmed | lib/thesada-core/src/OTAUpdate.cpp:80-97 | the core confirms the image a switch boots and the flag is gone |
| OtaLaws.PlannedRestartIgnoresFlag | lib/thesada-core/src/ota_health_policy.h:189-194 | behind a planned restart a leftover flag confirms nothing and is cleared |
| OtaLaws.BrownoutsCounted | lib/thesada-core/src/OTAUpdate.cpp:404-451 | brownouts are counted on their own and leave the streak |
| OtaLaws.StaleLeftRemoved | lib/thesada-core/src/OTAUpdate.cpp:358-387 | no boot keeps a record that names the slot it runs from, so a rewritten build there can be a target again |
| OtaLaws.LeftIsKept | lib/thesada-core/src/OTAUpdate.cpp:358-387 | a record of the other slot survives every boot that is no arrival |
| OtaLaws.NoArrivalNoRecord | lib/thesada-core/src/OTAUpdate.cpp:358-387 | a boot of an image that is not pending records nothing, whatever flag it finds |
| OtaLaws.UnreadStreakHolds | lib/thesada-core/src/OTAUpdate.cpp:404-472 | a streak that could not be read or stored keeps the device on its image and the gate shut |
| OtaLaws.GateListed | lib/thesada-core/src/ota_health_policy.h:135-145 | the gate is open if and only if the streak is known and below three and a session was up or five minutes passed |
| OtaLaws.HealthyIsConfirmed | lib/thesada-core/src/OTAUpdate.cpp:558-605 | a pending image behind an open gate is confirmed and its streak cleared by the turn whose writes land |
| OtaLaws.UsbMarkedIff | lib/thesada-core/src/OTAUpdate.cpp:539-594 | a USB image is marked valid if and only if an hour settled, the streak is known and cleared, and it is the boot slot |
| OtaLaws.FailedClearWaits | lib/thesada-core/src/OTAUpdate.cpp:571-594 | a clear that failed is not tried again for an hour |
| OtaLaws.ProvenOncePerBoot | lib/thesada-core/src/OTAUpdate.cpp:133-153 | the proven id is tried once a boot and only with a session |
| OtaLaws.CrashLoopIsEscaped | lib/thesada-core/src/OTAUpdate.cpp:80-534 | three crashes of a confirmed image, then one more boot: the device runs the other image, confirmed, with the left one recorded |
| OtaFled.UnpackPack | lib/thesada-core/src/ota_verify_policy.h:144-158 | unpacking a packed record gives it back, age held at 24 h |
| OtaFled.PackUnpack | lib/thesada-core/src/ota_verify_policy.h:144-158 | packing an unpacked word gives it back exactly when its age field is at most 24 h |
| OtaFled.FledRecord.LoadFled | lib/thesada-core/src/OTAUpdate.cpp:226-239 | NVS and RTC carry taken once per boot; an unreadable record leaves no release recorded in this boot |
| OtaFled.FledRecord.PutFledRecord | lib/thesada-core/src/OTAUpdate.cpp:204-212 | age first, so a version is only stored beside a fresh age |
| OtaFled.FledRecord.SaveFled | lib/thesada-core/src/OTAUpdate.cpp:257-269 | RAM moves on whether or not the write lands |
| OtaFled.FledRecord.RecordInstalledBuild | lib/thesada-core/src/OTAUpdate.cpp:273-278 | an install is recorded unless the record names it already |
| OtaFled.FledRecord.DropOwnFledRecord | lib/thesada-core/src/OTAUpdate.cpp:282-290 | a record naming the running build is dropped, from RAM even when NVS keeps it |
| OtaFled.FledRecord.AgeFledRelease | lib/thesada-core/src/OTAUpdate.cpp:294-303 | periodic aging; what it notes or stores is `OtaFled.TurnNotesOrSaves` |
| OtaFled.FledRecord.Gate | lib/thesada-core/src/OTAUpdate.cpp:1198-1229 | skip, retry or last try; `OtaFled.ForcedPasses` and `OtaFled.OthersPass` say what goes through |
| OtaFled.ForcedPasses | lib/thesada-core/src/OTAUpdate.cpp:1198-1229 | a forced check of any release downloads, for every record, clock and failure, and changes nothing but the load |
| OtaFled.OthersPass | lib/thesada-core/src/ota_verify_policy.h:206-212 | so does an unforced check of a release that is not the recorded one or does not parse |
| OtaFled.RefusedForADay | lib/thesada-core/src/OTAUpdate.cpp:1203-1209 | the recorded release is refused while its age is below 86400 s, and the first refusal of a boot stores that age |
| OtaFled.TimeOffCounts | lib/thesada-core/src/ota_verify_policy.h:167-187 | the age is the saved one plus uptime plus, on a boot's first, the time off the clock shows up to an hour, held at a day |
| OtaFled.NotedSecondsComeBack | lib/thesada-core/src/ota_verify_policy.h:160-165 | seconds noted in RTC memory come back after a reset, up to twenty minutes |
| OtaFled.TurnNotesOrSaves | lib/thesada-core/src/OTAUpdate.cpp:294-303 | a turn of another build notes its seconds, or from ten minutes on stores the age |
| OtaFled.InstallRecords | lib/thesada-core/src/OTAUpdate.cpp:204-278 | an install of the recorded build keeps its age and tries, one of another build starts a fresh day, and a failed age write changes nothing |
| OtaFled.OwnRecordGoes | lib/thesada-core/src/OTAUpdate.cpp:282-290 | the record of the running build goes from RAM, and from NVS when the removal lands; no other does |
| OtaFledRuns.RunSound | lib/thesada-core/src/OTAUpdate.cpp:185-303 | the age invariant over loops, checks, forced checks, resets, power-ons, records written and dropped, failed reads and writes |
| OtaFledRuns.SkipAgeIsSound | lib/thesada-core/src/ota_verify_policy.h:160-186 | days closed plus present age never exceed real time since the start; an arbitrary clock adds at most an hour per boot |
| OtaFledRuns.FledBudget | lib/thesada-core/src/ota_verify_policy.h:206-226 | in every run at most two downloads of a release for each full day, beside forced checks and the checks of boots that do not hold its record |
| OtaFledRuns.FreeAreOutside | lib/thesada-core/src/OTAUpdate.cpp:1198-1229 | every such check does download: the downloads no record pays for are exactly as many |
| OtaFledRuns.RecordedBudget | lib/thesada-core/src/ota_verify_policy.h:206-226 | while the record stays, those are exactly the forced checks and the checks of boots that could not read it |
| OtaFledRuns.RecordedBudgetReached | lib/thesada-core/src/OTAUpdate.cpp:224-235 | and on another build every number of such checks does download, in no time at all, as long as the downloads fail to install |
| OtaFledRuns.TryStoredFirst | lib/thesada-core/src/OTAUpdate.cpp:1198-1222 | a download of the recorded release starts only after its try is in NVS; a boot that does not hold the record stores nothing |
| OtaFledRuns.SkipEnds | lib/thesada-core/src/OTAUpdate.cpp:246-303 | after 24 h 2 min 25 s up without a reset the next check whose write lands downloads, whatever the clock shows and whatever reads and writes failed |
| OtaJoint.StepCost | lib/thesada-core/src/OTAUpdate.cpp:204-303 | per event of the joint machine, an install with no record in the way is paid for by a record that was lost, overwritten by a switch away from another build, unread at an install, or dropped by a release that is not yet what the bootloader picks; no other event pays |
| OtaJoint.BootKeepsFirm | lib/thesada-core/src/OTAUpdate.cpp:470-534 | a confirmed release that the bootloader picks stays until the guard switches away and records it |
| OtaJoint.InstallBudget | lib/thesada-core/src/OTAUpdate.cpp:185-605 | however a release boots, crashes, is aborted, confirmed or left, unforced checks install it at most once, then twice for each full day, plus once for each of those costs |
| OtaJoint.InstallLeavesRecord | lib/thesada-core/src/OTAUpdate.cpp:271-278 | an install leaves a fresh record of the release, or the age and tries of the one it had |
| OtaJoint.SwitchLeavesRecord | lib/thesada-core/src/OTAUpdate.cpp:204-222 | a switch records the build it leaves, with a fresh day |
| OtaJoint.ConfirmDropsRecord | lib/thesada-core/src/OTAUpdate.cpp:562-605 | a build that turns out confirmed drops the record that names it |
| OtaCycle.CycleIsFree | lib/thesada-core/src/OTAUpdate.cpp:271-290 | with record calls that work and no switch, no event of the cycle costs anything, ordinary boots and turns of the other build included |
| OtaCycle.OnceThenTwiceADay | docs/invariants.md:609 | a release that is aborted, rolled back or confirmed as it likes is installed once, and then at most twice for each full day |
| OtaDownload.Receive | lib/thesada-core/src/OTAUpdate.cpp:876-887 | only an accepted reply reaches the writer, as a prefix that fits the range, and all of it while writes are taken |
| OtaDownload.FetchRange | lib/thesada-core/src/OTAUpdate.cpp:864-909 | a range in up to three requests continues the image; done exactly when complete, and always done when no reply is a refusal and one of any three fills its range |
| OtaDownload.Download | lib/thesada-core/src/OTAUpdate.cpp:830-924 | true exactly when the writer took bytes 0 to expectedSize-1, in order and once; always a prefix; at most three requests for each 256 KiB; true whenever writes are taken, no reply is a refusal and one of any three fills its range |
| MqttRollback.Client.SnapshotGoodConfig | lib/thesada-core/src/MQTTClient.cpp:738-759 | last-good stored only for the endpoint that connected |
| MqttRollback.Client.Connected | lib/thesada-core/src/MQTTClient.cpp:929-939 | success arm; `MqttLaws.SessionRenews` and `MqttLaws.SessionSnapshots` say what it leaves |
| MqttRollback.Client.RebootExhausted | lib/thesada-core/src/MQTTClient.cpp:1000-1029 | budgeted exhaustion restart |
| MqttRollback.Client.Failed | lib/thesada-core/src/MQTTClient.cpp:969-1029 | failure arm with defrag and exhaustion paths |
| MqttRollback.Client.RollbackIfUncommitted | lib/thesada-core/src/MQTTClient.cpp:764-793 | rollback and the budget reset it brings |
| MqttRollback.Client.Restart | lib/thesada-core/src/MQTTClient.cpp:495-793 | a boot: rollback first, then host and port, a 32-bit integer by its low 16 bits and anything else as 8883 |
| MqttRuns.StepLeft | lib/thesada-core/src/MQTTClient.cpp:969-1029 | the restart measure falls with every restart that nothing renews |
| MqttRuns.RebootBound | lib/thesada-core/src/MQTTClient.cpp:663-1029 | restarts plus the measure left are bounded by twice the budget, renewals and lost counts |
| MqttRuns.NoRebootLoop | lib/thesada-core/src/MQTTClient.cpp:663-1029 | with nothing renewed or lost, at most 2 max_exhaust_reboots restarts |
| MqttRuns.TwoBudgetsReached | lib/thesada-core/src/MQTTClient.cpp:764-1029 | for every budget some run uses it up twice, so the bound is the least one |
| MqttRuns.ProvenNeverRolledBack | lib/thesada-core/src/MQTTClient.cpp:738-793 | a proven config stays until the next edit |
| MqttRuns.SessionProtectsConfig | lib/thesada-core/src/mqtt_rollback_policy.h:12-28 | from any device: a session on the config's own broker and port protects it in every later run without an edit |
| MqttRuns.RollbackExactly | lib/thesada-core/src/MQTTClient.cpp:764-793 | when a boot rolls back, and the file, count and failing config it leaves |
| MqttRuns.RollbackEndpoint | lib/thesada-core/src/MQTTClient.cpp:725-786 | a rollback brings back the snapshot keys, and the dialed port if and only if the key holds an integer that fits 32 bits |
| MqttRuns.RollbackToMissingPort | lib/thesada-core/src/MQTTClient.cpp:775-786 | last-good whose port is missing or no 32-bit integer dialed 8883; after the rollback the device dials port 0 |
| MqttLaws.SessionRenews | lib/thesada-core/src/MQTTClient.cpp:929-939 | a session leaves no failed tries, no halt, and, where the writes land, count 0 and no failing config |
| MqttLaws.SessionSnapshots | lib/thesada-core/src/MQTTClient.cpp:738-759 | a session on the config's own endpoint stores it as last-good; the flag is set afterwards if and only if it was or the text is new |
| MqttLaws.RestartsIff | lib/thesada-core/src/MQTTClient.cpp:969-1029 | a failure restarts the device if and only if the budget allows it, nothing halted it, and its tries are spent or its heap is fragmented from the third on |
| MqttLaws.HaltsWhenSpent | lib/thesada-core/src/MQTTClient.cpp:1000-1029 | with the budget spent it halts and stores nothing |
| MqttLaws.BootDials | lib/thesada-core/src/MQTTClient.cpp:495-793 | a boot with nothing to roll back dials the file's broker and port |
| MqttLaws.FitsIsLength | lib/thesada-core/src/MQTTClient.cpp:725-745 | a snapshot is taken if and only if its serialized text is shorter than 384 bytes |
| MqttLaws.SessionGivesBudget | lib/thesada-core/src/MQTTClient.cpp:929-1029 | after any session whose clear lands some run without a renewal or a lost count restarts the device as often as its whole budget |
| MqttLaws.BadEditIsRolledBack | lib/thesada-core/src/MQTTClient.cpp:738-1029 | a config that connected and an edit that never does: the restart brings the connected one back if and only if its flag was set or its text was new |
| MqttLaws.LostFlagStays | lib/thesada-core/src/MQTTClient.cpp:747-757 | a last-good text without its flag gets none from any later session |
| MqttLaws.FlagCanBeLost | lib/thesada-core/src/MQTTClient.cpp:751-755 | one session whose second write fails leaves it so |
| Glob.GlobMatch | lib/thesada-core/src/glob_policy.h:15-27 | the loop: true answers are right; exact when pattern or name has no star; terminates |
| Glob.GlobSound | lib/thesada-core/src/glob_policy.h:15-27 | a true answer is always a match |
| Glob.GlobExact | lib/thesada-core/src/glob_policy.h:15-27 | agrees with the recursive definition when pattern or name has no star |
| Glob.RightForName | lib/thesada-core/src/glob_policy.h:15-27 | right for every pattern if and only if the name has no literal star |
| Glob.RightForPattern | lib/thesada-core/src/glob_policy.h:15-27 | right for every name if and only if the pattern has no star |
| CmdConfigScan.Scanner.String | lib/thesada-core/src/cmd_config_policy.h:51-71 | cursor moves to the end of the string, inside the payload |
| CmdConfigScan.Scanner.KeyMatches | lib/thesada-core/src/cmd_config_policy.h:73-82 | byte comparison of a key |
| CmdConfigScan.Scanner.Number | lib/thesada-core/src/cmd_config_policy.h:84-102 | cursor after a number |
| CmdConfigScan.Scanner.Container | lib/thesada-core/src/cmd_config_policy.h:108-140 | cursor after a container, depth restored |
| CmdConfigScan.Scanner.Value | lib/thesada-core/src/cmd_config_policy.h:142-153 | cursor after a value, depth restored |
| CmdConfigScan.Scanner.Mqtt | lib/thesada-core/src/cmd_config_policy.h:155-200 | the mqtt object |
| CmdConfigScan.Scanner.Broker | lib/thesada-core/src/cmd_config_policy.h:202-250 | the whole payload |
| CmdConfigScan.Decide | lib/thesada-core/src/cmd_config_policy.h:252-260 | the verdict, never reading outside the payload |
| CmdConfigProof.ValueFound | lib/thesada-core/src/cmd_config_policy.h:142-153 | every accepted value stands in the text as a well-formed tree within the depth |
| CmdConfigProof.ItemsFound | lib/thesada-core/src/cmd_config_policy.h:108-140 | every accepted member list does |
| CmdConfigProof.ValueEnds | lib/thesada-core/src/cmd_config_policy.h:142-153 | every well-formed tree within the depth is scanned to its end |
| CmdConfigProof.ItemsEnds | lib/thesada-core/src/cmd_config_policy.h:108-140 | every well-formed member list is |
| CmdConfigVerdict.ScanIsExact | lib/thesada-core/src/cmd_config_policy.h:202-250 | the scan accepts exactly the documents of the grammar and says whether they name a broker |
| CmdConfigVerdict.VerdictIsExact | lib/thesada-core/src/cmd_config_policy.h:252-260 | OK, broker refusal and TLS refusal, each if and only if |
| CliPage.JsonStrLen | lib/thesada-core/src/cli_page_policy.h:32-51 | the length of the escaped text |
| CliPage.Utf8Cut | lib/thesada-core/src/cli_page_policy.h:55-65 | the cut position |
| CliPage.CutKeepsUtf8 | lib/thesada-core/src/cli_page_policy.h:53-65 | a valid string is cut into two valid strings, at the last possible place |
| CliPage.JsonFit | lib/thesada-core/src/cli_page_policy.h:69-80 | the piece length |
| CliPage.FitLenIsLongest | lib/thesada-core/src/cli_page_policy.h:67-80 | a prefix fits exactly when it is no longer than the fitted one |
| CliPage.NextPiece | lib/thesada-core/src/cli_page_policy.h:84-93 | piece and split flag |
| CliPage.PieceFits | lib/thesada-core/src/cli_page_policy.h:84-93 | a piece fits its page, with cont when split |
| CliPage.PieceKeepsUtf8 | lib/thesada-core/src/cli_page_policy.h:69-93 | both sides of a split stay valid UTF-8 |
| CliPage.PieceIsLongest | lib/thesada-core/src/cli_page_policy.h:67-80 | of a valid string the piece is the longest prefix of whole characters that fits |
| CliPage.PieceIsNearlyLongest | lib/thesada-core/src/cli_page_policy.h:53-80 | of any string it is at most three bytes shorter than what fits, and all of it when that fits |
| CliPage.TwentyIsExact | lib/thesada-core/src/cli_page_policy.h:82-93 | every line makes progress on a page if and only if it has 20 bytes left |
| CliPage.NineteenIsExactForUtf8 | lib/thesada-core/src/cli_page_policy.h:82-93 | for valid UTF-8 lines, if and only if 19 |
| CliReply.SizeIsLength | lib/thesada-core/src/MQTTClient.cpp:1783-1793 | the page size the loop measures is the length of the serialized page |
| CliReply.Pager.Flush | lib/thesada-core/src/MQTTClient.cpp:1813-1818 | a full page goes out below the cap and the next one starts |
| CliReply.Pager.Line | lib/thesada-core/src/MQTTClient.cpp:1807-1834 | one line is read back whole or dropped on a page without room; one that fits the page goes on it; terminates |
| CliReply.Pager.Finish | lib/thesada-core/src/MQTTClient.cpp:1835-1837 | the last page |
| CliReply.RunLines | lib/thesada-core/src/MQTTClient.cpp:1805-1834 | all lines of a command are read back, or one was dropped on a page without 20 bytes; pages are bounded by lines and bytes |
| CliReply.Reply | lib/thesada-core/src/MQTTClient.cpp:1776-1837 | the number of pages is bounded by the lines; with 20 bytes to spare on every empty page of that number, the reader joins exactly the lines; lines that fit one page go out on one; an ok last page means nothing was lost; pages fit the cap; valid UTF-8 stays valid |
| Mesh.ParsePackIsIdentity | lib/thesada-core/src/meshtastic_frame.h:47-71 | pack then parse is the identity if and only if both hop counts fit three bits |
| Mesh.PackParse | lib/thesada-core/src/meshtastic_frame.h:47-71 | parse then pack gives back all 16 header bytes |
| Mesh.SplitOfFrame | lib/thesada-core/src/meshtastic_frame.h:195-211 | splitting undoes building |
| Mesh.FrameOfSplit | lib/thesada-core/src/meshtastic_frame.h:195-211 | building undoes splitting |
| Mesh.WordIsText | lib/thesada-core/src/meshtastic_frame.h:75-84 | every 32-bit number has a base-128 text of at most five bytes with that value |
| Mesh.Decode | lib/thesada-core/src/meshtastic_frame.h:126-174 | the payload view lies in the buffer |
| Mesh.DecodeIsMeaning | lib/thesada-core/src/meshtastic_frame.h:122-174 | decoding any sequence of fields gives the last port and the last payload |
| Mesh.DecodeIsExact | lib/thesada-core/src/meshtastic_frame.h:122-174 | the decoder accepts exactly the field sequences with a payload, and returns what they say |
| Mesh.DecodeOfEncode | lib/thesada-core/src/meshtastic_frame.h:103-174 | decode undoes encode |
| Mesh.RoundTrip | lib/thesada-core/src/meshtastic_frame.h:103-174 | extra fields before, between and after change nothing |
| MeshExtra.LongNumberRefused | lib/thesada-core/src/meshtastic_frame.h:86-99 | a number of more than five bytes makes the decoder refuse |
| MeshExtra.AcceptedIffFields | lib/thesada-core/src/meshtastic_frame.h:122-174 | what follows a message is accepted if and only if it is fields |
| MeshExtra.WideSkippedIff | lib/thesada-core/src/meshtastic_frame.h:122-174 | behind a tag of two or more bytes the number is skipped if and only if its own bytes read as fields |
| MeshExtra.SkippedExactly | lib/thesada-core/src/meshtastic_frame.h:122-174 | for every field number and every base-128 number of any length, when the decoder skips it |
| MeshExtra.SkippedIffNarrow | lib/thesada-core/src/meshtastic_frame.h:122-174 | all numbers of a length are skipped if and only if the field number is below 16 and the length at most five |
| MeshCodec.HeaderPack | lib/thesada-core/src/meshtastic_frame.h:47-56 | writes the 16 bytes and nothing else |
| MeshCodec.VarintWrite | lib/thesada-core/src/meshtastic_frame.h:75-84 | writes the number, or 0 exactly when it does not fit |
| MeshCodec.VarintRead | lib/thesada-core/src/meshtastic_frame.h:88-99 | value modulo 2^32 and next offset, or refusal |
| MeshCodec.DataEncode | lib/thesada-core/src/meshtastic_frame.h:104-120 | the message bytes, or 0 exactly when they do not fit |
| MeshCodec.DataDecode | lib/thesada-core/src/meshtastic_frame.h:126-174 | the loop computes Decode |
| MeshCodec.FrameBuild | lib/thesada-core/src/meshtastic_frame.h:196-202 | the frame bytes, or nothing changed |
| LoginRate.LoginRateTable.Allow | lib/thesada-core/src/login_rate_policy.h:24-28 | answer and aged table |
| LoginRate.LoginRateTable.Fail | lib/thesada-core/src/login_rate_policy.h:33-48 | counted failure; `LoginLaws` says on which entry |
| LoginRate.LoginRateTable.Reset | lib/thesada-core/src/login_rate_policy.h:52-55 | success forgets the address |
| LoginRate.LoginRateTable.FindSlot | lib/thesada-core/src/login_rate_policy.h:80-89 | slot of an address, aged |
| LoginRate.LoginRateTable.FreeSlot | lib/thesada-core/src/login_rate_policy.h:93-99 | first free slot, slots aged on the way |
| LoginRuns.RunIsSound | lib/thesada-core/src/login_rate_policy.h:24-106 | in every run slots hold distinct addresses and entries match their counted failures |
| LoginRuns.GuessBudget | lib/thesada-core/src/login_rate_policy.h:33-48 | in one life of an entry each failure after the fifth comes at least 30 s after the one before |
| LoginRuns.LockedIsRefused | lib/thesada-core/src/login_rate_policy.h:24-28 | a locked address is refused until its deadline in every run without its success |
| LoginRuns.RefusedExactly | lib/thesada-core/src/login_rate_policy.h:22-28 | an address is refused if and only if its own slot is locked, or it has none, none is free and the shared entry is locked |
| LoginRuns.LiveIsKept | lib/thesada-core/src/login_rate_policy.h:67-99 | a live entry is never evicted, and its count falls at most to one below the limit |
| LoginLaws.FailCountsOnOwnSlot | lib/thesada-core/src/login_rate_policy.h:33-48 | a failure of an address with a live slot counts there once and changes nothing else |
| LoginLaws.FailTakesFreeSlot | lib/thesada-core/src/login_rate_policy.h:36-48 | a new address takes a slot that is free or has gone quiet, with a count of one |
| LoginLaws.FailOverflows | lib/thesada-core/src/login_rate_policy.h:36-48 | without such a slot the failure counts on the shared entry and no slot changes hands |
| LoginLaws.FailLeavesOneSlot | lib/thesada-core/src/login_rate_policy.h:33-48 | no two slots hold the address afterwards |
| LoginLaws.FiveGuessesLock | lib/thesada-core/src/login_rate_policy.h:22-48 | five failures of an address that found a slot, each within ten minutes of the one before and with no success between, whatever others do: refused until 30 s after the fifth, served from then on |
| LoginLaws.ReleasedAtDeadline | lib/thesada-core/src/login_rate_policy.h:65-76 | at the deadline the address is served, and one more failure locks it for 30 s again |
| LoginLaws.ForgottenWhenQuiet | lib/thesada-core/src/login_rate_policy.h:65-99 | after ten quiet minutes it is served and its slot is free |
| LoginLaws.SuccessForgets | lib/thesada-core/src/login_rate_policy.h:50-55 | a success frees its slot and no other |
| LoginLaws.KeyIsText | lib/thesada-core/src/login_rate_policy.h:17-89 | an address is known by its first 45 characters |
| ConfigStore.Config.Load | lib/thesada-core/src/Config.cpp:44-61 | file into the live document, overlay dropped; an unopened file leaves the document, a malformed one clears it |
| ConfigStore.Config.Save | lib/thesada-core/src/Config.cpp:70-99 | the disk document is written and the live one restored |
| ConfigStore.Config.Replace | lib/thesada-core/src/Config.cpp:135-164 | new document or full rollback under the same overlay; `ConfigPlain.ReplaceStoresDocument` says what a landed one stores |
| ConfigStore.Config.HoldTopicPrefix | lib/thesada-core/src/Config.cpp:170-205 | overlay set, or refused for type or length |
| ConfigStore.Config.CopyBootTopicPrefix | lib/thesada-core/src/Config.cpp:211-221 | the held live prefix |
| ConfigStore.Config.CopyDiskDoc | lib/thesada-core/src/Config.cpp:223-236 | the document without the overlay, or nothing when memory is short or there is no object |
| ConfigStore.Config.ApplyPush | lib/thesada-core/src/MQTTClient.cpp:409-465 | a push is refused for its text, a missing section or broker, or its prefix, else applied; `ConfigPlain.PushStoresDocument` says what is stored |
| ConfigStore.Config.ShellWrite | lib/thesada-core/src/Shell.cpp:825-844 | shell write, reload, overlay put back |
| ConfigStore.Config.ShellSave | lib/thesada-core/src/Shell.cpp:1044-1054 | config.save, refused when the copy fails |
| ConfigRuns.PrefixIsHeld | lib/thesada-core/src/Config.cpp:70-236 | over every run with a file that reads, the live prefix stays the boot value and the file holds the last pushed one or its absence |
| ConfigRuns.PushTakesEffectAtBoot | lib/thesada-core/src/MQTTClient.cpp:403-465 | the next boot takes up the last pushed prefix |
| ConfigRuns.SaveWritesDiskDoc | lib/thesada-core/src/Config.cpp:70-99 | a save writes exactly what copyDiskDoc shows and leaves the live document |
| ConfigRuns.FailedReplaceKeepsFile | lib/thesada-core/src/Config.cpp:135-164 | a failed replace leaves the file; when it reads, overlay and live prefix stay, and a later save writes the same file if and only if nothing is held or it has an mqtt section |
| ConfigRuns.UnreadReplace | lib/thesada-core/src/Config.cpp:135-164 | when the file does not read, the overlay stays if and only if what is left has no prefix or one that fits |
| ConfigRuns.OverlayKeptIff | lib/thesada-core/src/Shell.cpp:836-844 | a shell write keeps the overlay if and only if what is loaded after it has no prefix or a string that fits, for every way the read ends |
| ConfigRuns.UnopenedReloadForgets | lib/thesada-core/src/Config.cpp:44-61 | a reload that cannot open the file leaves the live prefix but not the hold, and the next save stores the live one |
| ConfigRuns.MalformedReloadClears | lib/thesada-core/src/Config.cpp:44-61 | a malformed file leaves an empty document and the default prefix |
| ConfigPlain.PushAppliedIff | lib/thesada-core/src/MQTTClient.cpp:409-465 | a push is applied if and only if it parses, names a broker, both prefixes fit and the write lands |
| ConfigPlain.PushStoresDocument | lib/thesada-core/src/MQTTClient.cpp:409-465 | an applied push stores its own document, all of it, and the live one differs in the prefix alone |
| ConfigPlain.ReplaceStoresDocument | lib/thesada-core/src/Config.cpp:135-164 | a replace that lands has the whole document live and in the file, with nothing held |
| ConfigPlain.ShellWriteStores | lib/thesada-core/src/Shell.cpp:825-844 | a shell write that lands stores the edited document and takes it up; one that does not changes nothing |
| ConfigPlain.ShellSaveStores | lib/thesada-core/src/Shell.cpp:1044-1054 | config.save stores the document without the overlay, or nothing |
| ConfigPlain.OverlayRefinesPlain | lib/thesada-core/src/Config.cpp:44-236 | in every run the file, and the live document but for its prefix, are those of a store without an overlay in which pushes, saves, writes and edits replace what they name |
| ConfigPlain.BootRefinesPlain | lib/thesada-core/src/Config.cpp:44-236 | the same from any boot |
| ConfigRuns.EmptySectionAppears | lib/thesada-core/src/Config.cpp:170-205 | a run of a push, a file written without the section and a push that does not land, after which a save writes an empty section |
| HttpJobs.FreedExactlyOnce | lib/thesada-core/src/Shell.cpp:1504-1665 | in every interleaving of any number of jobs, none is touched or freed after its free, and one that is over was freed exactly once |
| HttpJobs.JobStep | lib/thesada-core/src/http_fetch_policy.h:56-68 | ownership after every step of either side |
| HttpJobs.EveryJobCanEnd | lib/thesada-core/src/Shell.cpp:1504-1665 | from every reachable world at most four steps of a job's own two sides free it |
| EnrollJobs.OneTaskAtATime | lib/thesada-core/src/Enroll.cpp:271-513 | one request worker at a time; each job freed once, after its worker set done, none lost |
| EnrollJobs.HeldStep | lib/thesada-core/src/Enroll.cpp:472-513 | who holds the job after every access of loop or task |
| EnrollJobs.DoneJobIsFreed | lib/thesada-core/src/Enroll.cpp:472-513 | once the worker is done the loop frees its job, parked or not, and may start the next |
| EnrollJobs.OverrunIsParked | lib/thesada-core/src/Enroll.cpp:474-492 | a worker past the ceiling is parked: its job is left alone and no second one starts |
| FatCommit.Commit | lib/thesada-core/src/config_write_policy.h:74-98 | what each result code leaves, and that no intermediate state loses the last copy if and only if there was an old file, the rename works, or the remove after it fails |
| FatCommit.UploadCanBeLost | lib/thesada-core/src/config_write_policy.h:82-98 | without an old file a failed rename leaves no copy |
| ClockFloor.EpochIsZero | lib/thesada-core/src/clock_floor_policy.h:21-28 | 1970-01-01 is day 0 |
| ClockFloor.DayByDay | lib/thesada-core/src/clock_floor_policy.h:21-28 | the day number rises by one from every Gregorian date to the next, in all years |
| ClockFloor.CountsDays | lib/thesada-core/src/clock_floor_policy.h:21-28 | it counts the days along the calendar between any two dates |
| ClockFloor.OrderOfDays | lib/thesada-core/src/clock_floor_policy.h:21-28 | day numbers order dates, and no two dates share one |
| ClockFloor.BuildEpoch | lib/thesada-core/src/clock_floor_policy.h:33-73 | the parsed stamp's second count less a day in 32 bits, 0 when malformed |
| ClockFloor.StampRead | lib/thesada-core/src/clock_floor_policy.h:30-73 | every stamp a compiler writes reads back as its exact second count |
| ClockFloor.DateIsExact | lib/thesada-core/src/clock_floor_policy.h:33-59 | a date is read if and only if the text starts as a compiler writes it, with a day up to 31 and a year from 2023 |
| ClockFloor.TimeIsExact | lib/thesada-core/src/clock_floor_policy.h:60-69 | a time is read if and only if the text starts as one up to 23:59:60 |
| ClockFloor.FloorOfStamp | lib/thesada-core/src/clock_floor_policy.h:33-73 | exact minus one day if and only if that fits 32 bits |
| ClockFloor.FloorOrder | lib/thesada-core/src/clock_floor_policy.h:33-73 | build epochs order stamps as time does, below the wrap |
| ClockFloor.FloorWraps | lib/thesada-core/src/clock_floor_policy.h:71-72 | the first stamp whose epoch is back at zero |

## Left out

- Version string parsing and ordering: a version is the triple its string parses to, or none.
- Image ids: slot and hash as values; byte layouts and SHA-256 are not part of this model.
- The older guard's rescue value 1, USB flashing during a run, and power loss inside one NVS write.
- The IDF's choice of the otadata entry it marks: a mark goes to the running slot.
- Forced checks, uploads and releases other than the one offered: `OtaJoint` follows one release that the manifest keeps offering.
- LittleFS and NVS internals, and config documents that are no object or whose `mqtt` is none: the section is missing or an object.
- JSON member order after a save under the overlay: documents are compared as values.
- `config.reload`, the setup portal and enrollment writes as such: edits of the live document stand for them.
- `globSplit`, `globRmProtected`, upload path names and `configPathIsLive`: easy members.
- `nonceBuild`, `channelHash` and all cryptography: hashes and keys are values, nothing is claimed about authenticity.
- `HttpSlotClaim`, the HTTP preview buffer and the enrollment protocol's own steps: `HttpJobs` and `EnrollJobs` keep only the accesses to the job and who may make them.
- The CLI special cases before `Shell::execute` (`fs.cat`, `fs.write`, `cert.set`): `CliReply` is the paging loop; an allocation failure of a page is not modelled.
- Waiting, pacing and link probes of the download: only requests, replies and writes are modelled, and a refused write takes nothing.
- 64-bit uptime overflow in the lockout table.
- Modem traffic, TLS, HTTP and MQTT libraries, HTTP routes, sensors, logging, Home Assistant discovery and build scripts.
