/**
 The pure decisions of ota_health_policy.h: how a reset is classified, how the
 crash streak moves, which image a record names, when an image may be confirmed.
 Uint32 words are naturals; the streak wraps explicitly.
 */
module OtaHealth {
  import opened ByteStrings
  import opened Options

  const HEALTH_MIN_MS: nat := 5 * 60 * 1000
  const CRASH_LIMIT: nat := 3
  const SETTLE_MS: nat := 60 * 60 * 1000

  const RESTART_MAGIC: nat := 0x504C4E44
  const BROKER_MAGIC: nat := 0x4D515454

  /** The flag value this guard leaves; the older guard wrote 1. */
  const RESCUE_ID: nat := 2

  datatype ResetReason =
    | Unknown | PowerOn | Ext | Sw | Panic | IntWdt | TaskWdt | Wdt | DeepSleep | Brownout | Sdio

  datatype ResetClass = Clear | Hold | Crash | Fresh

  datatype Planned = Unplanned | Operator | Broker

  datatype SlotState = New | Pending | Valid | Invalid | Aborted | Undefined

  datatype SlotId = A | B {
    function Other(): SlotId { if this == A then B else A }
  }

  /** Slot address and ELF hash. Hash 0 stands for the all-zero hash. */
  datatype ImageId = ImageId(slot: SlotId, hash: nat)

  function ReasonClass(reason: ResetReason): ResetClass {
    match reason
    case PowerOn | DeepSleep => Clear
    case Sw | Panic | IntWdt | TaskWdt | Wdt => Crash
    case _ => Hold
  }

  function PlannedOf(marker: nat): Planned {
    if marker == RESTART_MAGIC then Operator
    else if marker == BROKER_MAGIC then Broker
    else Unplanned
  }

  predicate StateConfirmed(state: SlotState) {
    state == Valid || state == Undefined
  }

  function BootClass(reason: ResetReason, planned: Planned, confirmed: bool, proven: bool, pending: bool): ResetClass {
    if reason == Sw && planned != Unplanned && pending then Fresh
    else if reason == Sw && confirmed && (planned == Operator || (planned == Broker && proven)) then Hold
    else ReasonClass(reason)
  }

  /** No id exists for an empty hash: it would match every build. */
  function MakeImageId(slot: SlotId, hash: nat): Option<ImageId> {
    if hash == 0 then None else Some(ImageId(slot, hash))
  }

  function NextCrashStreak(previous: nat, kind: ResetClass): nat {
    match kind
    case Clear => 0
    case Fresh => 1
    case Crash => (previous + 1) % WORD
    case Hold => previous
  }

  predicate ShouldMark(pending: bool, mqttUp: bool, uptimeMs: nat, streak: nat) {
    pending && streak < CRASH_LIMIT && (mqttUp || uptimeMs >= HEALTH_MIN_MS)
  }

  predicate SettleDue(uptimeMs: nat, lastFailMs: nat) {
    uptimeMs >= SETTLE_MS
    && (lastFailMs == 0 || (uptimeMs >= lastFailMs && uptimeMs - lastFailMs >= SETTLE_MS))
  }

  predicate ShouldRollback(streak: nat) {
    streak >= CRASH_LIMIT
  }

  predicate IsAbandoned(left: Option<ImageId>, slot: SlotId, hash: nat) {
    MakeImageId(slot, hash).Some? && left == MakeImageId(slot, hash)
  }

  function RescueToHonour(stored: nat, marker: nat): nat {
    if PlannedOf(marker) != Unplanned then 0 else stored
  }

  predicate IsArrival(rescue: nat, pending: bool) {
    rescue != 0 && pending
  }

  predicate RecordsArrival(rescue: nat, sameStrings: bool) {
    rescue == RESCUE_ID || !sameStrings
  }

  predicate LeftIsStale(left: Option<ImageId>, running: SlotId) {
    left.Some? && left.value.slot == running
  }
}
