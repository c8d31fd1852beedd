/**
 The boot guard of OTAUpdate.cpp as transitions of one device value: two slots
 with their otadata, the NVS keys of namespace "boot", the planned-restart word
 in RTC memory, and the statics of one boot. Every fallible call of the source
 is a boolean of the step's environment.
 */
module OtaGuard {
  import opened ByteStrings
  import opened Options
  import opened OtaHealth

  /** `sound` is what a whole-image verify answers for the slot's contents. */
  datatype Slot = Slot(state: SlotState, hash: nat, sound: bool)

  /** `top` is the slot whose otadata entry carries the higher sequence number. */
  datatype Flash = Flash(a: Slot, b: Slot, top: SlotId) {
    function At(i: SlotId): Slot { if i == A then a else b }
    function Put(i: SlotId, s: Slot): Flash { if i == A then this.(a := s) else this.(b := s) }
    function Mark(i: SlotId, state: SlotState): Flash { Put(i, At(i).(state := state)) }
  }

  datatype Nvs = Nvs(crashN: nat, rescue: nat, left: Option<ImageId>, proven: Option<ImageId>, brownoutN: nat)

  /** The statics a boot starts from zero. */
  datatype Ram = Ram(
    bootRescue: nat, bootPending: bool,
    mqttUp: bool, stateKnown: bool, runState: SlotState, settled: bool,
    streak: nat, streakKnown: bool, settleFailMs: nat, provenDone: bool)

  const FreshRam := Ram(0, false, false, false, New, false, 0, false, 0, false)

  /** `up` is false from a reset until the boot that follows it. */
  datatype Device = Device(
    flash: Flash, running: SlotId, nvs: Nvs, marker: nat, reason: ResetReason, up: bool, ram: Ram)
  {
    function Run(): Slot { flash.At(running) }
    function Spare(): Slot { flash.At(running.Other()) }
    function RunId(): Option<ImageId> { MakeImageId(running, Run().hash) }
    function MarkRun(state: SlotState): Device { this.(flash := flash.Mark(running, state)) }
    function SetRam(r: Ram): Device { this.(ram := r) }
    function SetNvs(n: Nvs): Device { this.(nvs := n) }
  }

  datatype GuardEnv = GuardEnv(
    stateRead: bool, spareState: bool, spareDesc: bool, leftRead: bool, ownDesc: bool,
    clear: bool, markValid: bool, markInvalid: bool,
    armOpen: bool, armCrash: bool, armRescue: bool, setBoot: bool, disarm: bool)

  datatype BootEnv = BootEnv(
    earlyNvs: bool, earlyState: bool, rescueClear: bool, coreMark: bool,
    confirmedRead: bool, pendingRead: bool, ownDesc: bool, nvs: bool,
    leftRemove: bool, spareDesc: bool, sameStrings: bool, leftWrite: bool,
    brownoutWrite: bool, crashWrite: bool,
    guard: GuardEnv)

  datatype TurnEnv = TurnEnv(
    uptimeMs: nat, ownDesc: bool, provenWrite: bool, stateRead: bool, clear: bool, mark: bool, bootIsRunning: bool)

  // ---- Bootloader ----

  predicate Usable(state: SlotState) {
    state != Invalid && state != Aborted
  }

  /** A pending image that reset before its confirm is aborted. */
  function AbortPending(s: Slot): Slot {
    if s.state == Pending then s.(state := Aborted) else s
  }

  function Selected(f: Flash): SlotId {
    if Usable(f.At(f.top).state) then f.top
    else if Usable(f.At(f.top.Other()).state) then f.top.Other()
    else A
  }

  /** Abort what was pending, select by otadata, boot a new image pending. */
  function Bootloader(d: Device): Device {
    var aborted := d.flash.(a := AbortPending(d.flash.a), b := AbortPending(d.flash.b));
    var sel := Selected(aborted);
    var f := if aborted.At(sel).state == New then aborted.Mark(sel, Pending) else aborted;
    var run := if !f.At(sel).sound && f.At(sel.Other()).sound then sel.Other() else sel;
    d.(flash := f, running := run, up := true, ram := FreshRam)
  }

  // ---- verifyRollbackLater and the confirm it leaves to the core ----

  /** True when the Arduino core is told to confirm a pending image itself. */
  predicate CoreConfirms(d: Device, e: BootEnv) {
    e.earlyNvs && d.nvs.rescue != 0 && e.rescueClear && RescueToHonour(d.nvs.rescue, d.marker) != 0
  }

  function EarlyBoot(d: Device, e: BootEnv): Device {
    if !e.earlyNvs then d
    else
      var d1 := d.SetRam(d.ram.(
        bootRescue := RescueToHonour(d.nvs.rescue, d.marker),
        bootPending := e.earlyState && d.Run().state == Pending));
      if d.nvs.rescue != 0 && e.rescueClear then d1.SetNvs(d1.nvs.(rescue := 0)) else d1
  }

  function CoreInit(d: Device, e: BootEnv): Device {
    var d1 := EarlyBoot(d, e);
    if CoreConfirms(d, e) && d.Run().state == Pending && e.coreMark then d1.MarkRun(Valid) else d1
  }

  // ---- recordBootStreak ----

  function UpdateLeftRecord(d: Device, e: BootEnv): Device {
    var d1 := if LeftIsStale(d.nvs.left, d.running) && e.leftRemove then d.SetNvs(d.nvs.(left := None)) else d;
    var id := MakeImageId(d.running.Other(), d.Spare().hash);
    if IsArrival(d.ram.bootRescue, d.ram.bootPending) && e.spareDesc && id.Some?
       && RecordsArrival(d.ram.bootRescue, e.sameStrings) && e.leftWrite
    then d1.SetNvs(d1.nvs.(left := id))
    else d1
  }

  function UnreadStreak(d: Device): Device {
    d.SetRam(d.ram.(streakKnown := false, streak := CRASH_LIMIT))
  }

  predicate ProvenAtBoot(d: Device, e: BootEnv) {
    e.ownDesc && d.RunId().Some? && d.nvs.proven == d.RunId()
  }

  /** How this boot's reset counts, read before the planned word is cleared. */
  function ClassOfBoot(d: Device, e: BootEnv): ResetClass {
    var planned := PlannedOf(d.marker);
    BootClass(d.reason, planned,
              planned != Unplanned && e.confirmedRead && StateConfirmed(d.Run().state), ProvenAtBoot(d, e),
              planned != Unplanned && e.pendingRead && d.Run().state == Pending)
  }

  /** The counters of one boot; a failed write leaves the streak unread. */
  function CountBoot(d: Device, e: BootEnv, proven: bool, kind: ResetClass): Device {
    if d.reason == Brownout && !e.brownoutWrite then UnreadStreak(d)
    else
      var n := if d.reason == Brownout then d.nvs.(brownoutN := (d.nvs.brownoutN + 1) % WORD) else d.nvs;
      var d1 := d.SetNvs(n).SetRam(d.ram.(provenDone := proven));
      if !e.crashWrite then UnreadStreak(d1)
      else
        var crashes := NextCrashStreak(n.crashN, kind);
        d1.SetNvs(n.(crashN := crashes)).SetRam(d1.ram.(streakKnown := true, streak := crashes))
  }

  function RecordBootStreak(d: Device, e: BootEnv): Device {
    var d0 := d.(marker := 0);
    if !e.nvs then UnreadStreak(d0)
    else CountBoot(UpdateLeftRecord(d0, e), e, ProvenAtBoot(d, e), ClassOfBoot(d, e))
  }

  // ---- rollbackIfCrashLoop ----

  /** The other slot, when it is a valid verified image not recorded as left. */
  predicate HasTarget(d: Device, g: GuardEnv) {
    g.spareState && d.Spare().state == Valid
    && g.spareDesc && g.leftRead && !IsAbandoned(d.nvs.left, d.running.Other(), d.Spare().hash)
    && d.Spare().sound
  }

  predicate GuardFires(d: Device) {
    d.ram.streakKnown && ShouldRollback(d.ram.streak)
  }

  /** The reset the guard itself asks for carries no planned marker. */
  function Restart(d: Device): Device {
    d.(up := false, reason := Sw)
  }

  function ZeroStreak(d: Device): Device {
    d.SetNvs(d.nvs.(crashN := 0)).SetRam(d.ram.(streak := 0))
  }

  function LeavePending(d: Device, g: GuardEnv): Device {
    if !HasTarget(d, g) then
      var d1 := if g.clear then ZeroStreak(d) else d;
      if g.markValid then d1.MarkRun(Valid) else d1
    else if !g.clear then d
    else
      // The clear leaves the in-memory streak: this boot ends here or keeps refusing a confirm.
      var d1 := d.SetNvs(d.nvs.(crashN := 0));
      if g.markInvalid then Restart(d1.MarkRun(Invalid)) else d1
  }

  function LeaveValid(d: Device, g: GuardEnv): Device {
    if !HasTarget(d, g) || !g.ownDesc || d.RunId().None? || !g.armOpen || !g.armCrash then d
    else
      var d1 := ZeroStreak(d);
      if !g.armRescue then d1
      else if !g.setBoot then d1.SetNvs(d1.nvs.(rescue := if g.disarm then 0 else RESCUE_ID))
      else
        var spare := d.running.Other();
        Restart(d1.SetNvs(d1.nvs.(rescue := RESCUE_ID)).(flash := d1.flash.Mark(spare, New).(top := spare)))
  }

  function Guard(d: Device, g: GuardEnv): Device {
    if !GuardFires(d) || !g.stateRead then d
    else if d.Run().state == Pending then LeavePending(d, g)
    else if d.Run().state == Valid then LeaveValid(d, g)
    else d
  }

  function Boot(d: Device, e: BootEnv): Device {
    Guard(RecordBootStreak(CoreInit(Bootloader(d), e), e), e.guard)
  }

  // ---- confirmIfHealthy ----

  function MarkProven(d: Device, t: TurnEnv): Device {
    if d.ram.provenDone || !d.ram.mqttUp then d
    else
      var d1 := d.SetRam(d.ram.(provenDone := true));
      if t.ownDesc && d.RunId().Some? && t.provenWrite then d1.SetNvs(d1.nvs.(proven := d.RunId())) else d1
  }

  /** The part for an image that is not pending: settle, and mark a USB image. */
  function SettleTurn(d: Device, t: TurnEnv): Device {
    var usb := d.ram.runState == Undefined;
    var due := SettleDue(t.uptimeMs, d.ram.settleFailMs);
    if !d.ram.streakKnown || (d.ram.streak == 0 && !usb) then d.SetRam(d.ram.(settled := true))
    else if !due then d
    else if d.ram.streak != 0 && !t.clear then d.SetRam(d.ram.(settleFailMs := t.uptimeMs))
    else
      var d1 := if d.ram.streak != 0 then ZeroStreak(d) else d;
      if !usb then d1.SetRam(d1.ram.(settled := true))
      else if t.bootIsRunning && t.mark then d1.MarkRun(Valid).SetRam(d1.ram.(settled := true))
      else d1.SetRam(d1.ram.(settleFailMs := t.uptimeMs))
  }

  predicate GateOpen(d: Device, t: TurnEnv) {
    d.ram.streakKnown && ShouldMark(true, d.ram.mqttUp, t.uptimeMs % WORD, d.ram.streak)
  }

  function PendingTurn(d: Device, t: TurnEnv): Device {
    if !GateOpen(d, t) || !t.clear then d
    else
      var d1 := d.SetNvs(d.nvs.(crashN := 0));
      if t.mark then d1.MarkRun(Valid).SetRam(d1.ram.(settled := true)) else d1
  }

  function Turn(d: Device, t: TurnEnv): Device {
    var d1 := MarkProven(d, t);
    if d1.ram.settled || (!d1.ram.stateKnown && !t.stateRead) then d1
    else
      var d2 := if d1.ram.stateKnown then d1
                else d1.SetRam(d1.ram.(stateKnown := true, runState := d1.Run().state));
      if d2.ram.runState == Pending then PendingTurn(d2, t) else SettleTurn(d2, t)
  }
}
