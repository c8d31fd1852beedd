/**
 OTAUpdate.cpp in its own form: statics, NVS keys and slot states updated step
 by step. Each operation is proved to move the whole device exactly as the
 transition of OtaGuard says; the run theorems are about those transitions.
 */
module OtaUpdate {
  import opened ByteStrings
  import opened Options
  import opened OtaHealth
  import opened OtaGuard

  class BootGuard {
    var flash: Flash
    var running: SlotId
    var nvs: Nvs              // NVS namespace "boot"
    var plannedRestart: nat   // RTC memory
    var resetReason: ResetReason
    var up: bool
    var ram: Ram              // the statics of this boot

    constructor (d: Device)
      ensures View() == d
    {
      flash, running, nvs := d.flash, d.running, d.nvs;
      plannedRestart, resetReason, up, ram := d.marker, d.reason, d.up, d.ram;
    }

    function View(): (d: Device)
      reads this
    {
      Device(flash, running, nvs, plannedRestart, resetReason, up, ram)
    }

    /** verifyRollbackLater: true leaves a pending image to the health gate. */
    method VerifyRollbackLater(e: BootEnv) returns (defer: bool)
      modifies this`nvs, this`ram
      ensures View() == EarlyBoot(old(View()), e)
      ensures defer <==> !CoreConfirms(old(View()), e)
    {
      if !e.earlyNvs { return true; }
      var stored := nvs.rescue;
      var honoured := RescueToHonour(stored, plannedRestart);
      ram := ram.(bootRescue := honoured, bootPending := e.earlyState && flash.At(running).state == Pending);
      defer := true;
      if stored != 0 && e.rescueClear {
        nvs := nvs.(rescue := 0);
        defer := honoured == 0;
      }
    }

    /** initArduino: confirm a pending image unless told to defer. */
    method InitArduino(e: BootEnv)
      modifies this
      ensures View() == CoreInit(old(View()), e)
    {
      var defer := VerifyRollbackLater(e);
      if !defer && flash.At(running).state == Pending && e.coreMark {
        flash := flash.Mark(running, Valid);
      }
    }

    method TakePlanned() returns (planned: Planned)
      modifies this`plannedRestart
      ensures planned == PlannedOf(old(plannedRestart)) && plannedRestart == 0
    {
      planned := Unplanned;
      if plannedRestart == RESTART_MAGIC { planned := Operator; }
      else if plannedRestart == BROKER_MAGIC { planned := Broker; }
      plannedRestart := 0;
    }

    method UpdateLeft(e: BootEnv)
      modifies this`nvs
      ensures View() == UpdateLeftRecord(old(View()), e)
    {
      if LeftIsStale(nvs.left, running) && e.leftRemove { nvs := nvs.(left := None); }
      if !IsArrival(ram.bootRescue, ram.bootPending) { return; }
      var id := MakeImageId(running.Other(), flash.At(running.Other()).hash);
      if !e.spareDesc || id.None? { return; }
      if !RecordsArrival(ram.bootRescue, e.sameStrings) { return; }
      if !e.leftWrite { return; }
      nvs := nvs.(left := id);
    }

    /** An unread or unwritten streak must not look like zero. */
    method StreakUnread()
      modifies this`ram
      ensures View() == UnreadStreak(old(View()))
    {
      ram := ram.(streakKnown := false, streak := CRASH_LIMIT);
    }

    /** Brownout count and crash streak, once the class of the boot is known. */
    method StoreStreak(e: BootEnv, proven: bool, kind: ResetClass)
      modifies this`nvs, this`ram
      ensures View() == CountBoot(old(View()), e, proven, kind)
    {
      if resetReason == Brownout {
        if !e.brownoutWrite {
          StreakUnread();
          return;
        }
        nvs := nvs.(brownoutN := (nvs.brownoutN + 1) % WORD);
      }
      ram := ram.(provenDone := proven);
      var crashes := NextCrashStreak(nvs.crashN, kind);
      if !e.crashWrite {
        StreakUnread();
        return;
      }
      nvs := nvs.(crashN := crashes);
      ram := ram.(streakKnown := true, streak := crashes);
    }

    method RecordStreak(e: BootEnv)
      modifies this
      ensures View() == RecordBootStreak(old(View()), e)
    {
      var id := MakeImageId(running, flash.At(running).hash);
      var planned := TakePlanned();
      var confirmed := planned != Unplanned && e.confirmedRead && StateConfirmed(flash.At(running).state);
      var pending := planned != Unplanned && e.pendingRead && flash.At(running).state == Pending;
      if !e.nvs {
        StreakUnread();
        return;
      }
      UpdateLeft(e);
      var proven := e.ownDesc && id.Some? && nvs.proven == id;
      StoreStreak(e, proven, BootClass(resetReason, planned, confirmed, proven, pending));
    }

    method RollbackTarget(g: GuardEnv) returns (target: Option<SlotId>)
      ensures target == if HasTarget(View(), g) then Some(running.Other()) else None
    {
      var other := running.Other();
      if !g.spareState || flash.At(other).state != Valid { return None; }
      if !g.spareDesc || !g.leftRead || IsAbandoned(nvs.left, other, flash.At(other).hash) { return None; }
      if !flash.At(other).sound { return None; }
      return Some(other);
    }

    /** Zero the streak the switch reset adds to, then arm the rescue flag. */
    method ArmRescue(g: GuardEnv) returns (armed: bool)
      modifies this`nvs, this`ram
      ensures armed <==> g.armOpen && g.armCrash && g.armRescue
      ensures View() == if !g.armOpen || !g.armCrash then old(View())
                        else var z := ZeroStreak(old(View()));
                             if armed then z.SetNvs(z.nvs.(rescue := RESCUE_ID)) else z
    {
      if !g.armOpen || !g.armCrash { return false; }
      nvs, ram := nvs.(crashN := 0), ram.(streak := 0);
      if !g.armRescue { return false; }
      nvs := nvs.(rescue := RESCUE_ID);
      return true;
    }

    /** The crash limit reached on a pending image. */
    method RollbackPending(g: GuardEnv)
      modifies this
      ensures View() == LeavePending(old(View()), g)
    {
      var target := RollbackTarget(g);
      if target.None? {
        if g.clear { nvs, ram := nvs.(crashN := 0), ram.(streak := 0); }
        if g.markValid { flash := flash.Mark(running, Valid); }
        return;
      }
      if !g.clear { return; }
      nvs := nvs.(crashN := 0);
      if g.markInvalid {
        flash := flash.Mark(running, Invalid);
        resetReason, up := Sw, false;
      }
    }

    /** The crash limit reached on a valid image. */
    method RollbackValid(g: GuardEnv)
      modifies this
      ensures View() == LeaveValid(old(View()), g)
    {
      var target := RollbackTarget(g);
      if target.None? { return; }
      if !g.ownDesc || MakeImageId(running, flash.At(running).hash).None? { return; }
      var armed := ArmRescue(g);
      if !armed { return; }
      if !g.setBoot {
        if g.disarm { nvs := nvs.(rescue := 0); }
        return;
      }
      flash := flash.Mark(target.value, New).(top := target.value);
      resetReason, up := Sw, false;
    }

    method RollbackIfCrashLoop(g: GuardEnv)
      modifies this
      ensures View() == Guard(old(View()), g)
    {
      if !ram.streakKnown || !ShouldRollback(ram.streak) { return; }
      if !g.stateRead { return; }
      if flash.At(running).state == Pending {
        RollbackPending(g);
        return;
      }
      if flash.At(running).state != Valid { return; }
      RollbackValid(g);
    }

    method MarkProvenOnBroker(t: TurnEnv)
      modifies this`ram, this`nvs
      ensures View() == MarkProven(old(View()), t)
    {
      if ram.provenDone || !ram.mqttUp { return; }
      ram := ram.(provenDone := true);
      var id := MakeImageId(running, flash.At(running).hash);
      if !t.ownDesc || id.None? || !t.provenWrite { return; }
      nvs := nvs.(proven := id);
    }

    /** confirmIfHealthy on an image that is not pending. */
    method SettleHealthy(t: TurnEnv)
      modifies this
      ensures View() == SettleTurn(old(View()), t)
    {
      var usb := ram.runState == Undefined;
      if !ram.streakKnown || (ram.streak == 0 && !usb) {
        ram := ram.(settled := true);
        return;
      }
      if ram.streak != 0 {
        if !SettleDue(t.uptimeMs, ram.settleFailMs) { return; }
        if !t.clear {
          ram := ram.(settleFailMs := t.uptimeMs);
          return;
        }
        nvs, ram := nvs.(crashN := 0), ram.(streak := 0);
      }
      if usb {
        if !SettleDue(t.uptimeMs, ram.settleFailMs) { return; }
        if !t.bootIsRunning || !t.mark {
          ram := ram.(settleFailMs := t.uptimeMs);
          return;
        }
        flash := flash.Mark(running, Valid);
      }
      ram := ram.(settled := true);
    }

    method ConfirmIfHealthy(t: TurnEnv)
      modifies this
      ensures View() == Turn(old(View()), t)
    {
      MarkProvenOnBroker(t);
      if ram.settled { return; }
      if !ram.stateKnown {
        if !t.stateRead { return; }
        ram := ram.(stateKnown := true, runState := flash.At(running).state);
      }
      if ram.runState != Pending {
        SettleHealthy(t);
        return;
      }
      if !ram.streakKnown { return; }
      if !ShouldMark(true, ram.mqttUp, t.uptimeMs % WORD, ram.streak) { return; }
      if !t.clear { return; }
      nvs := nvs.(crashN := 0);
      if !t.mark { return; }
      flash := flash.Mark(running, Valid);
      ram := ram.(settled := true);
    }

    /** One whole boot after a reset, in the order main.cpp runs it. */
    method PowerUp(e: BootEnv)
      modifies this
      ensures View() == Boot(old(View()), e)
    {
      var d := Bootloader(View());
      flash, running, up, ram := d.flash, d.running, true, FreshRam;
      InitArduino(e);
      RecordStreak(e);
      RollbackIfCrashLoop(e.guard);
    }
  }
}
