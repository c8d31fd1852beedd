/** What the guard and the health turn do when they act: exact conditions, and that a crash loop is escaped. */
module OtaLaws {
  import opened Options
  import opened ByteStrings
  import opened OtaHealth
  import opened OtaGuard
  import opened OtaRuns

  // ---- The guard ----

  /** Every call that giving up a pending image makes. */
  predicate GivesUpPending(c: Device, g: GuardEnv) {
    c.Run().state == Pending && HasTarget(c, g) && g.clear && g.markInvalid
  }

  /** Every call that a switch away from a valid image makes. */
  predicate SwitchesAway(c: Device, g: GuardEnv) {
    && c.Run().state == Valid && HasTarget(c, g) && g.ownDesc && c.Run().hash != 0
    && g.armOpen && g.armCrash && g.armRescue && g.setBoot
  }

  /** The guard leaves exactly at a known streak of three or more with every call working, and boots the other image. */
  lemma GuardLeavesIff(c: Device, g: GuardEnv)
    requires c.up && c.Run().sound
    ensures var f := Guard(c, g);
            && (!f.up <==>
                  c.ram.streakKnown && c.ram.streak >= 3 && g.stateRead && (GivesUpPending(c, g) || SwitchesAway(c, g)))
            && (!f.up ==> f.reason == Sw && f.nvs.crashN == 0)
            && (!f.up && SwitchesAway(c, g) ==> Bootloader(f).running == c.running.Other() && f.nvs.rescue == 2)
            && (!f.up && GivesUpPending(c, g) ==>
                  f.Run().state == Invalid && Bootloader(f).running == c.running.Other())
  {}

  /** A pending image at the limit with nowhere to go is confirmed, even when the streak cannot be cleared. */
  lemma NowhereToGo(c: Device, g: GuardEnv)
    requires c.up && c.ram.streakKnown && c.ram.streak >= 3 && g.stateRead
    requires c.Run().state == Pending && !HasTarget(c, g)
    ensures var f := Guard(c, g);
            && f.up && f.Run().state == (if g.markValid then Valid else Pending)
            && (g.clear ==> f.nvs.crashN == 0 && f.ram.streak == 0)
  {}

  /** A switch that could not set the boot slot takes its flag back when it can. */
  lemma FailedSwitchDisarms(c: Device, g: GuardEnv)
    requires c.up && c.ram.streakKnown && c.ram.streak >= 3 && g.stateRead
    requires SwitchesAway(c, g.(setBoot := true)) && !g.setBoot
    ensures Guard(c, g).up && Guard(c, g).flash == c.flash && Guard(c, g).nvs.rescue == (if g.disarm then 0 else 2)
  {}

  /** The target is the other slot: valid, whole, and not the image recorded as left. */
  lemma TargetListed(c: Device, g: GuardEnv)
    requires g.spareState && g.spareDesc && g.leftRead
    ensures HasTarget(c, g) <==>
              && c.Spare().state == Valid && c.Spare().sound
              && (c.Spare().hash == 0 || c.nvs.left != Some(ImageId(c.running.Other(), c.Spare().hash)))
  {}

  // ---- The boot ----

  /** The arrival of a switch is confirmed by the core once the flag is cleared. */
  lemma ArrivalIsConfirmed(d: Device, o: SlotId, e: BootEnv)
    requires Switching(d, o) && e.earlyNvs && e.rescueClear
    ensures var i := CoreInit(Bootloader(d), e);
            && i.running == o.Other() && i.nvs.rescue == 0
            && i.Run().state == if e.coreMark then Valid else Pending
  {}

  /** A flag of a failed switch never confirms an image that a planned restart boots, and is gone afterwards. */
  lemma PlannedRestartIgnoresFlag(d: Device, e: BootEnv)
    requires d.marker == 0x504C4E44 || d.marker == 0x4D515454
    ensures var b := Bootloader(d);
            CoreInit(b, e).flash == b.flash && (e.earlyNvs && e.rescueClear ==> CoreInit(b, e).nvs.rescue == 0)
  {}

  /** Brownouts are counted and hold the crash streak. */
  lemma BrownoutsCounted(d: Device, e: BootEnv)
    requires !d.up && e.nvs && e.brownoutWrite && e.crashWrite
    ensures AtGuard(d, e).nvs.brownoutN ==
              if d.reason == Brownout then (d.nvs.brownoutN + 1) % WORD else d.nvs.brownoutN
    ensures d.reason == Brownout ==> AtGuard(d, e).nvs.crashN == d.nvs.crashN
  {
    CoreFrame(Bootloader(d), e);
    CountsExactly(Booting(d, e), e);
    ClassListed(d, e);
  }

  /** A boot of the slot a record names removes the record, so a rewritten build there is a target again. */
  lemma StaleLeftRemoved(d: Device, e: BootEnv)
    requires !d.up && e.nvs && e.leftRemove
    ensures var left := AtGuard(d, e).nvs.left; left.Some? ==> left.value.slot != Bootloader(d).running
  {
    CoreFrame(Bootloader(d), e);
  }

  /** A record that is not stale stays unless the boot is an arrival. */
  lemma LeftIsKept(d: Device, e: BootEnv)
    requires !d.up && d.nvs.rescue == 0 && d.nvs.left.Some? && d.nvs.left.value.slot != Bootloader(d).running
    ensures AtGuard(d, e).nvs.left == d.nvs.left
  {
    CoreFrame(Bootloader(d), e);
  }

  /** A streak that could not be read or written keeps the guard still and the gate shut. */
  lemma UnreadStreakHolds(d: Device, e: BootEnv, t: TurnEnv)
    requires !d.up && (!e.nvs || !e.crashWrite)
    ensures Boot(d, e).up && !GateOpen(Boot(d, e), t)
  {
    BeforeGuard(d, e);
    var c := AtGuard(d, e);
    assert !c.ram.streakKnown;
    assert Guard(c, e.guard) == c;
  }

  /** A boot that is no arrival records nothing, whatever flag it finds. */
  lemma NoArrivalNoRecord(d: Device, e: BootEnv)
    requires !d.up && Bootloader(d).Run().state != Pending
    ensures AtGuard(d, e).nvs.left == d.nvs.left || AtGuard(d, e).nvs.left == None
  {
    CoreFrame(Bootloader(d), e);
  }

  // ---- The health turn ----

  /** The gate: a known streak below three, and a session or five minutes. */
  lemma GateListed(d: Device, t: TurnEnv)
    ensures GateOpen(d, t) <==>
              d.ram.streakKnown && d.ram.streak < 3 && (d.ram.mqttUp || t.uptimeMs % 0x1_0000_0000 >= 300000)
  {}

  /** So a pending image that is up five minutes, or meets its broker, is confirmed by the turn whose writes land. */
  lemma HealthyIsConfirmed(d: Device, t: TurnEnv)
    requires d.up && Coherent(d) && d.Run().state == Pending && !d.ram.settled && (d.ram.stateKnown || t.stateRead)
    requires d.ram.stateKnown ==> d.ram.runState == Pending
    requires d.ram.streakKnown && d.ram.streak < 3 && (d.ram.mqttUp || 300000 <= t.uptimeMs < 0x1_0000_0000)
    requires t.clear && t.mark
    ensures Turn(d, t).Run().state == Valid && Turn(d, t).nvs.crashN == 0
  {
    GateConfirms(d, t);
    TurnZeroes(d, t);
  }

  /** A USB image is marked valid exactly after a settled hour, once its streak could be cleared. */
  lemma UsbMarkedIff(d: Device, t: TurnEnv)
    requires d.up && Coherent(d) && d.Run().state == Undefined
    ensures Turn(d, t).Run().state == Valid <==>
              && StateInTurn(d, t) == Some(Undefined) && d.ram.streakKnown && SettleDue(t.uptimeMs, d.ram.settleFailMs)
              && (d.ram.streak != 0 ==> t.clear) && t.bootIsRunning && t.mark
  {
    var d1 := MarkProven(d, t);
    assert d1.Run() == d.Run() && d1.ram == d.ram.(provenDone := d1.ram.provenDone);
  }

  /** An hour up, and an hour after the last failure. */
  lemma SettleListed(up: nat, fail: nat)
    ensures SettleDue(up, fail) <==> up >= 3600000 && (fail == 0 || up >= fail + 3600000)
  {}

  /** A clear that fails is not tried again for an hour. */
  lemma FailedClearWaits(d: Device, t: TurnEnv, later: TurnEnv)
    requires d.up && d.ram.streakKnown && d.ram.streak != 0 && !t.clear && later.uptimeMs < t.uptimeMs + 3600000
    requires StateInTurn(d, t).Some? && StateInTurn(d, t) != Some(Pending) && SettleDue(t.uptimeMs, d.ram.settleFailMs)
    ensures !TurnClears(Turn(d, t), later) && Turn(d, t).nvs.crashN == d.nvs.crashN
  {
    var d1 := MarkProven(d, t);
    assert d1.Run() == d.Run() && d1.ram == d.ram.(provenDone := d1.ram.provenDone);
  }

  /** The proven id is tried once in a boot; later turns leave it alone. */
  lemma ProvenOncePerBoot(d: Device, t: TurnEnv)
    ensures d.ram.provenDone || !d.ram.mqttUp ==> Turn(d, t).nvs.proven == d.nvs.proven
    ensures d.ram.mqttUp ==> Turn(d, t).ram.provenDone
  {}

  // ---- A crash loop is escaped ----

  /** A confirmed image runs and the other slot holds one that may be booted. */
  predicate CanEscape(d: Device, crashes: nat) {
    && d.up && d.flash.top == d.running && d.Run().state == Valid && d.Run().sound && d.Run().hash != 0
    && d.Spare().state == Valid && d.Spare().sound && d.Spare().hash != 0 && d.marker == 0 && d.nvs.rescue == 0
    && d.nvs.left != Some(ImageId(d.running.Other(), d.Spare().hash)) && d.nvs.crashN == crashes
  }

  const Crash: Event := Restarted(Raw(Panic, 0))
  const Boots: Event := Booted(GoodBoot)

  lemma BootKeepsSlots(d: Device)
    requires CanEscape(d, d.nvs.crashN)
    ensures var c := AtGuard(Step(d, Crash), GoodBoot);
            && c.up && c.flash == d.flash && c.running == d.running && c.marker == 0 && c.nvs.rescue == 0
            && c.nvs.crashN == (d.nvs.crashN + 1) % WORD && c.ram.streakKnown && c.ram.streak == c.nvs.crashN
            && (c.nvs.left == d.nvs.left || c.nvs.left == None)
  {
    var x := Step(d, Crash);
    var b := Bootloader(x);
    assert b.flash == d.flash && b.running == d.running;
    assert Booting(x, GoodBoot) == b;
  }

  lemma CrashCounts(d: Device, n: nat)
    requires CanEscape(d, n) && n < 2
    ensures CanEscape(Step(Step(d, Crash), Boots), n + 1) && Step(Step(d, Crash), Boots).running == d.running
    ensures Step(Step(d, Crash), Boots).flash == d.flash
  {
    BootKeepsSlots(d);
    var c := AtGuard(Step(d, Crash), GoodBoot);
    assert Guard(c, GoodGuard) == c;
  }

  lemma ThirdCrashSwitches(d: Device)
    requires CanEscape(d, 2)
    ensures var x := Step(Step(d, Crash), Boots);
            Switching(x, d.running) && x.flash.At(d.running) == d.flash.At(d.running)
  {
    BootKeepsSlots(d);
    var c := AtGuard(Step(d, Crash), GoodBoot);
    assert HasTarget(c, GoodGuard);
  }

  lemma ArrivesConfirmed(x: Device, o: SlotId)
    requires Switching(x, o)
    ensures var f := Step(x, Boots);
            && f.up && f.running == o.Other() && f.Run().state == Valid
            && f.nvs.left == Some(ImageId(o, x.flash.At(o).hash))
  {
    BootAfterSwitch(x, o, GoodBoot);
    ArrivalIsConfirmed(x, o, GoodBoot);
    BeforeGuard(x, GoodBoot);
    var c := AtGuard(x, GoodBoot);
    CountFrame(Booting(x, GoodBoot), GoodBoot);
    assert c.Run().state == Valid;
    ConfirmedStays(c, GoodGuard);
  }

  lemma ConfirmedStays(c: Device, g: GuardEnv)
    requires c.Run().state == Valid && Guard(c, g).up
    ensures Guard(c, g).Run().state == Valid
  {}

  function Escape(d: Device): Device {
    Step(Step(Step(Step(Step(Step(Step(d, Crash), Boots), Crash), Boots), Crash), Boots), Boots)
  }

  /** Three crashes of a confirmed image, and the device runs the other one, confirmed, with the left one recorded. */
  lemma CrashLoopIsEscaped(d: Device)
    requires CanEscape(d, 0)
    ensures var f := Escape(d);
            && f.up && f.running == d.running.Other() && f.Run().state == Valid
            && f.nvs.left == Some(ImageId(d.running, d.Run().hash))
  {
    CrashCounts(d, 0);
    var d1 := Step(Step(d, Crash), Boots);
    CrashCounts(d1, 1);
    var d2 := Step(Step(d1, Crash), Boots);
    ThirdCrashSwitches(d2);
    ArrivesConfirmed(Step(Step(d2, Crash), Boots), d.running);
  }
}
