/**
 Whole runs of the boot guard: any interleaving of boots, resets of every kind,
 planned restarts, installs, interrupted downloads, broker sessions and main
 loop turns, with every NVS and flash call free to fail.
 */
module OtaRuns {
  import opened ByteStrings
  import opened Options
  import opened OtaHealth
  import opened OtaGuard

  /** How a running device goes down. A power-on leaves noise in the RTC word. */
  datatype Restart = Marked(planned: Planned) | Raw(reason: ResetReason, word: nat)

  datatype Event =
    | Booted(boot: BootEnv)
    | Restarted(how: Restart)
    | Installed(hash: nat, sound: bool, how: Restart)
    | Overwritten(hash: nat, sound: bool)
    | MqttUp
    | LoopTurn(turn: TurnEnv)

  function Magic(p: Planned): nat {
    match p
    case Unplanned => 0
    case Operator => RESTART_MAGIC
    case Broker => BROKER_MAGIC
  }

  function GoDown(d: Device, how: Restart): Device {
    match how
    case Marked(p) => d.(marker := Magic(p), reason := Sw, up := false)
    case Raw(reason, word) => d.(marker := if reason == PowerOn then word else d.marker, reason := reason, up := false)
  }

  /** An update writes the spare slot, sets it as boot slot and restarts. */
  function InstallSpare(d: Device, hash: nat, sound: bool): Device {
    var spare := d.running.Other();
    d.(flash := d.flash.Put(spare, Slot(New, hash, sound)).(top := spare))
  }

  /** A download that stops part-way: contents change, otadata does not. */
  function OverwriteSpare(d: Device, hash: nat, sound: bool): Device {
    d.(flash := d.flash.Put(d.running.Other(), Slot(d.Spare().state, hash, sound)))
  }

  /** A boot needs a device in reset, everything else a device that is up. */
  function Step(d: Device, e: Event): Device {
    if e.Booted? then (if d.up then d else Boot(d, e.boot))
    else if !d.up then d
    else match e
      case Restarted(how) => GoDown(d, how)
      case Installed(hash, sound, how) => GoDown(InstallSpare(d, hash, sound), how)
      case Overwritten(hash, sound) => OverwriteSpare(d, hash, sound)
      case MqttUp => d.SetRam(d.ram.(mqttUp := true))
      case LoopTurn(t) => Turn(d, t)
  }

  function Exec(d: Device, run: seq<Event>): Device
    decreases run
  {
    if run == [] then d else Exec(Step(d, run[0]), run[1..])
  }

  /** Only the guard ends a boot in another reset: that is leaving the image. */
  predicate Leaves(d: Device, e: Event) {
    e.Booted? && !d.up && !Step(d, e).up
  }

  function CountLeaves(d: Device, run: seq<Event>): nat
    decreases run
  {
    if run == [] then 0
    else (if Leaves(d, run[0]) then 1 else 0) + CountLeaves(Step(d, run[0]), run[1..])
  }

  /** Everything the arrival record needs to land in this boot. */
  predicate RecordLands(e: BootEnv) {
    e.earlyNvs && e.earlyState && e.nvs && e.spareDesc && e.leftWrite
  }

  // ---- No ping-pong ----

  predicate Dead(s: Slot) { !Usable(s.state) }

  predicate Recorded(d: Device, o: SlotId) {
    var r := o.Other();
    d.running == r && d.flash.top == r && d.flash.At(r).sound
    && (d.flash.At(r).state == Pending || d.flash.At(r).state == Valid)
    && d.flash.At(o).hash != 0 && d.nvs.left == Some(ImageId(o, d.flash.At(o).hash))
  }

  predicate Switching(d: Device, o: SlotId) {
    var r := o.Other();
    !d.up && PlannedOf(d.marker) == Unplanned && d.nvs.rescue == RESCUE_ID
    && d.flash.top == r && d.flash.At(r).sound && d.flash.At(r).state == New
    && d.flash.At(o).state == Valid && d.flash.At(o).hash != 0
  }

  /** The next boot arrives on the other slot. */
  predicate Arriving(d: Device) { Switching(d, A) || Switching(d, B) }

  /** A slot write, or an arrival whose record could be lost. No other failed call costs anything. */
  function Cost(d: Device, e: Event): nat {
    match e
    case Installed(_, _, _) => 1
    case Overwritten(_, _) => 1
    case Booted(b) => if Arriving(d) && !RecordLands(b) then 1 else 0
    case _ => 0
  }

  function CountCosts(d: Device, run: seq<Event>): nat
    decreases run
  {
    if run == [] then 0 else Cost(d, run[0]) + CountCosts(Step(d, run[0]), run[1..])
  }

  /** The guard can no longer go back to slot `o`. */
  predicate Forsaken(d: Device, o: SlotId) {
    Dead(d.flash.At(o)) || Recorded(d, o) || Switching(d, o)
  }

  predicate Quiet(d: Device) {
    Forsaken(d, A) || Forsaken(d, B)
  }

  /** The state a loop turn cached is one the running slot can still be in. */
  predicate Coherent(d: Device) {
    d.up && d.ram.stateKnown ==>
      && (d.ram.runState == Pending ==> d.Run().state == Pending || d.Run().state == Valid)
      && (d.ram.runState == Undefined ==> d.Run().state == Undefined || d.Run().state == Valid)
  }

  lemma CountKeepsUnknown(d: Device, e: BootEnv)
    ensures RecordBootStreak(d, e).ram.stateKnown == d.ram.stateKnown
  {}

  lemma GuardKeepsUnknown(d: Device, g: GuardEnv)
    ensures Guard(d, g).ram.stateKnown == d.ram.stateKnown
  {}

  lemma BootKeepsUnknown(d: Device, e: BootEnv)
    ensures !Boot(d, e).ram.stateKnown
  {
    var c := CoreInit(Bootloader(d), e);
    assert !c.ram.stateKnown;
    CountKeepsUnknown(c, e);
    GuardKeepsUnknown(RecordBootStreak(c, e), e.guard);
  }

  /** A turn touches only the running slot, and only towards Valid. */
  predicate TurnFramed(d: Device, f: Device) {
    && f.up == d.up && f.running == d.running && f.flash.top == d.flash.top
    && f.nvs.left == d.nvs.left && f.nvs.rescue == d.nvs.rescue && f.marker == d.marker
    && f.Spare() == d.Spare() && f.Run().hash == d.Run().hash && f.Run().sound == d.Run().sound
    && (f.Run().state == d.Run().state
        || (f.Run().state == Valid && (d.Run().state == Pending || d.Run().state == Undefined)))
  }

  lemma SettleFrame(d: Device, t: TurnEnv)
    requires d.up && Coherent(d) && d.ram.stateKnown
    ensures Coherent(SettleTurn(d, t)) && TurnFramed(d, SettleTurn(d, t))
  {}

  lemma PendingFrame(d: Device, t: TurnEnv)
    requires d.up && Coherent(d) && d.ram.stateKnown && d.ram.runState == Pending
    ensures Coherent(PendingTurn(d, t)) && TurnFramed(d, PendingTurn(d, t))
  {}

  lemma TurnFrame(d: Device, t: TurnEnv)
    requires d.up && Coherent(d)
    ensures Coherent(Turn(d, t)) && TurnFramed(d, Turn(d, t))
  {
    var d1 := MarkProven(d, t);
    assert Coherent(d1) && TurnFramed(d, d1);
    var d2 := if d1.ram.stateKnown then d1
              else d1.SetRam(d1.ram.(stateKnown := true, runState := d1.Run().state));
    assert Coherent(d2) && TurnFramed(d, d2);
    SettleFrame(d2, t);
    if d2.ram.runState == Pending { PendingFrame(d2, t); }
  }

  lemma StepKeepsCoherent(d: Device, e: Event)
    requires Coherent(d)
    ensures Coherent(Step(d, e))
  {
    match e
    case Booted(b) => if !d.up { BootKeepsUnknown(d, b); }
    case LoopTurn(t) => if d.up { TurnFrame(d, t); }
    case _ =>
  }

  /** The early boot touches only the running slot, and only from Pending to Valid. */
  lemma CoreFrame(b: Device, e: BootEnv)
    ensures var i := CoreInit(b, e);
            && i.running == b.running && i.up == b.up && i.flash.top == b.flash.top
            && i.marker == b.marker && i.reason == b.reason
            && i.nvs == b.nvs.(rescue := i.nvs.rescue)
            && i.Spare() == b.Spare() && i.Run() == b.Run().(state := i.Run().state)
            && (i.Run().state == b.Run().state
                || (b.Run().state == Pending && i.Run().state == Valid && CoreConfirms(b, e)))
  {}

  lemma CountFrame(i: Device, e: BootEnv)
    ensures var c := RecordBootStreak(i, e);
            c.flash == i.flash && c.running == i.running && c.up == i.up && c.marker == 0
  {}

  /** What a boot leaves alone before the guard runs. */
  lemma BeforeGuard(d: Device, e: BootEnv)
    ensures var b := Bootloader(d);
            var c := RecordBootStreak(CoreInit(b, e), e);
            && c.running == b.running && c.up && c.flash.top == d.flash.top && c.marker == 0
            && c.Spare() == b.Spare() && c.Run() == b.Run().(state := c.Run().state)
            && (c.Run().state == b.Run().state
                || (b.Run().state == Pending && c.Run().state == Valid && CoreConfirms(b, e)))
  {
    CoreFrame(Bootloader(d), e);
    CountFrame(CoreInit(Bootloader(d), e), e);
  }

  lemma GuardWithoutTarget(d: Device, g: GuardEnv)
    requires !HasTarget(d, g)
    ensures var f := Guard(d, g);
            && f.up == d.up && f.running == d.running && f.flash.top == d.flash.top && f.nvs.left == d.nvs.left
            && f.Spare() == d.Spare()
            && f.Run().hash == d.Run().hash && f.Run().sound == d.Run().sound
            && (f.Run().state == d.Run().state || (d.Run().state == Pending && f.Run().state == Valid))
  {}

  /** Wherever the guard leaves to, it cannot come back from there. */
  lemma LeavingForsakes(d: Device, g: GuardEnv)
    requires d.up && d.marker == 0
    ensures var f := Guard(d, g); !f.up ==> Forsaken(f, d.running)
  {}

  lemma BootAfterSwitch(d: Device, o: SlotId, e: BootEnv)
    requires Switching(d, o) && RecordLands(e)
    ensures Boot(d, e).up && Recorded(Boot(d, e), o) && Boot(d, e).flash.At(o).hash == d.flash.At(o).hash
  {
    var b := Bootloader(d);
    assert b.running == o.Other() && b.Run().state == Pending;
    BeforeGuard(d, e);
    var i := CoreInit(b, e);
    assert i.ram.bootRescue == RESCUE_ID && i.ram.bootPending;
    var c := RecordBootStreak(i, e);
    assert c.nvs.left == Some(ImageId(o, d.flash.At(o).hash));
    GuardWithoutTarget(c, e.guard);
  }

  lemma BootRecorded(d: Device, o: SlotId, e: BootEnv)
    requires Recorded(d, o)
    ensures Boot(d, e).up && (Dead(Boot(d, e).flash.At(o.Other())) || Recorded(Boot(d, e), o))
  {
    var b := Bootloader(d);
    BeforeGuard(d, e);
    var c := RecordBootStreak(CoreInit(b, e), e);
    if d.flash.At(o.Other()).state == Pending {
      BootDead(d, o.Other(), e);
    } else {
      assert b.running == o.Other() && !CoreInit(b, e).ram.bootPending;
      assert c.nvs.left == d.nvs.left;
      GuardWithoutTarget(c, e.guard);
      assert Recorded(Boot(d, e), o);
    }
  }

  lemma BootDead(d: Device, o: SlotId, e: BootEnv)
    requires Dead(AbortPending(d.flash.At(o)))
    ensures Boot(d, e).up && Dead(Boot(d, e).flash.At(o))
  {
    var b := Bootloader(d);
    assert Dead(b.flash.At(o));
    BeforeGuard(d, e);
    var c := RecordBootStreak(CoreInit(b, e), e);
    if b.running == o {
      assert Dead(c.Run());
    } else {
      assert !HasTarget(c, e.guard);
      GuardWithoutTarget(c, e.guard);
    }
  }

  lemma TurnKeepsForsaken(d: Device, o: SlotId, t: TurnEnv)
    requires d.up && Coherent(d) && Forsaken(d, o)
    ensures Forsaken(Turn(d, t), o)
  {
    TurnFrame(d, t);
  }

  /** One event: a leave uses up the unit that a write or a lost record gives. */
  lemma StepBudget(d: Device, e: Event)
    requires Coherent(d)
    ensures (if Leaves(d, e) then 1 else 0) + (if Quiet(Step(d, e)) then 0 else 1)
            <= (if Quiet(d) then 0 else 1) + Cost(d, e)
  {
    if e.Booted? && !d.up {
      BeforeGuard(d, e.boot);
      LeavingForsakes(RecordBootStreak(CoreInit(Bootloader(d), e.boot), e.boot), e.boot.guard);
      if o :| o in {A, B} && Forsaken(d, o) && Cost(d, e) == 0 {
        if Switching(d, o) { BootAfterSwitch(d, o, e.boot); }
        else if Recorded(d, o) { BootRecorded(d, o, e.boot); }
        else { BootDead(d, o, e.boot); }
      }
    } else if e.LoopTurn? && d.up && Quiet(d) {
      var o :| Forsaken(d, o);
      TurnKeepsForsaken(d, o, e.turn);
    }
  }

  lemma {:induction false} RunBudget(d: Device, run: seq<Event>)
    requires Coherent(d)
    ensures CountLeaves(d, run) + (if Quiet(Exec(d, run)) then 0 else 1)
            <= (if Quiet(d) then 0 else 1) + CountCosts(d, run)
    decreases run
  {
    if run != [] {
      StepBudget(d, run[0]);
      StepKeepsCoherent(d, run[0]);
      RunBudget(Step(d, run[0]), run[1..]);
    }
  }

  /**
   In every run from any device in reset, the crash guard leaves a running
   image at most once more than images were written or arrival records lost.
   Every other call may fail at every boot.
   */
  lemma NoPingPong(d: Device, run: seq<Event>)
    requires !d.up
    ensures CountLeaves(d, run) <= 1 + CountCosts(d, run)
  {
    RunBudget(d, run);
  }

  predicate NoWrites(run: seq<Event>) { forall e :: e in run ==> !e.Installed? && !e.Overwritten? }

  /** One slot is given up for good: aborted, invalid, or recorded as left. */
  predicate Settled(d: Device) {
    (Dead(d.flash.a) || Recorded(d, A)) || (Dead(d.flash.b) || Recorded(d, B))
  }

  lemma StepSettled(d: Device, e: Event)
    requires Coherent(d) && Settled(d) && NoWrites([e])
    ensures !Leaves(d, e) && Settled(Step(d, e))
  {
    assert e in [e];
    var o :| o in {A, B} && (Dead(d.flash.At(o)) || Recorded(d, o));
    if e.Booted? && !d.up {
      if Recorded(d, o) { BootRecorded(d, o, e.boot); } else { BootDead(d, o, e.boot); }
    } else if e.LoopTurn? && d.up {
      TurnFrame(d, e.turn);
    }
  }

  lemma {:induction false} SettledStays(d: Device, run: seq<Event>)
    requires Coherent(d) && Settled(d) && NoWrites(run)
    ensures CountLeaves(d, run) == 0
    decreases run
  {
    if run != [] {
      assert run[0] in run && NoWrites([run[0]]);
      StepSettled(d, run[0]);
      StepKeepsCoherent(d, run[0]);
      SettledStays(Step(d, run[0]), run[1..]);
    }
  }

  /** The image a switch arrived on never switches back while no slot is written, whatever calls fail from then on. */
  lemma NeverReturns(d: Device, o: SlotId, boot: BootEnv, run: seq<Event>)
    requires Switching(d, o) && RecordLands(boot) && NoWrites(run)
    ensures Boot(d, boot).nvs.left == Some(ImageId(o, d.flash.At(o).hash))
    ensures CountLeaves(Boot(d, boot), run) == 0
  {
    BootAfterSwitch(d, o, boot);
    BootKeepsUnknown(d, boot);
    SettledStays(Boot(d, boot), run);
  }

  const GoodGuard := GuardEnv(true, true, true, true, true, true, true, true, true, true, true, true, true)
  const GoodBoot := BootEnv(true, true, true, true, true, true, true, true, true, true, false, true, true, true,
      GoodGuard)
  const LostBoot := GoodBoot.(leftWrite := false)
  const Crashed := Restarted(Raw(Panic, 0))

  lemma CountLeavesStep(d: Device, e: Event, rest: seq<Event>)
    ensures CountLeaves(d, [e] + rest) == (if Leaves(d, e) then 1 else 0) + CountLeaves(Step(d, e), rest)
  {
    assert ([e] + rest)[1..] == rest;
  }

  // Both images crash-loop; the switch from A to B arrives, but its record is lost.
  const Both := Flash(Slot(Valid, 1, true), Slot(Valid, 2, true), B)
  const LoopingA := Device(Both.(top := A), A, Nvs(2, 0, None, None, 0), 0, Panic, false, FreshRam)
  const LeftA := Device(Both.Mark(B, New), A, Nvs(0, RESCUE_ID, None, None, 0), 0, Sw, false,
                        FreshRam.(streakKnown := true))
  const ArrivedB := Device(Both, B, Nvs(1, 0, None, None, 0), 0, Sw, true,
                           FreshRam.(bootRescue := RESCUE_ID, bootPending := true, streakKnown := true, streak := 1))
  const LoopingB := Device(Both, B, Nvs(2, 0, None, None, 0), 0, Panic, true,
                           FreshRam.(streakKnown := true, streak := 2))

  lemma SwitchLeavesA()
    ensures Step(LoopingA, Booted(GoodBoot)) == LeftA
  {
    assert CoreInit(Bootloader(LoopingA), GoodBoot) == Bootloader(LoopingA);
  }

  lemma SwitchArrivesOnB()
    ensures Step(LeftA, Booted(LostBoot)) == ArrivedB
  {
    var i := CoreInit(Bootloader(LeftA), LostBoot);
    assert i.flash == Both && i.running == B && i.nvs == Nvs(0, 0, None, None, 0);
  }

  lemma CrashOnB()
    ensures Step(Step(ArrivedB, Crashed), Booted(GoodBoot)) == LoopingB
  {
    var b := Bootloader(Step(ArrivedB, Crashed));
    assert CoreInit(b, GoodBoot) == b;
  }

  lemma SecondSwitch()
    ensures Leaves(Step(LoopingB, Crashed), Booted(GoodBoot))
  {
    var b := Bootloader(Step(LoopingB, Crashed));
    assert CoreInit(b, GoodBoot) == b;
  }

  const LoopOnB: seq<Event> := [Crashed, Booted(GoodBoot), Crashed, Booted(GoodBoot)]

  lemma LoopOnBSwitches(d: Device, run: seq<Event>)
    requires d == ArrivedB && run == LoopOnB
    ensures CountLeaves(d, run) == 1
  {
    CrashOnB();
    SecondSwitch();
    var last := [Booted(GoodBoot)];
    CountLeavesStep(Step(LoopingB, Crashed), Booted(GoodBoot), []);
    assert last == [Booted(GoodBoot)] + [];
    CountLeavesStep(LoopingB, Crashed, last);
    var two := [Crashed] + last;
    CountLeavesStep(Step(d, Crashed), Booted(GoodBoot), two);
    var three := [Booted(GoodBoot)] + two;
    CountLeavesStep(d, Crashed, three);
    assert run == [Crashed] + three;
  }

  lemma CostsOf(d: Device, e: Event, rest: seq<Event>)
    ensures CountCosts(d, [e] + rest) == Cost(d, e) + CountCosts(Step(d, e), rest)
  {
    assert ([e] + rest)[1..] == rest;
  }

  /** A run of crashes and good boots costs nothing. */
  lemma {:induction false} GoodRunIsFree(d: Device, run: seq<Event>)
    requires forall e :: e in run ==> e == Crashed || e == Booted(GoodBoot)
    ensures CountCosts(d, run) == 0
    decreases run
  {
    if run != [] {
      assert run[0] in run && forall e :: e in run[1..] ==> e in run;
      GoodRunIsFree(Step(d, run[0]), run[1..]);
    }
  }

  lemma LostArrival(d: Device, run: seq<Event>)
    requires d == LeftA && run == LoopOnB
    ensures CountCosts(d, [Booted(LostBoot)] + run) == 1 && CountLeaves(d, [Booted(LostBoot)] + run) == 1
  {
    SwitchArrivesOnB();
    CostsOf(d, Booted(LostBoot), run);
    assert Cost(d, Booted(LostBoot)) == 1 by { assert Switching(d, A); }
    GoodRunIsFree(ArrivedB, run);
    CountLeavesStep(d, Booted(LostBoot), run);
    LoopOnBSwitches(ArrivedB, run);
  }

  lemma TightRun(d: Device, run: seq<Event>)
    requires d == LoopingA && run == [Booted(LostBoot)] + LoopOnB
    ensures CountCosts(d, [Booted(GoodBoot)] + run) == 1 && CountLeaves(d, [Booted(GoodBoot)] + run) == 2
  {
    SwitchLeavesA();
    LostArrival(LeftA, LoopOnB);
    CostsOf(d, Booted(GoodBoot), run);
    CountLeavesStep(d, Booted(GoodBoot), run);
  }

  /** A run that reaches the bound. */
  predicate Reaches(d: Device, run: seq<Event>) {
    !d.up && NoWrites(run) && CountCosts(d, run) == 1 && CountLeaves(d, run) == 2
  }

  lemma TightReaches(d: Device, run: seq<Event>)
    requires d == LoopingA && run == [Booted(LostBoot)] + LoopOnB
    ensures Reaches(d, [Booted(GoodBoot)] + run)
  {
    TightRun(d, run);
  }

  /** The bound is reached: one lost record, no slot written, and the guard leaves twice. */
  lemma LostRecordCostsASwitch()
    ensures exists d: Device, run: seq<Event> :: Reaches(d, run)
  {
    TightReaches(LoopingA, [Booted(LostBoot)] + LoopOnB);
  }

  // ---- Health gate ----

  predicate WritesSlot(d: Device, e: Event, i: SlotId) {
    d.up && d.running != i && (e.Installed? || e.Overwritten?)
  }

  predicate NeverWrites(d: Device, run: seq<Event>, i: SlotId)
    decreases run
  {
    run == [] || (!WritesSlot(d, run[0], i) && NeverWrites(Step(d, run[0]), run[1..], i))
  }

  /** The device as the guard finds it, late in the boot. */
  function AtGuard(d: Device, e: BootEnv): Device {
    RecordBootStreak(CoreInit(Bootloader(d), e), e)
  }

  /** The two ways a trial image may be confirmed. */
  predicate PassesGate(d: Device, e: Event, i: SlotId) {
    match e
    case LoopTurn(t) =>
      d.up && d.running == i && d.ram.streakKnown && d.ram.streak < 3
      && (d.ram.mqttUp || t.uptimeMs % WORD >= 300000)
    case Booted(b) =>
      var c := AtGuard(d, b);
      !d.up && c.running == i && GuardFires(c) && !HasTarget(c, b.guard)
    case _ => false
  }

  /** The step that makes the image valid, through one of them. */
  predicate Confirms(d: Device, e: Event, i: SlotId) {
    PassesGate(d, e, i) && d.flash.At(i).state != Valid && Step(d, e).flash.At(i).state == Valid
  }

  predicate ConfirmsSomewhere(d: Device, run: seq<Event>, i: SlotId)
    decreases run
  {
    run != [] && (Confirms(d, run[0], i) || ConfirmsSomewhere(Step(d, run[0]), run[1..], i))
  }

  /** Installed and not confirmed: waiting for its boot, in its boot, or given up. */
  predicate OnTrial(d: Device, i: SlotId) {
    || (!d.up && d.reason == Sw && PlannedOf(d.marker) != Unplanned && d.flash.top == i && d.flash.At(i).state == New)
    || d.flash.At(i).state == Pending
    || Dead(d.flash.At(i))
  }

  lemma GuardOnTrial(c: Device, g: GuardEnv, i: SlotId)
    requires c.flash.At(i).state == Pending || Dead(c.flash.At(i))
    ensures var f := Guard(c, g);
            || f.flash.At(i).state == Pending || Dead(f.flash.At(i))
            || (f.flash.At(i).state == Valid && c.running == i && GuardFires(c) && !HasTarget(c, g))
  {}

  lemma BootOnTrial(d: Device, e: BootEnv, i: SlotId)
    requires !d.up && OnTrial(d, i)
    ensures OnTrial(Boot(d, e), i) || Confirms(d, Booted(e), i)
  {
    var b := Bootloader(d);
    var c := AtGuard(d, e);
    BeforeGuard(d, e);
    if Dead(AbortPending(d.flash.At(i))) {
      assert Dead(b.flash.At(i));
      assert Dead(c.flash.At(i));
    } else {
      assert b.flash.At(i).state == Pending;
      assert !CoreConfirms(b, e);
      assert c.flash.At(i).state == Pending;
    }
    GuardOnTrial(c, e.guard, i);
  }

  lemma TurnOnTrial(d: Device, t: TurnEnv, i: SlotId)
    requires d.up && Coherent(d) && OnTrial(d, i)
    ensures OnTrial(Turn(d, t), i) || Confirms(d, LoopTurn(t), i)
  {
    TurnFrame(d, t);
    if d.running == i && !PassesGate(d, LoopTurn(t), i) {
      var d1 := MarkProven(d, t);
      assert d1.flash == d.flash && d1.running == i && !GateOpen(d1, t);
    }
  }

  lemma StepOnTrial(d: Device, e: Event, i: SlotId)
    requires Coherent(d) && OnTrial(d, i) && !WritesSlot(d, e, i)
    ensures OnTrial(Step(d, e), i) || Confirms(d, e, i)
  {
    if e.Booted? {
      if !d.up { BootOnTrial(d, e.boot, i); }
    } else if e.LoopTurn? {
      if d.up { TurnOnTrial(d, e.turn, i); }
    }
  }

  lemma {:induction false} RunOnTrial(d: Device, run: seq<Event>, i: SlotId)
    requires Coherent(d) && OnTrial(d, i) && NeverWrites(d, run, i)
    ensures OnTrial(Exec(d, run), i) || ConfirmsSomewhere(d, run, i)
    decreases run
  {
    if run != [] && !Confirms(d, run[0], i) {
      StepOnTrial(d, run[0], i);
      StepKeepsCoherent(d, run[0]);
      RunOnTrial(Step(d, run[0]), run[1..], i);
    }
  }

  /**
   An image installed through a planned restart reads Valid at the end of a run
   only if the step that made it so had the gate open, whatever rescue flag a
   failed switch had left and whatever calls failed.
   */
  lemma HealthGate(d: Device, hash: nat, sound: bool, planned: Planned, run: seq<Event>)
    requires d.up && planned != Unplanned
    requires NeverWrites(Step(d, Installed(hash, sound, Marked(planned))), run, d.running.Other())
    ensures var installed := Step(d, Installed(hash, sound, Marked(planned)));
            Exec(installed, run).flash.At(d.running.Other()).state == Valid
            ==> ConfirmsSomewhere(installed, run, d.running.Other())
  {
    RunOnTrial(Step(d, Installed(hash, sound, Marked(planned))), run, d.running.Other());
  }

  /** A loop turn confirms a pending image exactly when it sees it pending, the gate is open and both writes land. */
  lemma GateConfirms(d: Device, t: TurnEnv)
    requires d.up && Coherent(d) && d.Run().state == Pending
    ensures Turn(d, t).Run().state == Valid <==>
              StateInTurn(d, t) == Some(Pending) && GateOpen(d, t) && t.clear && t.mark
  {
    var d1 := MarkProven(d, t);
    assert d1.Run() == d.Run() && d1.ram == d.ram.(provenDone := d1.ram.provenDone);
  }

  // ---- Restarts that may not count ----

  /** Only harmless events: planned restarts of a known image, boots, turns. */
  predicate Harmless(d: Device, e: Event) {
    match e
    case Booted(b) => b.confirmedRead && (PlannedOf(d.marker) == Broker ==> b.ownDesc)
    case Restarted(Marked(Operator)) => true
    case Restarted(Marked(Broker)) => d.RunId().Some? && d.nvs.proven == d.RunId()
    case MqttUp => true
    case LoopTurn(_) => true
    case _ => false
  }

  predicate HarmlessRun(d: Device, run: seq<Event>)
    decreases run
  {
    run == [] || (Harmless(d, run[0]) && HarmlessRun(Step(d, run[0]), run[1..]))
  }

  predicate Steady(d: Device) {
    && d.flash.top == d.running && d.Run().sound && StateConfirmed(d.Run().state) && d.nvs.crashN < CRASH_LIMIT
    && (d.up || (d.reason == Sw
                 && (d.marker == RESTART_MAGIC
                     || (d.marker == BROKER_MAGIC && d.RunId().Some? && d.nvs.proven == d.RunId()))))
  }

  lemma BootSteady(d: Device, e: BootEnv)
    requires !d.up && Steady(d) && e.confirmedRead && (PlannedOf(d.marker) == Broker ==> e.ownDesc)
    ensures Steady(Boot(d, e)) && Boot(d, e).up && !GuardFires(AtGuard(d, e))
  {
    var b := Bootloader(d);
    assert b.running == d.running && b.Run() == d.Run();
    var i := CoreInit(b, e);
    assert i.Run() == d.Run() && i.marker == d.marker && i.nvs.proven == d.nvs.proven;
    assert ClassOfBoot(i, e) == Hold;
    var c := AtGuard(d, e);
    BeforeGuard(d, e);
    assert c.nvs.crashN == d.nvs.crashN && !GuardFires(c);
  }

  lemma TurnSteady(d: Device, t: TurnEnv)
    requires d.up && Steady(d) && Coherent(d)
    ensures Steady(Turn(d, t))
  {
    TurnFrame(d, t);
    TurnZeroes(d, t);
  }

  /** The crash limit is met at the guard of some boot of the run. */
  predicate FiresSomewhere(d: Device, run: seq<Event>)
    decreases run
  {
    run != []
    && ((run[0].Booted? && !d.up && GuardFires(AtGuard(d, run[0].boot)))
        || FiresSomewhere(Step(d, run[0]), run[1..]))
  }

  lemma {:induction false} RestartsNeverFire(d: Device, run: seq<Event>)
    requires Coherent(d) && Steady(d) && HarmlessRun(d, run)
    ensures !FiresSomewhere(d, run) && CountLeaves(d, run) == 0 && Exec(d, run).running == d.running
    decreases run
  {
    if run != [] {
      var e := run[0];
      StepKeepsCoherent(d, e);
      if e.Booted? {
        if !d.up { BootSteady(d, e.boot); BootKeepsRunning(d, e.boot); }
      } else if e.LoopTurn? {
        if d.up { TurnSteady(d, e.turn); TurnFrame(d, e.turn); }
      }
      RestartsNeverFire(Step(d, e), run[1..]);
    }
  }

  lemma BootKeepsRunning(d: Device, e: BootEnv)
    requires !d.up && Steady(d)
    ensures Boot(d, e).running == d.running
  {
    BeforeGuard(d, e);
  }

  /** A turn with a session stores the running image as proven, so its broker restarts hold from then on. */
  lemma SessionProves(d: Device, t: TurnEnv)
    requires d.up && d.ram.mqttUp && !d.ram.provenDone && t.ownDesc && t.provenWrite && d.RunId().Some?
    ensures Turn(d, t).nvs.proven == d.RunId() && Turn(d, t).RunId() == d.RunId()
  {
    var d1 := MarkProven(d, t);
    assert d1.nvs.proven == d.RunId();
  }

  // ---- Streak accounting ----

  /** The running image as this boot counts it. */
  function Booting(d: Device, e: BootEnv): Device { CoreInit(Bootloader(d), e) }

  predicate ClearingReset(r: ResetReason) { r == PowerOn || r == DeepSleep }

  predicate CrashingReset(r: ResetReason) { r in {Sw, Panic, IntWdt, TaskWdt, Wdt} }

  /** The restart an update or an operator asked for, on an image that is still pending. */
  predicate FirstBootOfInstall(d: Device, e: Event) {
    && e.Booted? && !d.up && d.reason == Sw && (d.marker == 0x504C4E44 || d.marker == 0x4D515454)
    && e.boot.pendingRead && Booting(d, e.boot).Run().state == Pending
  }

  /** A planned restart of a confirmed image: an operator's, or the broker path's once the image is proven. */
  predicate PlannedHold(d: Device, e: Event) {
    && e.Booted? && !d.up && d.reason == Sw && e.boot.confirmedRead
    && Booting(d, e.boot).Run().state in {Valid, Undefined}
    && (d.marker == 0x504C4E44
        || (d.marker == 0x4D515454 && e.boot.ownDesc && Booting(d, e.boot).RunId().Some?
            && d.nvs.proven == Booting(d, e.boot).RunId()))
  }

  /** A boot the streak counts: a crash reset that no plan excuses, or the first boot of an install. */
  predicate Counted(d: Device, e: Event) {
    || FirstBootOfInstall(d, e)
    || (e.Booted? && !d.up && CrashingReset(d.reason) && !PlannedHold(d, e))
  }

  lemma ClassListed(d: Device, e: BootEnv)
    requires !d.up
    ensures ClassOfBoot(Booting(d, e), e) ==
              if FirstBootOfInstall(d, Booted(e)) then Fresh
              else if PlannedHold(d, Booted(e)) then Hold
              else if ClearingReset(d.reason) then Clear
              else if CrashingReset(d.reason) then Crash
              else Hold
  {
    CoreFrame(Bootloader(d), e);
  }

  /** What one boot stores before the guard looks, by reset reason alone when nothing was planned. */
  lemma ResetTable(d: Device, e: BootEnv)
    requires !d.up && d.marker != 0x504C4E44 && d.marker != 0x4D515454
    requires e.nvs && e.brownoutWrite && e.crashWrite
    ensures var n := AtGuard(d, e).nvs.crashN;
            match d.reason
            case PowerOn => n == 0
            case DeepSleep => n == 0
            case Sw => n == (d.nvs.crashN + 1) % 0x1_0000_0000
            case Panic => n == (d.nvs.crashN + 1) % 0x1_0000_0000
            case IntWdt => n == (d.nvs.crashN + 1) % 0x1_0000_0000
            case TaskWdt => n == (d.nvs.crashN + 1) % 0x1_0000_0000
            case Wdt => n == (d.nvs.crashN + 1) % 0x1_0000_0000
            case _ => n == d.nvs.crashN
  {
    CoreFrame(Bootloader(d), e);
    CountsExactly(Booting(d, e), e);
  }

  /** The first boot of an install starts its own streak at one, whatever the installing image left. */
  lemma InstallStartsAtOne(d: Device, hash: nat, planned: Planned, e: BootEnv)
    requires d.up && planned != Unplanned && e.nvs && e.crashWrite && e.pendingRead
    ensures var c := AtGuard(Step(d, Installed(hash, true, Marked(planned))), e);
            c.nvs.crashN == 1 && c.running == d.running.Other() && !GuardFires(c)
  {
    var i := Step(d, Installed(hash, true, Marked(planned)));
    var b := Bootloader(i);
    assert b.running == d.running.Other() && b.Run().state == Pending;
    CoreFrame(b, e);
    assert !CoreConfirms(b, e);
    CountFrame(Booting(i, e), e);
  }

  function CountCounted(d: Device, run: seq<Event>): nat
    decreases run
  {
    if run == [] then 0
    else (if Counted(d, run[0]) then 1 else 0) + CountCounted(Step(d, run[0]), run[1..])
  }

  lemma BootStreak(d: Device, e: BootEnv)
    requires !d.up
    ensures AtGuard(d, e).nvs.crashN <= d.nvs.crashN + (if Counted(d, Booted(e)) then 1 else 0)
    ensures GuardFires(AtGuard(d, e)) ==> AtGuard(d, e).nvs.crashN >= CRASH_LIMIT
  {
    CoreFrame(Bootloader(d), e);
    ClassListed(d, e);
    CountOrKeep(Booting(d, e), e);
  }

  lemma StepCounted(d: Device, e: Event)
    ensures Step(d, e).nvs.crashN <= d.nvs.crashN + (if Counted(d, e) then 1 else 0)
  {
    if e.Booted? {
      if !d.up {
        BootStreak(d, e.boot);
        GuardZeroes(AtGuard(d, e.boot), e.boot.guard);
      }
    } else if e.LoopTurn? {
      TurnZeroes(d, e.turn);
    }
  }

  lemma {:induction false} StreakBound(d: Device, run: seq<Event>)
    ensures Exec(d, run).nvs.crashN <= d.nvs.crashN + CountCounted(d, run)
    decreases run
  {
    if run != [] {
      StepCounted(d, run[0]);
      StreakBound(Step(d, run[0]), run[1..]);
    }
  }

  /** From a zero streak the guard acts only after three counted boots, lost writes or not. */
  lemma FiresOnlyAfterThree(d: Device, run: seq<Event>, last: BootEnv)
    requires d.nvs.crashN == 0
    requires !Exec(d, run).up && GuardFires(AtGuard(Exec(d, run), last))
    ensures CountCounted(d, run) + (if Counted(Exec(d, run), Booted(last)) then 1 else 0) >= 3
  {
    StreakBound(d, run);
    BootStreak(Exec(d, run), last);
  }

  predicate CountersLand(run: seq<Event>) {
    forall e :: e in run && e.Booted? ==> e.boot.nvs && e.boot.brownoutWrite && e.boot.crashWrite
  }

  /** The guard fires and gets as far as zeroing the streak. */
  predicate GuardClears(c: Device, g: GuardEnv) {
    && GuardFires(c) && g.stateRead
    && ((c.Run().state == Pending && g.clear)
        || (c.Run().state == Valid && HasTarget(c, g) && g.ownDesc && c.RunId().Some? && g.armOpen && g.armCrash))
  }

  /** The state of the running slot as a turn of confirmIfHealthy knows it, if it does. */
  function StateInTurn(d: Device, t: TurnEnv): Option<SlotState> {
    if d.ram.settled then None
    else if d.ram.stateKnown then Some(d.ram.runState)
    else if t.stateRead then Some(d.Run().state)
    else None
  }

  /** A turn clears through the open gate of a pending image, or after a settled hour of another one. */
  predicate TurnClears(d: Device, t: TurnEnv) {
    var state := StateInTurn(d, t);
    && state.Some? && d.ram.streakKnown && t.clear
    && if state.value == Pending then GateOpen(d, t) else d.ram.streak != 0 && SettleDue(t.uptimeMs, d.ram.settleFailMs)
  }

  /** The clearing events: a power-on or wake, the guard acting, a confirm, a settled hour. */
  predicate Clears(d: Device, e: Event) {
    match e
    case Booted(b) => !d.up && (ClearingReset(d.reason) || GuardClears(AtGuard(d, b), b.guard))
    case LoopTurn(t) => d.up && TurnClears(d, t)
    case _ => false
  }

  /** The count after one more event: zero, a fresh one, one more, or the same. */
  function CountAfter(d: Device, e: Event, count: nat): nat {
    if Clears(d, e) then 0
    else if FirstBootOfInstall(d, e) then 1
    else if Counted(d, e) then count + 1
    else count
  }

  /** Counted boots since the last clearing event, an install starting at one. */
  function CountedSinceClear(d: Device, run: seq<Event>): nat {
    if run == [] then d.nvs.crashN
    else CountAfter(Exec(d, run[..|run| - 1]), run[|run| - 1], CountedSinceClear(d, run[..|run| - 1]))
  }

  lemma GuardZeroes(c: Device, g: GuardEnv)
    ensures Guard(c, g).nvs.crashN == if GuardClears(c, g) then 0 else c.nvs.crashN
  {}

  lemma TurnZeroes(d: Device, t: TurnEnv)
    ensures Turn(d, t).nvs.crashN == if TurnClears(d, t) then 0 else d.nvs.crashN
  {
    var d1 := MarkProven(d, t);
    assert d1.nvs.crashN == d.nvs.crashN && d1.Run() == d.Run();
    assert d1.ram == d.ram.(provenDone := d1.ram.provenDone);
  }

  lemma {:induction false} ExecLast(d: Device, run: seq<Event>, e: Event)
    ensures Exec(d, run + [e]) == Step(Exec(d, run), e)
    decreases run
  {
    if run == [] {
      assert [e][1..] == [];
      assert Exec(Step(d, e), []) == Step(d, e);
    } else {
      assert (run + [e])[1..] == run[1..] + [e];
      ExecLast(Step(d, run[0]), run[1..], e);
    }
  }

  lemma CountsExactly(i: Device, e: BootEnv)
    requires e.nvs && e.brownoutWrite && e.crashWrite
    ensures RecordBootStreak(i, e).nvs.crashN == NextCrashStreak(i.nvs.crashN, ClassOfBoot(i, e))
  {}

  lemma NextModuloWord(count: nat, kind: ResetClass)
    ensures kind == Crash ==> NextCrashStreak(count % WORD, kind) == (count + 1) % WORD
  {}

  lemma StepStreak(d: Device, e: Event, count: nat)
    requires CountersLand([e]) && d.nvs.crashN == count % WORD
    ensures Step(d, e).nvs.crashN == CountAfter(d, e, count) % WORD
  {
    match e
    case Booted(b) =>
      assert e in [e];
      if !d.up {
        var i := CoreInit(Bootloader(d), b);
        CoreFrame(Bootloader(d), b);
        ClassListed(d, b);
        CountsExactly(i, b);
        NextModuloWord(count, ClassOfBoot(i, b));
        GuardZeroes(AtGuard(d, b), b.guard);
      }
    case LoopTurn(t) => TurnZeroes(d, t);
    case _ =>
  }

  /** While counter writes land the stored streak is exactly that count, modulo its 32 bits. */
  lemma {:induction false} StreakAccounting(d: Device, run: seq<Event>)
    requires d.nvs.crashN < WORD && CountersLand(run)
    ensures Exec(d, run).nvs.crashN == CountedSinceClear(d, run) % WORD
  {
    if run != [] {
      var before, e := run[..|run| - 1], run[|run| - 1];
      assert run == before + [e];
      ExecLast(d, before, e);
      StreakAccounting(d, before);
      StepStreak(Exec(d, before), e, CountedSinceClear(d, before));
    }
  }

  lemma CountOrKeep(i: Device, e: BootEnv)
    ensures var n := RecordBootStreak(i, e).nvs.crashN;
            n == i.nvs.crashN || n == NextCrashStreak(i.nvs.crashN, ClassOfBoot(i, e))
  {}
}
