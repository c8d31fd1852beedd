/**
 The cycle the install record is for: a confirmed build keeps installing an
 offered release that need not stay. Record calls work and the guard makes no
 switch; resets, aborts, rollbacks and confirms fall as they like.
 */
module OtaCycle {
  import opened Options
  import opened OtaHealth
  import opened OtaGuard
  import opened OtaFled
  import opened OtaJoint
  import Runs = OtaRuns
  import Fled = OtaFledRuns

  /** What the cycle asks of its events. */
  predicate Calm(w: World, e: Event) {
    match e
    case Booted(b, _) => !Switches(w.d, b)
    case Overwritten(_, _, _) => false
    case LoopTurn(_, _, _, readable, dropLands) => readable && dropLands
    case Checked(_, _, readable, install) =>
      readable && (install.Some? ==> install.value.sound && Loss(install.value.noted) == 0)
    case _ => true
  }

  predicate CalmRun(w: World, run: seq<Event>)
    decreases run
  {
    run == [] || (Calm(w, run[0]) && CalmRun(Step(w, run[0]), run[1..]))
  }

  predicate Live(s: SlotState) { s == Pending || StateConfirmed(s) }

  /** Slot o holds the release whole and is the boot slot. */
  predicate Trial(w: World, o: SlotId) {
    w.d.flash.top == o && w.In(o) == w.f.v && w.d.flash.At(o).sound
  }

  /** The build at home in h is confirmed and whole; the other slot is booted only as the trial. */
  predicate Home(w: World, h: SlotId) {
    var o := h.Other();
    && w.In(h) != w.f.v && StateConfirmed(w.d.flash.At(h).state) && w.d.flash.At(h).sound
    && (w.d.flash.top == h || Trial(w, o)) && (w.d.running == h || Trial(w, o))
    && (w.d.up && w.d.running == o ==> Live(w.d.flash.At(o).state))
  }

  /** RAM holds the stored record as soon as it is loaded. */
  predicate RecSynced(r: Record) { if r.loaded then r.ver == r.nvsVer else r.ver.None? }

  predicate Synced(w: World) { RecSynced(w.f.rec) }

  // ---- The device stays at home or on trial ----

  lemma PickedAtBoot(d: Device, h: SlotId)
    requires StateConfirmed(d.flash.At(h).state) && d.flash.At(h).sound
    requires d.flash.top == h || (d.flash.top == h.Other() && d.flash.At(h.Other()).sound)
    ensures var b := Bootloader(d);
            && b.flash.top == d.flash.top && b.flash.At(h) == d.flash.At(h)
            && b.flash.At(h.Other()).sound == d.flash.At(h.Other()).sound
            && (b.running == h.Other() ==> d.flash.top == h.Other() && Live(b.Run().state))
  {}

  lemma GuardAtHome(c: Device, g: GuardEnv)
    requires c.up && (!Guard(c, g).up ==> c.Run().state != Valid)
    ensures var e := Guard(c, g);
            && e.running == c.running && e.flash.top == c.flash.top && e.Spare() == c.Spare()
            && e.Run().sound == c.Run().sound
            && (c.Run().state != Pending ==> e.Run() == c.Run())
            && (e.up && Live(c.Run().state) ==> Live(e.Run().state))
  {}

  lemma BootHome(w: World, e: Event, h: SlotId)
    requires e.Booted? && !w.d.up && Home(w, h) && Calm(w, e)
    ensures Home(Step(w, e), h)
  {
    PickedAtBoot(w.d, h);
    Runs.BeforeGuard(w.d, e.boot);
    var c := Runs.AtGuard(w.d, e.boot);
    GuardAtHome(c, e.boot.guard);
    BootDevice(w, e);
    BootBuilds(w, e);
    StaysHome(w, Step(w, e), c, h);
  }

  lemma BootBuilds(w: World, e: Event)
    requires e.Booted? && !w.d.up
    ensures Step(w, e).inA == w.inA && Step(w, e).inB == w.inB && Step(w, e).f.v == w.f.v
  {
    BootRecord(w, e.boot, e.noted);
  }

  /** The state before the guard settles what comes after it. */
  lemma StaysHome(w: World, x: World, c: Device, h: SlotId)
    requires Home(w, h) && x.inA == w.inA && x.inB == w.inB && x.f.v == w.f.v
    requires c.flash.top == w.d.flash.top && c.flash.At(h) == w.d.flash.At(h)
    requires c.flash.At(h.Other()).sound == w.d.flash.At(h.Other()).sound
    requires c.running == h.Other() ==> w.d.flash.top == h.Other() && Live(c.Run().state)
    requires x.d.running == c.running && x.d.flash.top == c.flash.top && x.d.Spare() == c.Spare()
    requires x.d.Run().sound == c.Run().sound
    requires c.Run().state != Pending ==> x.d.Run() == c.Run() || x.d.Run() == c.Run().(state := Valid)
    requires x.d.up && Live(c.Run().state) ==> Live(x.d.Run().state)
    ensures Home(x, h)
  {}

  lemma TurnHome(w: World, e: Event, h: SlotId)
    requires e.LoopTurn? && w.d.up && Runs.Coherent(w.d) && Home(w, h)
    ensures Home(Step(w, e), h)
  {
    Runs.TurnFrame(w.d, e.turn);
    TurnParts(w, e);
    StaysHome(w, Step(w, e), w.d, h);
  }

  lemma CheckHome(w: World, e: Event, h: SlotId)
    requires e.Checked? && w.d.up && Home(w, h) && Calm(w, e)
    ensures Home(Step(w, e), h)
  {
    CheckShape(w, e);
    var f := Fled.Step(w.f, Fled.Checked(e.clock, e.wrote, e.readable));
    if w.Running() != w.f.v && e.install.Some? && f.downloads > w.f.downloads {
      assert w.d.running == h;
      InstallHome(w.(f := f, bare := w.bare + One(!Fled.Guarded(w.f, e.readable))), e.install.value, h);
    }
  }

  lemma InstallHome(w: World, i: Install, h: SlotId)
    requires w.d.running == h && i.sound
    requires w.In(h) != w.f.v && StateConfirmed(w.d.flash.At(h).state) && w.d.flash.At(h).sound
    ensures Home(InstallStep(w, i), h)
  {}

  lemma StepHome(w: World, e: Event, h: SlotId)
    requires Runs.Coherent(w.d) && Home(w, h) && Calm(w, e)
    ensures Home(Step(w, e), h)
  {
    match e {
      case Booted(_, _) => if !w.d.up { BootHome(w, e, h); }
      case LoopTurn(_, _, _, _, _) => if w.d.up { TurnHome(w, e, h); }
      case Checked(_, _, _, _) => if w.d.up { CheckHome(w, e, h); }
      case _ =>
    }
  }

  // ---- RAM and NVS stay together ----

  lemma RecordSynced(f: Fled.World, e: Fled.Event)
    requires RecSynced(f.rec) && (e.Turn? || e.Checked? || e.Forced? ==> e.readable) && (e.Dropped? ==> e.lands)
    ensures RecSynced(Fled.Step(f, e).rec)
  {}

  lemma StepSynced(w: World, e: Event)
    requires Synced(w) && Calm(w, e)
    ensures Synced(Step(w, e))
  {
    match e {
      case Booted(b, noted) =>
        RecordSynced(w.f.(running := Some(w.In(Bootloader(w.d).running))), Fled.Reset(noted.down));
      case LoopTurn(_, clock, wrote, readable, lands) =>
        var tick := Fled.Turn(clock, wrote, readable);
        RecordSynced(w.f, tick);
        RecordSynced(Fled.Step(w.f, tick), Fled.Dropped(lands));
      case Checked(clock, wrote, readable, install) => if w.d.up { CheckSynced(w, e); }
      case _ =>
    }
  }

  lemma CheckSynced(w: World, e: Event)
    requires e.Checked? && w.d.up && Synced(w) && Calm(w, e)
    ensures Synced(Step(w, e))
  {
    CheckShape(w, e);
    RecordSynced(w.f, Fled.Checked(e.clock, e.wrote, e.readable));
  }

  // ---- The cycle costs nothing ----

  lemma TurnIsFree(w: World, e: Event, h: SlotId)
    requires e.LoopTurn? && w.d.up && Runs.Coherent(w.d) && Home(w, h) && w.Running() == w.f.v && Drops(w.d, e.turn)
    ensures Firm(Step(w, e))
  {
    TurnHome(w, e, h);
    Runs.TurnFrame(w.d, e.turn);
    TurnParts(w, e);
    DropsConfirmed(w.d, e.turn);
  }

  /** A turn that drops the record leaves the image confirmed, if it was pending or confirmed. */
  lemma DropsConfirmed(d: Device, t: TurnEnv)
    requires d.up && Runs.Coherent(d) && Live(d.Run().state) && Drops(d, t)
    ensures StateConfirmed(Turn(d, t).Run().state)
  {
    Runs.TurnFrame(d, t);
    if d.Run().state == Pending { Runs.GateConfirms(d, t); }
  }

  lemma StepIsFree(w: World, e: Event, h: SlotId)
    requires Runs.Coherent(w.d) && Home(w, h) && Synced(w) && Calm(w, e)
    ensures Cost(w, e) == 0
  {
    match e {
      case LoopTurn(t, _, _, _, _) =>
        if w.d.up && w.Running() == w.f.v && Drops(w.d, t) { TurnIsFree(w, e, h); }
      case _ =>
    }
  }

  lemma {:induction false} CycleIsFree(w: World, run: seq<Event>, h: SlotId)
    requires Runs.Coherent(w.d) && Home(w, h) && Synced(w) && CalmRun(w, run)
    ensures CountCosts(w, run) == 0
    decreases run
  {
    if run != [] {
      StepIsFree(w, run[0], h);
      StepHome(w, run[0], h);
      StepSynced(w, run[0]);
      DeviceCoherent(w, run[0]);
      CycleIsFree(Step(w, run[0]), run[1..], h);
    }
  }

  /** A release that never stays is installed once, and then at most twice for each full day. */
  lemma OnceThenTwiceADay(w: World, t: nat, run: seq<Event>, h: SlotId, right: bool)
    requires Begins(w, t) && PossibleRun(w, run, right) && Home(w, h) && CalmRun(w, run)
    ensures var x := Exec(w, run);
            x.installs <= 1 + 2 * ((x.f.Epoch() - t / 1000 + Fled.Slack(x.f.boots, right)) / SKIP_S)
  {
    CycleIsFree(w, run, h);
    InstallBudget(w, t, run, right);
  }
}
