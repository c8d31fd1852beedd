/**
 The boot guard and the fled record together: one manifest keeps offering one
 release, checks install it, and it boots, crashes, is aborted, confirmed, left
 by the guard and offered again. Installs and switches write the record that
 the checks read.
 */
module OtaJoint {
  import opened Options
  import opened OtaHealth
  import opened OtaGuard
  import opened OtaFled
  import Runs = OtaRuns
  import Fled = OtaFledRuns

  /** The device, the builds in its slots, and the record followed for the release. */
  datatype World = World(d: Device, inA: Version, inB: Version, f: Fled.World, installs: nat, bare: nat)
  {
    function In(i: SlotId): Version { if i == A then inA else inB }
    function Running(): Version { In(d.running) }
    function Put(i: SlotId, v: Version): World { if i == A then this.(inA := v) else this.(inB := v) }
  }

  /** The record writes of an install or a switch, and the reset that follows. */
  datatype Noted = Noted(ageLands: bool, verLands: bool, down: Fled.Down)

  datatype Install = Install(hash: nat, sound: bool, how: Runs.Restart, noted: Noted)

  datatype Event =
    | Wait(ms: nat)
    | Booted(boot: BootEnv, noted: Noted)
    | Restarted(how: Runs.Restart, down: Fled.Down)
    | Overwritten(hash: nat, sound: bool, build: Version)
    | MqttUp
    | LoopTurn(turn: TurnEnv, clock: nat, wrote: bool, readable: bool, dropLands: bool)
    | Checked(clock: nat, wrote: bool, readable: bool, install: Option<Install>)

  // ---- One step ----

  /** The points of confirmIfHealthy that drop a record naming the running build. */
  predicate Drops(d: Device, t: TurnEnv) {
    && !d.ram.settled
    && ((!d.ram.stateKnown && t.stateRead && d.Run().state != Pending)
        || (Runs.StateInTurn(d, t) == Some(Pending) && GateOpen(d, t) && t.clear && t.mark))
  }

  /** The guard left a confirmed image, the one case in which it notes the build it fled. */
  predicate Switches(d: Device, b: BootEnv) {
    !d.up && !Boot(d, b).up && Runs.AtGuard(d, b).Run().state == Valid
  }

  function BootStep(w: World, b: BootEnv, noted: Noted): World {
    var d := Boot(w.d, b);
    var build := w.In(Bootloader(w.d).running);
    w.(d := d, f := Noting(w.f.(running := Some(build)), build, d.up, Switches(w.d, b), noted))
  }

  /** The record after a boot: untouched when it stays up, rewritten by a switch, otherwise reset with the device. */
  function Noting(f: Fled.World, build: Version, up: bool, switches: bool, noted: Noted): Fled.World {
    if up then f
    else if switches then Fled.Step(f, Fled.Rewritten(build, noted.ageLands, noted.verLands, noted.down))
    else Fled.Step(f, Fled.Reset(noted.down))
  }

  lemma NotingVersion(f: Fled.World, build: Version, up: bool, switches: bool, noted: Noted)
    requires switches ==> !up
    ensures var g := Noting(f, build, up, switches, noted);
            && g.v == f.v && g.downloads == f.downloads && g.free == f.free && g.sinceS == f.sinceS
            && g.rec.nvsVer == if switches && Loss(noted) == 0 then Some(build) else f.rec.nvsVer
  {}

  function TurnStep(w: World, e: Event): World
    requires e.LoopTurn?
  {
    var f := Fled.Step(w.f, Fled.Turn(e.clock, e.wrote, e.readable));
    w.(d := Turn(w.d, e.turn), f := if Drops(w.d, e.turn) then Fled.Step(f, Fled.Dropped(e.dropLands)) else f)
  }

  /** A download that was applied: slot, boot slot, record, planned restart. */
  function InstallStep(w: World, i: Install): World {
    var spare := w.d.running.Other();
    var d := Runs.GoDown(Runs.InstallSpare(w.d, i.hash, i.sound), i.how);
    var f := if RecordsInstall(w.f.rec.ver, Some(w.f.v))
             then Fled.Step(w.f, Fled.Rewritten(w.f.v, i.noted.ageLands, i.noted.verLands, i.noted.down))
             else Fled.Step(w.f, Fled.Reset(i.noted.down));
    w.Put(spare, w.f.v).(d := d, f := f, installs := w.installs + 1)
  }

  /** An unforced check; the release is not newer than itself. */
  function CheckStep(w: World, e: Event): World
    requires e.Checked?
  {
    if w.Running() == w.f.v then w
    else
      var f := Fled.Step(w.f, Fled.Checked(e.clock, e.wrote, e.readable));
      var bare := if Fled.Guarded(w.f, e.readable) then w.bare else w.bare + 1;
      if f.downloads > w.f.downloads && e.install.Some?
      then InstallStep(w.(f := f, bare := bare), e.install.value)
      else w.(f := f)
  }

  function Step(w: World, e: Event): World {
    if e.Wait? then w.(f := Fled.Step(w.f, Fled.Wait(e.ms)))
    else if e.Booted? then (if w.d.up then w else BootStep(w, e.boot, e.noted))
    else if !w.d.up then w
    else match e
      case Restarted(how, down) => w.(d := Runs.GoDown(w.d, how), f := Fled.Step(w.f, Fled.Reset(down)))
      case Overwritten(hash, sound, build) =>
        w.Put(w.d.running.Other(), build).(d := Runs.OverwriteSpare(w.d, hash, sound))
      case MqttUp => w.(d := w.d.SetRam(w.d.ram.(mqttUp := true)))
      case LoopTurn(_, _, _, _, _) => TurnStep(w, e)
      case Checked(_, _, _, _) => CheckStep(w, e)
  }

  // ---- What a bare install costs ----

  /** The release runs, is confirmed and is what the bootloader picks. */
  predicate Firm(w: World) {
    && w.d.flash.top == w.d.running && w.Running() == w.f.v && w.d.Run().sound
    && (w.d.Run().state == Valid || w.d.Run().state == Undefined)
  }

  /** The stored record names the release. */
  predicate Stands(w: World) { w.f.rec.nvsVer == Some(w.f.v) }

  /** The next check of another build may install the release with no record in the way. */
  predicate Exposed(w: World) { !Stands(w) && !Firm(w) }

  function One(p: bool): nat { if p then 1 else 0 }

  function Loss(n: Noted): nat { if n.ageLands && n.verLands then 0 else 1 }

  /**
   With the record standing: a switch away from another build, which overwrites
   it, an install by a boot that could not read it, and a drop of it by the
   release while that is not yet what the bootloader picks. Without it: a switch
   away from the release, or an install, whose record write is lost. Nothing else
   costs anything.
   */
  function Cost(w: World, e: Event): (n: nat)
    ensures n <= 1
  {
    match e
    case Booted(b, noted) =>
      if !Switches(w.d, b) then 0
      else if w.In(Bootloader(w.d).running) == w.f.v then (if Stands(w) then 0 else Loss(noted))
      else One(Stands(w))
    case LoopTurn(t, _, _, _, lands) =>
      One(w.d.up && w.Running() == w.f.v && Stands(w) && Drops(w.d, t) && lands && !Firm(Step(w, e)))
    case Checked(_, _, readable, install) =>
      if Step(w, e).installs == w.installs then 0
      else if Stands(w) then One(!Fled.Guarded(w.f, readable))
      else Loss(install.value.noted)
    case _ => 0
  }

  /** RAM never names a release the stored record does not, and the record knows the running build. */
  predicate RamAgrees(w: World) {
    && (w.d.up ==> w.f.running == Some(w.Running()))
    && (w.f.rec.loaded ==> w.f.rec.ver.None? || w.f.rec.ver == w.f.rec.nvsVer)
    && (!w.f.rec.loaded ==> w.f.rec.ver.None?)
  }

  lemma CheckKeepsVersions(f: Fled.World, clock: nat, wrote: bool, readable: bool)
    requires f.running != Some(f.v)
    ensures var g := Fled.Step(f, Fled.Checked(clock, wrote, readable));
            g.rec.nvsVer == f.rec.nvsVer && g.v == f.v && g.rec.ver == Load(f.rec, readable).ver && g.rec.loaded
  {}

  lemma TurnKeepsVersions(f: Fled.World, clock: nat, wrote: bool, readable: bool)
    ensures var g := Fled.Step(f, Fled.Turn(clock, wrote, readable)); g.rec.nvsVer == f.rec.nvsVer && g.v == f.v
  {}

  lemma BootKeepsFirm(w: World, b: BootEnv, noted: Noted)
    requires !w.d.up && Firm(w) && !Switches(w.d, b)
    ensures Boot(w.d, b).up && Firm(BootStep(w, b, noted))
  {
    Runs.BeforeGuard(w.d, b);
    var c := Runs.AtGuard(w.d, b);
    assert Bootloader(w.d).running == w.d.running;
    FirmGuard(c, b.guard);
  }

  /** The guard on a confirmed image leaves by a switch or leaves it alone. */
  lemma FirmGuard(c: Device, g: GuardEnv)
    requires c.up && (c.Run().state == Valid || c.Run().state == Undefined)
    ensures var e := Guard(c, g);
            && (e.up ==> e.flash == c.flash && e.running == c.running)
            && (!e.up ==> c.Run().state == Valid)
  {}

  lemma InstallExposes(w: World, i: Install)
    ensures var x := InstallStep(w, i);
            && x.f.v == w.f.v
            && (RecordsInstall(w.f.rec.ver, Some(w.f.v)) && Loss(i.noted) == 0 ==> x.f.rec.nvsVer == Some(w.f.v))
            && (w.f.rec.nvsVer == Some(w.f.v) ==> x.f.rec.nvsVer == Some(w.f.v))
            && x.bare == w.bare
  {}

  lemma CheckCost(w: World, e: Event)
    requires e.Checked? && w.d.up && RamAgrees(w)
    ensures Step(w, e).bare - w.bare + One(Exposed(Step(w, e))) <= One(Exposed(w)) + Cost(w, e)
  {
    if w.Running() != w.f.v {
      var f := Fled.Step(w.f, Fled.Checked(e.clock, e.wrote, e.readable));
      CheckKeepsVersions(w.f, e.clock, e.wrote, e.readable);
      if f.downloads > w.f.downloads && e.install.Some? {
        var bare := if Fled.Guarded(w.f, e.readable) then w.bare else w.bare + 1;
        InstallExposes(w.(f := f, bare := bare), e.install.value);
      }
    }
  }

  lemma BootCost(w: World, b: BootEnv, noted: Noted)
    requires !w.d.up
    ensures var x := Step(w, Booted(b, noted));
            x.bare == w.bare && One(Exposed(x)) <= One(Exposed(w)) + Cost(w, Booted(b, noted))
  {
    BootRecord(w, b, noted);
    if Firm(w) && !Switches(w.d, b) { BootKeepsFirm(w, b, noted); }
    if Firm(w) && Switches(w.d, b) { FirmBoots(w); }
  }

  lemma FirmBoots(w: World)
    requires Firm(w)
    ensures w.In(Bootloader(w.d).running) == w.f.v
  {}

  lemma BootRecord(w: World, b: BootEnv, noted: Noted)
    requires !w.d.up
    ensures var x := Step(w, Booted(b, noted));
            var build := w.In(Bootloader(w.d).running);
            && x.bare == w.bare && x.f.v == w.f.v
            && x.f.rec.nvsVer == if Switches(w.d, b) && Loss(noted) == 0 then Some(build) else w.f.rec.nvsVer
  {
    var build := w.In(Bootloader(w.d).running);
    NotingVersion(w.f.(running := Some(build)), build, Boot(w.d, b).up, Switches(w.d, b), noted);
  }

  lemma TurnParts(w: World, e: Event)
    requires e.LoopTurn? && w.d.up
    ensures var x := Step(w, e);
            x.d == Turn(w.d, e.turn) && x.inA == w.inA && x.inB == w.inB && x.f.v == w.f.v && x.bare == w.bare
  {
    TurnKeepsVersions(w.f, e.clock, e.wrote, e.readable);
  }

  lemma FramedFirm(w: World, x: World)
    requires Firm(w) && Runs.TurnFramed(w.d, x.d) && x.inA == w.inA && x.inB == w.inB && x.f.v == w.f.v
    ensures Firm(x)
  {}

  lemma TurnKeepsFirm(w: World, e: Event)
    requires e.LoopTurn? && w.d.up && Runs.Coherent(w.d) && Firm(w)
    ensures Firm(Step(w, e))
  {
    assert Runs.TurnFramed(w.d, Turn(w.d, e.turn)) by { Runs.TurnFrame(w.d, e.turn); }
    TurnParts(w, e);
    FramedFirm(w, Step(w, e));
  }

  lemma TurnCost(w: World, e: Event)
    requires e.LoopTurn? && w.d.up && Runs.Coherent(w.d) && RamAgrees(w)
    ensures Step(w, e).bare == w.bare && One(Exposed(Step(w, e))) <= One(Exposed(w)) + Cost(w, e)
  {
    TurnKeepsVersions(w.f, e.clock, e.wrote, e.readable);
    if Firm(w) { TurnKeepsFirm(w, e); }
  }

  /** One event: a bare install uses up the exposure that a cost gives. */
  lemma StepCost(w: World, e: Event)
    requires Runs.Coherent(w.d) && RamAgrees(w)
    ensures Step(w, e).bare - w.bare + One(Exposed(Step(w, e))) <= One(Exposed(w)) + Cost(w, e)
  {
    match e {
      case Booted(b, noted) => if !w.d.up { BootCost(w, b, noted); }
      case LoopTurn(_, _, _, _, _) => if w.d.up { TurnCost(w, e); }
      case Checked(_, _, _, _) => if w.d.up { CheckCost(w, e); }
      case _ =>
    }
  }

  // ---- What the record is after an install, a switch and a confirm ----

  /** An install from a boot without the record leaves a fresh one; one with it leaves its age and tries. */
  lemma InstallLeavesRecord(w: World, i: Install)
    requires w.f.rec.loaded && Loss(i.noted) == 0
    ensures var r := InstallStep(w, i).f.rec;
            && !r.loaded
            && (w.f.rec.ver == Some(w.f.v) ==> r.nvs == w.f.rec.nvs && r.nvsVer == w.f.rec.nvsVer)
            && (w.f.rec.ver != Some(w.f.v) ==> r.nvs == Pack(FledAge(0, 0, 0)) && r.nvsVer == Some(w.f.v))
  {}

  /** A switch records the build it leaves as fled, with a fresh day. */
  lemma SwitchLeavesRecord(w: World, b: BootEnv, noted: Noted)
    requires Switches(w.d, b) && Loss(noted) == 0
    ensures var r := BootStep(w, b, noted).f.rec;
            r.nvs == Pack(FledAge(0, 0, 0)) && r.nvsVer == Some(w.In(Bootloader(w.d).running))
  {}

  /** A confirmed build drops the record that names it. */
  lemma ConfirmDropsRecord(w: World, e: Event)
    requires e.LoopTurn? && w.d.up && RamAgrees(w) && Drops(w.d, e.turn) && e.dropLands
    requires Load(w.f.rec, e.readable).ver == Some(w.Running())
    ensures Step(w, e).f.rec.nvsVer == None && Step(w, e).f.rec.ver == None
  {
    TurnKeepsRam(w.f, e.clock, e.wrote, e.readable);
  }

  lemma TurnKeepsRam(f: Fled.World, clock: nat, wrote: bool, readable: bool)
    ensures var g := Fled.Step(f, Fled.Turn(clock, wrote, readable));
            g.rec.ver == Load(f.rec, readable).ver && g.running == f.running
  {}

  // ---- What every step keeps ----

  predicate DownOk(e: Event) {
    && (e.Restarted? ==> Fled.PossibleDown(e.down)) && (e.Booted? ==> Fled.PossibleDown(e.noted.down))
    && (e.Checked? && e.install.Some? ==> Fled.PossibleDown(e.install.value.noted.down))
  }

  predicate ClockOk(w: World, e: Event) { e.LoopTurn? || e.Checked? ==> Fled.ClockShows(w.f, e.clock) }

  predicate Possible(w: World, e: Event, right: bool) { DownOk(e) && (right ==> ClockOk(w, e)) }

  /** Guarded installs are downloads the record paid for. */
  predicate Sound(w: World, nvsS: nat, markT: nat, right: bool) {
    && Runs.Coherent(w.d) && (w.d.up ==> w.f.running == Some(w.Running())) && Fled.Sound(w.f, nvsS, markT, right)
    && w.f.free <= w.f.downloads && w.installs - w.bare <= w.f.downloads - w.f.free
  }

  lemma RunningIsFree(f: Fled.World, build: Option<Version>, nvsS: nat, markT: nat, right: bool)
    requires Fled.Sound(f, nvsS, markT, right)
    ensures Fled.Sound(f.(running := build), nvsS, markT, right)
  {}

  lemma CheckPays(f: Fled.World, clock: nat, wrote: bool, readable: bool)
    requires f.free <= f.downloads
    ensures var g := Fled.Step(f, Fled.Checked(clock, wrote, readable));
            && g.free <= g.downloads && f.downloads - f.free <= g.downloads - g.free
            && (g.downloads > f.downloads && Fled.Guarded(f, readable) ==> f.downloads - f.free < g.downloads - g.free)
  {}

  lemma BootDevice(w: World, e: Event)
    requires e.Booted? && !w.d.up
    ensures Step(w, e).d == Boot(w.d, e.boot)
  {}

  lemma CheckDevice(w: World, e: Event)
    requires e.Checked? && w.d.up
    ensures Step(w, e).d == w.d || !Step(w, e).d.up
  {}

  /** The device side of a step is a step of the guard's own runs. */
  lemma DeviceCoherent(w: World, e: Event)
    requires Runs.Coherent(w.d)
    ensures Runs.Coherent(Step(w, e).d)
  {
    match e {
      case Booted(b, _) =>
        if !w.d.up {
          BootDevice(w, e);
          Runs.BootKeepsUnknown(w.d, b);
        }
      case LoopTurn(t, _, _, _, _) =>
        if w.d.up {
          TurnParts(w, e);
          Runs.TurnFrame(w.d, t);
        }
      case Checked(_, _, _, _) => if w.d.up { CheckDevice(w, e); }
      case _ =>
    }
  }

  /** The record knows the running build. */
  lemma RunningStep(w: World, e: Event)
    requires w.d.up ==> w.f.running == Some(w.Running())
    ensures var x := Step(w, e); x.d.up ==> x.f.running == Some(x.Running())
  {
    if e.Booted? && !w.d.up {
      Runs.BeforeGuard(w.d, e.boot);
      GuardStays(Runs.AtGuard(w.d, e.boot), e.boot.guard);
    } else if e.LoopTurn? && w.d.up {
      TurnRunning(w, e);
    }
  }

  lemma GuardStays(c: Device, g: GuardEnv)
    ensures Guard(c, g).running == c.running
  {}

  lemma TurnRunning(w: World, e: Event)
    requires e.LoopTurn? && w.d.up
    ensures Step(w, e).d.running == w.d.running && Step(w, e).f.running == w.f.running
    ensures Step(w, e).inA == w.inA && Step(w, e).inB == w.inB
  {
    TurnParts(w, e);
    TurnSlot(w.d, e.turn);
  }

  lemma TurnSlot(d: Device, t: TurnEnv)
    ensures Turn(d, t).running == d.running
  {}

  lemma BootSound(w: World, e: Event, nvsS: nat, markT: nat, right: bool) returns (nvsS': nat, markT': nat)
    requires Sound(w, nvsS, markT, right) && e.Booted? && !w.d.up && DownOk(e)
    ensures Fled.Sound(Step(w, e).f, nvsS', markT', right)
  {
    var build := w.In(Bootloader(w.d).running);
    var f := w.f.(running := Some(build));
    RunningIsFree(w.f, Some(build), nvsS, markT, right);
    nvsS', markT' := nvsS, markT;
    if !Boot(w.d, e.boot).up {
      var note := if Switches(w.d, e.boot)
                  then Fled.Rewritten(build, e.noted.ageLands, e.noted.verLands, e.noted.down)
                  else Fled.Reset(e.noted.down);
      nvsS', markT' := Fled.StepSound(f, note, nvsS, markT, right);
    }
  }

  lemma TurnSound(w: World, e: Event, nvsS: nat, markT: nat, right: bool) returns (nvsS': nat, markT': nat)
    requires Sound(w, nvsS, markT, right) && e.LoopTurn? && w.d.up && (right ==> ClockOk(w, e))
    ensures Fled.Sound(Step(w, e).f, nvsS', markT', right)
  {
    var tick := Fled.Turn(e.clock, e.wrote, e.readable);
    nvsS', markT' := Fled.StepSound(w.f, tick, nvsS, markT, right);
    if Drops(w.d, e.turn) {
      nvsS', markT' := Fled.StepSound(Fled.Step(w.f, tick), Fled.Dropped(e.dropLands), nvsS', markT', right);
    }
  }

  lemma InstallSound(w: World, i: Install, nvsS: nat, markT: nat, right: bool) returns (nvsS': nat, markT': nat)
    requires Fled.Sound(w.f, nvsS, markT, right) && Fled.PossibleDown(i.noted.down)
    ensures Fled.Sound(InstallStep(w, i).f, nvsS', markT', right)
    ensures InstallStep(w, i).f.downloads == w.f.downloads && InstallStep(w, i).f.free == w.f.free
  {
    var note := if RecordsInstall(w.f.rec.ver, Some(w.f.v))
                then Fled.Rewritten(w.f.v, i.noted.ageLands, i.noted.verLands, i.noted.down)
                else Fled.Reset(i.noted.down);
    nvsS', markT' := Fled.StepSound(w.f, note, nvsS, markT, right);
  }

  lemma CheckShape(w: World, e: Event)
    requires e.Checked? && w.d.up
    ensures var f := Fled.Step(w.f, Fled.Checked(e.clock, e.wrote, e.readable));
            Step(w, e) ==
              if w.Running() == w.f.v then w
              else if f.downloads > w.f.downloads && e.install.Some? then
                InstallStep(w.(f := f, bare := w.bare + One(!Fled.Guarded(w.f, e.readable))), e.install.value)
              else w.(f := f)
  {}

  lemma PaidInstall(w: World, f: Fled.World, bare: nat, i: Install, nvsS: nat, markT: nat, right: bool)
    returns (nvsS': nat, markT': nat)
    requires Fled.Sound(f, nvsS, markT, right) && Fled.PossibleDown(i.noted.down)
    requires f.free <= f.downloads && w.installs + 1 - bare <= f.downloads - f.free
    ensures var x := InstallStep(w.(f := f, bare := bare), i);
            && Fled.Sound(x.f, nvsS', markT', right)
            && x.f.free <= x.f.downloads && x.installs - x.bare <= x.f.downloads - x.f.free
  {
    nvsS', markT' := InstallSound(w.(f := f, bare := bare), i, nvsS, markT, right);
  }

  lemma CheckSound(w: World, e: Event, nvsS: nat, markT: nat, right: bool) returns (nvsS': nat, markT': nat)
    requires Sound(w, nvsS, markT, right) && e.Checked? && w.d.up && Possible(w, e, right)
    ensures var x := Step(w, e);
            && Fled.Sound(x.f, nvsS', markT', right)
            && x.f.free <= x.f.downloads && x.installs - x.bare <= x.f.downloads - x.f.free
  {
    CheckShape(w, e);
    nvsS', markT' := nvsS, markT;
    if w.Running() != w.f.v {
      var check := Fled.Checked(e.clock, e.wrote, e.readable);
      var f := Fled.Step(w.f, check);
      nvsS', markT' := Fled.StepSound(w.f, check, nvsS, markT, right);
      CheckPays(w.f, e.clock, e.wrote, e.readable);
      if f.downloads > w.f.downloads && e.install.Some? {
        var bare := w.bare + One(!Fled.Guarded(w.f, e.readable));
        nvsS', markT' := PaidInstall(w, f, bare, e.install.value, nvsS', markT', right);
      }
    }
  }

  lemma RecordKeepsCounts(f: Fled.World, e: Fled.Event)
    requires !e.Checked? && !e.Forced?
    ensures Fled.Step(f, e).downloads == f.downloads && Fled.Step(f, e).free == f.free
  {}

  lemma BootKeepsCounts(w: World, e: Event)
    requires e.Booted? && !w.d.up
    ensures var x := Step(w, e);
            x.installs == w.installs && x.bare == w.bare && x.f.downloads == w.f.downloads && x.f.free == w.f.free
  {
    var build := w.In(Bootloader(w.d).running);
    var f := w.f.(running := Some(build));
    RecordKeepsCounts(f, Fled.Rewritten(build, e.noted.ageLands, e.noted.verLands, e.noted.down));
    RecordKeepsCounts(f, Fled.Reset(e.noted.down));
  }

  /** Everything but a check leaves the counts alone. */
  lemma CountsStay(w: World, e: Event)
    requires !e.Checked? || !w.d.up
    ensures var x := Step(w, e);
            x.installs == w.installs && x.bare == w.bare && x.f.downloads == w.f.downloads && x.f.free == w.f.free
  {
    if e.Booted? && !w.d.up { BootKeepsCounts(w, e); }
    else if e.LoopTurn? && w.d.up {
      var tick := Fled.Turn(e.clock, e.wrote, e.readable);
      RecordKeepsCounts(w.f, tick);
      RecordKeepsCounts(Fled.Step(w.f, tick), Fled.Dropped(e.dropLands));
    }
  }

  lemma RecordSound(w: World, e: Event, nvsS: nat, markT: nat, right: bool) returns (nvsS': nat, markT': nat)
    requires Sound(w, nvsS, markT, right) && Possible(w, e, right) && (!e.Checked? || !w.d.up)
    ensures Fled.Sound(Step(w, e).f, nvsS', markT', right)
  {
    nvsS', markT' := nvsS, markT;
    match e {
      case Booted(_, _) => if !w.d.up { nvsS', markT' := BootSound(w, e, nvsS, markT, right); }
      case LoopTurn(_, _, _, _, _) => if w.d.up { nvsS', markT' := TurnSound(w, e, nvsS, markT, right); }
      case Restarted(_, down) =>
        if w.d.up { nvsS', markT' := Fled.StepSound(w.f, Fled.Reset(down), nvsS, markT, right); }
      case Wait(ms) => nvsS', markT' := Fled.StepSound(w.f, Fled.Wait(ms), nvsS, markT, right);
      case _ =>
    }
  }

  lemma StepSound(w: World, e: Event, nvsS: nat, markT: nat, right: bool) returns (nvsS': nat, markT': nat)
    requires Sound(w, nvsS, markT, right) && Possible(w, e, right)
    ensures Sound(Step(w, e), nvsS', markT', right)
  {
    DeviceCoherent(w, e);
    RunningStep(w, e);
    if e.Checked? && w.d.up {
      nvsS', markT' := CheckSound(w, e, nvsS, markT, right);
    } else {
      nvsS', markT' := RecordSound(w, e, nvsS, markT, right);
      CountsStay(w, e);
    }
  }

  lemma SoundAgrees(w: World, nvsS: nat, markT: nat, right: bool)
    requires Sound(w, nvsS, markT, right)
    ensures Runs.Coherent(w.d) && RamAgrees(w)
  {}

  lemma StartStays(w: World, e: Event)
    ensures Step(w, e).f.sinceS == w.f.sinceS
  {}

  // ---- Whole runs ----

  predicate PossibleRun(w: World, run: seq<Event>, right: bool)
    decreases run
  {
    run == [] || (Possible(w, run[0], right) && PossibleRun(Step(w, run[0]), run[1..], right))
  }

  function Exec(w: World, run: seq<Event>): World
    decreases run
  {
    if run == [] then w else Exec(Step(w, run[0]), run[1..])
  }

  function CountCosts(w: World, run: seq<Event>): nat
    decreases run
  {
    if run == [] then 0 else Cost(w, run[0]) + CountCosts(Step(w, run[0]), run[1..])
  }

  lemma {:induction false} RunBudget(w: World, run: seq<Event>, nvsS: nat, markT: nat, right: bool)
    returns (nvsS': nat, markT': nat)
    requires Sound(w, nvsS, markT, right) && PossibleRun(w, run, right)
    ensures Sound(Exec(w, run), nvsS', markT', right)
    ensures Exec(w, run).bare - w.bare + One(Exposed(Exec(w, run))) <= One(Exposed(w)) + CountCosts(w, run)
    ensures Exec(w, run).f.sinceS == w.f.sinceS
    decreases run
  {
    nvsS', markT' := nvsS, markT;
    if run != [] {
      SoundAgrees(w, nvsS, markT, right);
      StepCost(w, run[0]);
      StartStays(w, run[0]);
      nvsS', markT' := StepSound(w, run[0], nvsS, markT, right);
      nvsS', markT' := RunBudget(Step(w, run[0]), run[1..], nvsS', markT', right);
    }
  }

  predicate Begins(w: World, t: nat) {
    !w.d.up && w.installs == 0 && w.bare == 0 && Fled.FreshStart(w.f, t)
  }

  lemma BareBudget(w: World, t: nat, run: seq<Event>, right: bool)
    requires Begins(w, t) && PossibleRun(w, run, right)
    ensures Exec(w, run).bare <= 1 + CountCosts(w, run)
  {
    StartSound(w, t, right);
    var nvsS, markT := RunBudget(w, run, t / 1000, t, right);
  }

  lemma PaidBudget(w: World, t: nat, run: seq<Event>, right: bool)
    requires Begins(w, t) && PossibleRun(w, run, right)
    ensures var x := Exec(w, run);
            x.installs <= x.bare + 2 * ((x.f.Epoch() - t / 1000 + Fled.Slack(x.f.boots, right)) / SKIP_S)
  {
    StartSound(w, t, right);
    var nvsS, markT := RunBudget(w, run, t / 1000, t, right);
    SoundBudget(Exec(w, run), nvsS, markT, right);
  }

  /**
   However the release boots, crashes, is aborted, confirmed or left, unforced
   checks install it at most once, and then twice for each full day, plus once
   for each cost.
   */
  lemma InstallBudget(w: World, t: nat, run: seq<Event>, right: bool)
    requires Begins(w, t) && PossibleRun(w, run, right)
    ensures var x := Exec(w, run);
            x.installs <= 1 + CountCosts(w, run)
                          + 2 * ((x.f.Epoch() - t / 1000 + Fled.Slack(x.f.boots, right)) / SKIP_S)
  {
    BareBudget(w, t, run, right);
    PaidBudget(w, t, run, right);
  }

  lemma StartSound(w: World, t: nat, right: bool)
    requires Begins(w, t)
    ensures Sound(w, t / 1000, t, right) && w.f.sinceS == t / 1000
  {
    Fled.FreshSound(w.f, t, right);
  }

  lemma SoundBudget(w: World, nvsS: nat, markT: nat, right: bool)
    requires Sound(w, nvsS, markT, right)
    ensures w.installs <= w.bare + 2 * ((w.f.Epoch() - w.f.sinceS + Fled.Slack(w.f.boots, right)) / SKIP_S)
  {
    Fled.SoundBudget(w.f, nvsS, markT, right);
  }
}
