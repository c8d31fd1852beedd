/**
 Runs of the fled record against real time, followed for one release: main loop
 turns, forced and unforced checks of that release, resets and power-ons, records written
 by installs and switches or dropped again, with every NVS read and write free
 to fail. Real time is milliseconds since the Unix epoch; the clock is what SNTP gives.
 */
module OtaFledRuns {
  import opened Options
  import opened ByteStrings
  import opened OtaFled

  /**
   v is the release, running the build of this boot. t is now, bootAt the start
   of this boot, sinceS the second the run started. boots counts boots, days
   the skip days whose tries are spent. free counts the downloads of v that no
   record pays for: forced ones, and those of boots that did not hold its record.
   */
  datatype World = World(
    v: Version, rec: Record, running: Option<Version>, t: nat, bootAt: nat, sinceS: nat, boots: nat, days: nat,
    downloads: nat, free: nat)
  {
    function Millis(): nat { (t - bootAt) % WORD }
    function Epoch(): nat { t / 1000 }
  }

  /** What a reset leaves in RTC memory, and the build that boots next. */
  datatype Down = Down(noiseValue: nat, noiseCheck: nat, powerOn: bool, next: Option<Version>)

  datatype Event =
    | Wait(ms: nat)
    | Turn(clock: nat, wrote: bool, readable: bool)
    | Checked(clock: nat, wrote: bool, readable: bool)
    | Forced(clock: nat, wrote: bool, readable: bool)
    | Dropped(lands: bool)
    | Rewritten(version: Version, ageLands: bool, verLands: bool, down: Down)
    | Reset(down: Down)

  /** A power-on leaves noise that is not a complementary pair. */
  predicate PossibleDown(d: Down) { d.powerOn ==> d.noiseCheck != Complement(d.noiseValue) }

  predicate Possible(e: Event) { e.Reset? || e.Rewritten? ==> PossibleDown(e.down) }

  /** A right clock is unsynced or shows the second of the day, in 32 bits. */
  predicate ClockShows(w: World, clock: nat) { clock == 0 || clock == w.Epoch() % WORD }

  predicate ClockRight(w: World, e: Event) { e.Turn? || e.Checked? || e.Forced? ==> ClockShows(w, e.clock) }

  function Reboot(r: Record, d: Down): Record {
    var down := r.(loaded := false, savedThisBoot := false, ver := None, saved := FledAge(0, 0, 0),
                   carry := 0, markMs := 0);
    if d.powerOn then down.(rtcValue := d.noiseValue, rtcCheck := d.noiseCheck) else down
  }

  /** The stored record is the release's, with a try spent. */
  predicate TrySpent(v: Version, r: Record) { r.nvsVer == Some(v) && Unpack(r.nvs).tries >= 1 }

  /** The world with another record; a spent try that is gone closes its day. */
  function WithRecord(w: World, r: Record): World {
    w.(rec := r, days := if TrySpent(w.v, w.rec) && !TrySpent(w.v, r) then w.days + 1 else w.days)
  }

  function GoDown(w: World, d: Down): World {
    w.(rec := Reboot(w.rec, d), running := d.next, bootAt := w.t, boots := w.boots + 1)
  }

  /** This boot holds the release's record. */
  predicate Guarded(w: World, readable: bool) { Load(w.rec, readable).ver == Some(w.v) }

  /** The build that runs is not offered to itself: check ends as up to date. */
  predicate Offered(w: World) { w.running != Some(w.v) }

  function CheckStep(w: World, clock: nat, wrote: bool, readable: bool): World {
    if Offered(w) then OfferStep(w, clock, wrote, readable) else w
  }

  function OfferStep(w: World, clock: nat, wrote: bool, readable: bool): World {
    var (rec, out) := Check(w.rec, Some(w.v), false, w.Millis(), clock, wrote, readable);
    var got := if out == Downloads then 1 else 0;
    WithRecord(w, rec).(downloads := w.downloads + got, free := if Guarded(w, readable) then w.free else w.free + got)
  }

  /** A forced check passes the version gate and the fled gate. */
  function ForceStep(w: World, clock: nat, wrote: bool, readable: bool): World {
    var (rec, out) := Check(w.rec, Some(w.v), true, w.Millis(), clock, wrote, readable);
    var got := if out == Downloads then 1 else 0;
    WithRecord(w, rec).(downloads := w.downloads + got, free := w.free + got)
  }

  function Step(w: World, e: Event): World {
    match e
    case Wait(ms) => w.(t := w.t + ms)
    case Turn(clock, wrote, readable) => WithRecord(w, Tick(w.rec, w.running, w.Millis(), clock, wrote, readable))
    case Checked(clock, wrote, readable) => CheckStep(w, clock, wrote, readable)
    case Forced(clock, wrote, readable) => ForceStep(w, clock, wrote, readable)
    case Dropped(lands) => WithRecord(w, DropOwn(w.rec, w.running, lands))
    case Rewritten(version, ageLands, verLands, down) =>
      GoDown(WithRecord(w, Put(w.rec, version, ageLands, verLands)), down)
    case Reset(down) => GoDown(w, down)
  }

  predicate PossibleRun(w: World, run: seq<Event>, right: bool)
    decreases run
  {
    run == []
    || (Possible(run[0]) && (right ==> ClockRight(w, run[0])) && PossibleRun(Step(w, run[0]), run[1..], right))
  }

  function Exec(w: World, run: seq<Event>): World
    decreases run
  {
    if run == [] then w else Exec(Step(w, run[0]), run[1..])
  }

  /** A boot that starts with nothing counted yet; r is what is stored. */
  function Begun(v: Version, r: Record, running: Option<Version>, t: nat): World {
    World(v, Reboot(r, Down(0, 0, false, running)), running, t, t, t / 1000, 1, 0, 0, 0)
  }

  const NoRecord: Record := Record(None, 0, 0, Complement(0), false, false, None, FledAge(0, 0, 0), 0, 0)

  /** The first boot after the record was written, at second `t / 1000`. */
  function Recorded(v: Version, running: Option<Version>, t: nat): World {
    Begun(v, Put(NoRecord, v, true, true), running, t)
  }

  // ---- The invariant ----

  /** Seconds an arbitrary clock may have added, one gap for each boot that saved. */
  function Slack(boots: nat, right: bool): nat {
    if right then 0 else GAP_MAX_S * boots
  }

  /** Everything credited so far: the days closed and an age. */
  function Credit(w: World, ageS: nat): nat {
    w.days * SKIP_S + ageS
  }

  /** Boots whose clock gap may be in the saved age. */
  function GapBoots(w: World): nat {
    if w.rec.savedThisBoot || w.boots == 0 then w.boots else w.boots - 1
  }

  /** Seconds a credit may reach by second s. */
  function Due(w: World, s: nat, right: bool): int { s - w.sinceS + Slack(GapBoots(w), right) }

  /** nvsS is the second the stored word was written, markT the real time of markMs. */
  predicate Timed(w: World, nvsS: nat, markT: nat) {
    && w.bootAt <= markT <= w.t && w.rec.markMs == (markT - w.bootAt) % WORD
    && w.sinceS <= nvsS <= w.t / 1000 && w.sinceS <= w.bootAt / 1000 && w.boots >= 1
    && (w.rec.loaded ==> w.rec.ver.None? || w.rec.ver == w.rec.nvsVer)
    && (!w.rec.loaded ==> !w.rec.savedThisBoot && markT == w.bootAt && w.rec.ver.None?)
  }

  /**
   While the record is the release's, its age, with the seconds counted beside
   it, never runs ahead of the real seconds, up to the slack of the clock.
   */
  predicate SoundNvs(w: World, nvsS: nat, right: bool) {
    var n := Unpack(w.rec.nvs);
    && n.tries < 0x100 && n.ageS <= SKIP_S && (n.tries >= 1 ==> n.ageS == SKIP_S)
    && (right ==> n.seenEpoch == 0 || n.seenEpoch == nvsS % WORD)
    && Credit(w, n.ageS) <= Due(w, nvsS, right)
    && Credit(w, n.ageS) + CarryOf(w.rec) <= Due(w, w.t / 1000, right)
    && (!w.rec.loaded ==>
          nvsS <= w.bootAt / 1000 && Credit(w, n.ageS) + CarryOf(w.rec) <= Due(w, w.bootAt / 1000, right))
  }

  predicate SoundRam(w: World, nvsS: nat, markT: nat, right: bool) {
    var n := Unpack(w.rec.nvs);
    && n.ageS <= w.rec.saved.ageS <= SKIP_S && n.tries == w.rec.saved.tries
    && (!w.rec.savedThisBoot ==> w.rec.saved == n && nvsS <= w.bootAt / 1000)
    && Credit(w, w.rec.saved.ageS) + w.rec.carry <= Due(w, markT / 1000, right)
  }

  predicate Sound(w: World, nvsS: nat, markT: nat, right: bool) {
    && Timed(w, nvsS, markT) && Credit(w, 0) <= Due(w, w.t / 1000, right)
    && (w.rec.nvsVer == Some(w.v) ==> SoundNvs(w, nvsS, right))
    && (w.rec.loaded && w.rec.ver == Some(w.v) ==> SoundRam(w, nvsS, markT, right))
    && w.downloads <= w.free + 2 * w.days + (if TrySpent(w.v, w.rec) then 1 else 0)
  }

  lemma MillisSinceMark(t: nat, markT: nat, bootAt: nat)
    requires bootAt <= markT <= t
    ensures ((t - bootAt) % WORD - (markT - bootAt) % WORD) % WORD == (t - markT) % WORD
  {
    var p, q := (t - bootAt) / WORD, (markT - bootAt) / WORD;
    var d := (t - bootAt) % WORD - (markT - bootAt) % WORD;
    assert t - markT == d + WORD * (p - q);
    AddMultiple(d, p - q);
  }

  lemma {:induction false} AddMultiple(d: int, k: int)
    ensures (d + WORD * k) % WORD == d % WORD
    decreases if k < 0 then -k else k
  {
    if k > 0 { AddMultiple(d, k - 1); }
    else if k < 0 { AddMultiple(d, k + 1); }
  }

  lemma SecondsAdd(a: nat, b: nat)
    requires a <= b
    ensures a / 1000 + (b - a) % WORD / 1000 <= b / 1000
  {
    assert (b - a) % WORD <= b - a;
  }

  /** Two right readings never show more seconds than passed between them. */
  lemma ClockGap(from: nat, to: nat)
    requires from <= to && from % WORD < to % WORD
    ensures to % WORD - from % WORD <= to - from
  {}

  lemma LoadSound(w: World, nvsS: nat, markT: nat, readable: bool, right: bool)
    requires Sound(w, nvsS, markT, right)
    ensures Sound(w.(rec := Load(w.rec, readable)), nvsS, markT, right)
  {}

  /** The age a check or a save reads is bounded by real time. */
  lemma AgeBound(w: World, nvsS: nat, markT: nat, clock: nat, right: bool)
    requires Sound(w, nvsS, markT, right) && w.rec.loaded && w.rec.ver == Some(w.v)
    requires right ==> ClockShows(w, clock)
    ensures Credit(w, AgeNow(w.rec, w.Millis(), clock)) <= w.Epoch() - w.sinceS + Slack(w.boots, right)
    ensures w.rec.saved.ageS <= AgeNow(w.rec, w.Millis(), clock) <= SKIP_S
    ensures Credit(w, w.rec.saved.ageS) + UnsavedS(w.rec, w.Millis()) <= Due(w, w.Epoch(), right)
  {
    MillisSinceMark(w.t, markT, w.bootAt);
    SecondsAdd(markT, w.t);
    var seen := w.rec.saved.seenEpoch;
    if right && !w.rec.savedThisBoot && seen != 0 && clock > seen {
      ClockGap(nvsS, w.Epoch());
    }
  }

  /** A save for another release. */
  lemma OtherSaveSound(w: World, nvsS: nat, markT: nat, s: Record, right: bool)
    requires Sound(w, nvsS, markT, right) && w.rec.loaded && w.rec.ver.Some? && w.rec.ver != Some(w.v)
    requires s.loaded && s.ver == w.rec.ver && s.nvsVer == w.rec.nvsVer && s.markMs == w.Millis() && s.savedThisBoot
    ensures Sound(WithRecord(w, s), nvsS, w.t, right)
  {}

  lemma SaveSound(w: World, nvsS: nat, markT: nat, clock: nat, wrote: bool, right: bool)
    returns (nvsS': nat)
    requires Sound(w, nvsS, markT, right) && w.rec.loaded && w.rec.ver.Some?
    requires right ==> ClockShows(w, clock)
    ensures var age := AgeNow(w.rec, w.Millis(), clock);
            Sound(WithRecord(w, Save(w.rec, age, w.rec.saved.tries, w.Millis(), clock, wrote)), nvsS', w.t, right)
  {
    nvsS' := if wrote then w.Epoch() else nvsS;
    var age := AgeNow(w.rec, w.Millis(), clock);
    var s := Save(w.rec, age, w.rec.saved.tries, w.Millis(), clock, wrote);
    if w.rec.ver == Some(w.v) {
      AgeBound(w, nvsS, markT, clock, right);
      UnpackPack(FledAge(age, w.rec.saved.tries, clock));
    } else {
      OtherSaveSound(w, nvsS, markT, s, right);
    }
  }

  /** Noting the unsaved seconds in RTC memory. */
  lemma NoteSound(w: World, nvsS: nat, markT: nat, right: bool)
    requires Sound(w, nvsS, markT, right) && w.rec.loaded && w.rec.ver.Some?
    ensures Sound(WithRecord(w, PutUnsaved(w.rec, UnsavedS(w.rec, w.Millis()))), nvsS, markT, right)
  {
    if w.rec.ver == Some(w.v) { AgeBound(w, nvsS, markT, 0, right); }
  }

  lemma TurnSound(w: World, nvsS: nat, markT: nat, e: Event, right: bool) returns (nvsS': nat, markT': nat)
    requires Sound(w, nvsS, markT, right) && e.Turn? && (right ==> ClockRight(w, e))
    ensures Sound(Step(w, e), nvsS', markT', right)
  {
    LoadSound(w, nvsS, markT, e.readable, right);
    var l := w.(rec := Load(w.rec, e.readable));
    nvsS', markT' := nvsS, markT;
    if Ages(l.rec.ver, w.running, l.rec.saved.ageS) {
      if SaveDue(UnsavedS(l.rec, l.Millis()), false) {
        nvsS' := SaveSound(l, nvsS, markT, e.clock, e.wrote, right);
        markT' := l.t;
      } else {
        NoteSound(l, nvsS, markT, right);
      }
    }
  }

  // ---- Checks ----

  /** What a landed try leaves: the day stays expired, or it is closed and starts over. */
  function SpentTry(l: World, clock: nat): World {
    if l.rec.saved.tries == 0
    then l.(rec := Save(l.rec, SKIP_S, 1, l.Millis(), clock, true), downloads := l.downloads + 1)
    else l.(rec := Save(l.rec, 0, 0, l.Millis(), clock, true), downloads := l.downloads + 1, days := l.days + 1)
  }

  lemma FirstTrySound(l: World, nvsS: nat, markT: nat, clock: nat, right: bool)
    requires Sound(l, nvsS, markT, right) && l.rec.loaded && l.rec.ver == Some(l.v) && l.rec.saved.tries == 0
    requires (right ==> ClockShows(l, clock)) && AgeNow(l.rec, l.Millis(), clock) == SKIP_S
    ensures Sound(SpentTry(l, clock), l.Epoch(), l.t, right)
  {
    AgeBound(l, nvsS, markT, clock, right);
    UnpackPack(FledAge(SKIP_S, 1, clock));
  }

  /** Closing the day credits the same seconds as its expired age did. */
  lemma CloseDay(days: nat)
    ensures (days + 1) * SKIP_S == days * SKIP_S + SKIP_S
  {}

  /** A record whose day starts over. */
  predicate DayStartsOver(l: World, r: Record, clock: nat) {
    && r.nvsVer == l.rec.nvsVer && r.ver == l.rec.ver && r.loaded && r.savedThisBoot && r.markMs == l.Millis()
    && r.carry == 0 && CarryOf(r) == 0 && r.saved == FledAge(0, 0, clock) && Unpack(r.nvs) == FledAge(0, 0, clock)
  }

  lemma DayClosed(l: World, nvsS: nat, markT: nat, r: Record, clock: nat, right: bool)
    requires Sound(l, nvsS, markT, right) && l.rec.loaded && l.rec.ver == Some(l.v) && l.rec.saved.tries > 0
    requires (right ==> ClockShows(l, clock)) && DayStartsOver(l, r, clock)
    requires Credit(l, SKIP_S) <= l.Epoch() - l.sinceS + Slack(l.boots, right)
    ensures Sound(l.(rec := r, downloads := l.downloads + 1, days := l.days + 1), l.Epoch(), l.t, right)
  {
    CloseDay(l.days);
  }

  lemma LastTrySound(l: World, nvsS: nat, markT: nat, clock: nat, right: bool)
    requires Sound(l, nvsS, markT, right) && l.rec.loaded && l.rec.ver == Some(l.v) && l.rec.saved.tries > 0
    requires (right ==> ClockShows(l, clock)) && AgeNow(l.rec, l.Millis(), clock) == SKIP_S
    ensures Sound(SpentTry(l, clock), l.Epoch(), l.t, right)
  {
    AgeBound(l, nvsS, markT, clock, right);
    UnpackPack(FledAge(0, 0, clock));
    DayClosed(l, nvsS, markT, SpentTry(l, clock).rec, clock, right);
  }

  lemma SpentStep(l: World, clock: nat, readable: bool)
    requires l.rec.loaded && l.rec.ver == Some(l.v) && l.rec.nvsVer == Some(l.v)
    requires Unpack(l.rec.nvs).tries == l.rec.saved.tries && AgeNow(l.rec, l.Millis(), clock) == SKIP_S
    ensures OfferStep(l, clock, true, readable) == SpentTry(l, clock)
  {
    UnpackPack(FledAge(SKIP_S, 1, clock));
    UnpackPack(FledAge(0, 0, clock));
  }

  /** A try whose save failed stays unspent. */
  lemma UnspentSound(l: World, nvsS: nat, markT: nat, clock: nat, readable: bool, right: bool)
    requires Sound(l, nvsS, markT, right) && l.rec.loaded && l.rec.ver == Some(l.v)
    requires (right ==> ClockShows(l, clock)) && AgeNow(l.rec, l.Millis(), clock) == SKIP_S
    ensures Sound(OfferStep(l, clock, false, readable), nvsS, l.t, right)
  {
    AgeBound(l, nvsS, markT, clock, right);
  }

  lemma GuardedCheckSound(l: World, nvsS: nat, markT: nat, clock: nat, wrote: bool, readable: bool, right: bool)
    returns (nvsS': nat, markT': nat)
    requires Sound(l, nvsS, markT, right) && l.rec.loaded && l.rec.ver == Some(l.v) && (right ==> ClockShows(l, clock))
    ensures Sound(OfferStep(l, clock, wrote, readable), nvsS', markT', right)
  {
    nvsS', markT' := nvsS, markT;
    AgeBound(l, nvsS, markT, clock, right);
    if AgeNow(l.rec, l.Millis(), clock) >= SKIP_S {
      if wrote {
        SpentStep(l, clock, readable);
        if l.rec.saved.tries == 0 { FirstTrySound(l, nvsS, markT, clock, right); }
        else { LastTrySound(l, nvsS, markT, clock, right); }
        nvsS' := l.Epoch();
      } else {
        UnspentSound(l, nvsS, markT, clock, readable, right);
      }
      markT' := l.t;
    } else if SaveDue(UnsavedS(l.rec, l.Millis()), !l.rec.savedThisBoot) {
      nvsS' := SaveSound(l, nvsS, markT, clock, wrote, right);
      markT' := l.t;
    }
  }

  lemma LoadFirst(w: World, clock: nat, wrote: bool, readable: bool)
    ensures OfferStep(w, clock, wrote, readable) ==
              OfferStep(w.(rec := Load(w.rec, readable)), clock, wrote, readable)
  {}

  lemma UnguardedCheck(l: World, clock: nat, wrote: bool, readable: bool)
    requires l.rec.loaded && l.rec.ver != Some(l.v)
    ensures OfferStep(l, clock, wrote, readable) == l.(downloads := l.downloads + 1, free := l.free + 1)
  {}

  lemma FreeSound(l: World, nvsS: nat, markT: nat, right: bool)
    requires Sound(l, nvsS, markT, right)
    ensures Sound(l.(downloads := l.downloads + 1, free := l.free + 1), nvsS, markT, right)
  {}

  lemma LoadedCheckSound(l: World, nvsS: nat, markT: nat, clock: nat, wrote: bool, readable: bool, right: bool)
    returns (nvsS': nat, markT': nat)
    requires Sound(l, nvsS, markT, right) && l.rec.loaded && (right ==> ClockShows(l, clock))
    ensures Sound(OfferStep(l, clock, wrote, readable), nvsS', markT', right)
  {
    if l.rec.ver == Some(l.v) {
      nvsS', markT' := GuardedCheckSound(l, nvsS, markT, clock, wrote, readable, right);
    } else {
      UnguardedCheck(l, clock, wrote, readable);
      FreeSound(l, nvsS, markT, right);
      nvsS', markT' := nvsS, markT;
    }
  }

  lemma CheckSound(w: World, nvsS: nat, markT: nat, e: Event, right: bool) returns (nvsS': nat, markT': nat)
    requires Sound(w, nvsS, markT, right) && e.Checked? && (right ==> ClockRight(w, e))
    ensures Sound(Step(w, e), nvsS', markT', right)
  {
    nvsS', markT' := nvsS, markT;
    if Offered(w) {
      LoadSound(w, nvsS, markT, e.readable, right);
      LoadFirst(w, e.clock, e.wrote, e.readable);
      var l := w.(rec := Load(w.rec, e.readable));
      nvsS', markT' := LoadedCheckSound(l, nvsS, markT, e.clock, e.wrote, e.readable, right);
    }
  }

  lemma ForcedStep(w: World, clock: nat, wrote: bool, readable: bool)
    ensures var l := w.(rec := Load(w.rec, readable));
            ForceStep(w, clock, wrote, readable) == l.(downloads := l.downloads + 1, free := l.free + 1)
  {
    ForcedPasses(w.rec, Some(w.v), w.Millis(), clock, wrote, readable);
  }

  lemma ForcedSound(w: World, nvsS: nat, markT: nat, e: Event, right: bool)
    requires Sound(w, nvsS, markT, right) && e.Forced?
    ensures Sound(Step(w, e), nvsS, markT, right)
  {
    LoadSound(w, nvsS, markT, e.readable, right);
    ForcedStep(w, e.clock, e.wrote, e.readable);
    FreeSound(w.(rec := Load(w.rec, e.readable)), nvsS, markT, right);
  }

  // ---- Records written and dropped, resets ----

  lemma DropSound(w: World, nvsS: nat, markT: nat, lands: bool, right: bool)
    requires Sound(w, nvsS, markT, right)
    ensures Sound(Step(w, Dropped(lands)), nvsS, markT, right)
  {}

  lemma DownSound(w: World, nvsS: nat, markT: nat, d: Down, right: bool)
    requires Sound(w, nvsS, markT, right) && PossibleDown(d)
    ensures Sound(GoDown(w, d), nvsS, w.t, right)
  {}

  lemma RewriteSound(w: World, nvsS: nat, markT: nat, e: Event, right: bool) returns (nvsS': nat)
    requires Sound(w, nvsS, markT, right) && e.Rewritten? && Possible(e)
    ensures Sound(Step(w, e), nvsS', w.t, right)
  {
    UnpackPack(FledAge(0, 0, 0));
    nvsS' := if e.ageLands then w.Epoch() else nvsS;
    var p := Put(w.rec, e.version, e.ageLands, e.verLands);
    if e.ageLands {
      FreshDown(w, WithRecord(w, p), e.down, right);
    } else {
      assert Sound(WithRecord(w, p), nvsS, markT, right);
      DownSound(WithRecord(w, p), nvsS, markT, e.down, right);
    }
  }

  /** The boot after a fresh age was stored. */
  lemma FreshDown(w: World, p: World, d: Down, right: bool)
    requires PossibleDown(d) && p == WithRecord(w, p.rec) && p.rec.nvs == Pack(FledAge(0, 0, 0)) && CarryOf(p.rec) == 0
    requires w.boots >= 1 && w.bootAt <= w.t && w.sinceS <= w.bootAt / 1000 && Credit(w, 0) <= Due(w, w.t / 1000, right)
    requires p.rec.savedThisBoot == w.rec.savedThisBoot
    requires TrySpent(w.v, w.rec) ==> Credit(w, SKIP_S) <= Due(w, w.t / 1000, right)
    requires w.downloads <= w.free + 2 * w.days + (if TrySpent(w.v, w.rec) then 1 else 0)
    ensures Sound(GoDown(p, d), w.Epoch(), w.t, right)
  {
    UnpackPack(FledAge(0, 0, 0));
  }

  lemma StepSound(w: World, e: Event, nvsS: nat, markT: nat, right: bool) returns (nvsS': nat, markT': nat)
    requires Sound(w, nvsS, markT, right) && Possible(e) && (right ==> ClockRight(w, e))
    ensures Sound(Step(w, e), nvsS', markT', right)
  {
    nvsS', markT' := nvsS, markT;
    match e {
      case Wait(_) =>
      case Turn(_, _, _) => nvsS', markT' := TurnSound(w, nvsS, markT, e, right);
      case Checked(_, _, _) => nvsS', markT' := CheckSound(w, nvsS, markT, e, right);
      case Forced(_, _, _) => ForcedSound(w, nvsS, markT, e, right);
      case Dropped(lands) => DropSound(w, nvsS, markT, lands, right);
      case Rewritten(_, _, _, _) =>
        nvsS' := RewriteSound(w, nvsS, markT, e, right);
        markT' := w.t;
      case Reset(down) =>
        DownSound(w, nvsS, markT, down, right);
        markT' := w.t;
    }
  }

  lemma {:induction false} RunSound(w: World, run: seq<Event>, nvsS: nat, markT: nat, right: bool)
    returns (nvsS': nat, markT': nat)
    requires Sound(w, nvsS, markT, right) && PossibleRun(w, run, right)
    ensures Sound(Exec(w, run), nvsS', markT', right)
    decreases run
  {
    nvsS', markT' := nvsS, markT;
    if run != [] {
      nvsS', markT' := StepSound(w, run[0], nvsS, markT, right);
      nvsS', markT' := RunSound(Step(w, run[0]), run[1..], nvsS', markT', right);
    }
  }

  // ---- Theorems over whole runs ----

  /** Starts whose stored record, if it is the release's, is fresh. */
  predicate FreshStart(w: World, t: nat) {
    && w == Begun(w.v, w.rec, w.running, t) && (w.rec.nvsVer == Some(w.v) ==> w.rec.nvs == Pack(FledAge(0, 0, 0)))
    && CarryOf(w.rec) == 0
  }

  lemma FreshSound(w: World, t: nat, right: bool)
    requires FreshStart(w, t)
    ensures Sound(w, t / 1000, t, right)
  {
    UnpackPack(FledAge(0, 0, 0));
  }

  lemma RecordedIsFresh(v: Version, running: Option<Version>, t: nat)
    ensures FreshStart(Recorded(v, running, t), t)
  {}

  lemma {:induction false} RunKeepsStart(w: World, run: seq<Event>)
    ensures Exec(w, run).sinceS == w.sinceS && Exec(w, run).v == w.v
    decreases run
  {
    if run != [] { RunKeepsStart(Step(w, run[0]), run[1..]); }
  }

  /**
   Skip days closed plus the present age never exceed the seconds since the
   start; an arbitrary clock adds at most an hour for each boot.
   */
  lemma SkipAgeIsSound(start: World, t: nat, run: seq<Event>, clock: nat, readable: bool, right: bool)
    requires FreshStart(start, t) && PossibleRun(start, run, right)
    requires right ==> ClockShows(Exec(start, run), clock)
    ensures var w := Exec(start, run);
            Guarded(w, readable) ==>
              w.days * SKIP_S + AgeNow(Load(w.rec, readable), w.Millis(), clock)
              <= w.Epoch() - t / 1000 + Slack(w.boots, right)
  {
    FreshSound(start, t, right);
    RunKeepsStart(start, run);
    var nvsS, markT := RunSound(start, run, t / 1000, t, right);
    var w := Exec(start, run);
    LoadSound(w, nvsS, markT, readable, right);
    if Guarded(w, readable) { AgeBound(w.(rec := Load(w.rec, readable)), nvsS, markT, clock, right); }
  }

  lemma DaysServed(days: nat, extra: nat, seconds: int)
    requires extra <= 1 && (days + extra) * SKIP_S <= seconds
    ensures 2 * days + extra <= 2 * (seconds / SKIP_S)
  {
    assert days + extra <= seconds / SKIP_S;
  }

  lemma SoundBudget(w: World, nvsS: nat, markT: nat, right: bool)
    requires Sound(w, nvsS, markT, right)
    ensures w.downloads <= w.free + 2 * ((w.Epoch() - w.sinceS + Slack(w.boots, right)) / SKIP_S)
  {
    DaysServed(w.days, if TrySpent(w.v, w.rec) then 1 else 0, w.Epoch() - w.sinceS + Slack(w.boots, right));
  }

  /** Forced checks of the release, and checks of it in boots that do not hold its record. */
  predicate Outside(w: World, e: Event) { e.Forced? || (e.Checked? && Offered(w) && !Guarded(w, e.readable)) }

  function CountOutside(w: World, run: seq<Event>): nat
    decreases run
  {
    if run == [] then 0 else (if Outside(w, run[0]) then 1 else 0) + CountOutside(Step(w, run[0]), run[1..])
  }

  lemma {:induction false} FreeAreOutside(w: World, run: seq<Event>)
    ensures Exec(w, run).free == w.free + CountOutside(w, run)
    decreases run
  {
    if run != [] {
      if run[0].Checked? { FreeStep(w, run[0].clock, run[0].wrote, run[0].readable); }
      if run[0].Forced? { ForcedStep(w, run[0].clock, run[0].wrote, run[0].readable); }
      FreeAreOutside(Step(w, run[0]), run[1..]);
    }
  }

  lemma FreeStep(w: World, clock: nat, wrote: bool, readable: bool)
    ensures CheckStep(w, clock, wrote, readable).free == w.free + if Offered(w) && !Guarded(w, readable) then 1 else 0
  {}

  /**
   In every run the release is downloaded at most twice for each full day,
   beside the forced checks and the checks of boots that did not hold its record.
   */
  lemma FledBudget(start: World, t: nat, run: seq<Event>, right: bool)
    requires FreshStart(start, t) && PossibleRun(start, run, right)
    ensures var w := Exec(start, run);
            w.downloads <= CountOutside(start, run) + 2 * ((w.Epoch() - t / 1000 + Slack(w.boots, right)) / SKIP_S)
  {
    FreshSound(start, t, right);
    RunKeepsStart(start, run);
    FreeAreOutside(start, run);
    var nvsS, markT := RunSound(start, run, t / 1000, t, right);
    SoundBudget(Exec(start, run), nvsS, markT, right);
  }

  /** Resets, turns, checks and failed writes, the record neither written nor dropped by others. */
  predicate Stays(run: seq<Event>) { forall e :: e in run ==> !e.Rewritten? && !e.Dropped? }

  /** The boot could not read the record. */
  predicate UnreadBoot(w: World, readable: bool) {
    if w.rec.loaded then w.rec.ver.None? else !readable
  }

  predicate Kept(w: World) {
    && w.rec.nvsVer == Some(w.v) && (w.rec.ver.None? || w.rec.ver == Some(w.v))
    && (!w.rec.loaded ==> w.rec.ver.None?)
  }

  lemma KeptStep(w: World, e: Event)
    requires Kept(w) && !e.Rewritten? && !e.Dropped?
    ensures Kept(Step(w, e))
  {}

  function CountUnread(w: World, run: seq<Event>): nat
    decreases run
  {
    if run == [] then 0
    else
      (if run[0].Forced? || (run[0].Checked? && Offered(w) && UnreadBoot(w, run[0].readable)) then 1 else 0)
      + CountUnread(Step(w, run[0]), run[1..])
  }

  /** While the record stays, the boots that do not hold it are those that could not read it. */
  lemma {:induction false} OutsideAreUnread(w: World, run: seq<Event>)
    requires Kept(w) && Stays(run)
    ensures CountOutside(w, run) == CountUnread(w, run)
    decreases run
  {
    if run != [] {
      assert run[0] in run;
      KeptStep(w, run[0]);
      OutsideAreUnread(Step(w, run[0]), run[1..]);
    }
  }

  lemma UnreadStep(w: World)
    requires w.rec.ver.None? && Offered(w)
    ensures var f := Step(w, Checked(0, true, false));
            Offered(f) && f.rec.ver.None? && f.downloads == w.downloads + 1 && !Guarded(w, false) && f.t == w.t
  {}

  /** Each check of a boot that cannot read the record downloads, when nothing came of the one before. */
  lemma {:induction false} UnreadChecksDownload(w: World, n: nat)
    requires w.rec.ver.None? && Offered(w)
    ensures var run := seq(n, _ => Checked(0, true, false));
            Exec(w, run).downloads == w.downloads + n && CountOutside(w, run) == n && Exec(w, run).t == w.t
    decreases n
  {
    if n > 0 {
      var run := seq(n, _ => Checked(0, true, false));
      assert run[1..] == seq(n - 1, _ => Checked(0, true, false));
      UnreadStep(w);
      UnreadChecksDownload(Step(w, run[0]), n - 1);
    }
  }

  /**
   While one release stays recorded: two downloads for each full day, beside the
   forced checks and the checks of boots that could not read.
   */
  lemma RecordedBudget(v: Version, running: Option<Version>, t: nat, run: seq<Event>, right: bool)
    requires PossibleRun(Recorded(v, running, t), run, right) && Stays(run)
    ensures var start := Recorded(v, running, t);
            var w := Exec(start, run);
            w.downloads <= CountUnread(start, run) + 2 * ((w.Epoch() - t / 1000 + Slack(w.boots, right)) / SKIP_S)
  {
    var start := Recorded(v, running, t);
    RecordedIsFresh(v, running, t);
    FledBudget(start, t, run, right);
    OutsideAreUnread(start, run);
  }

  /** And that bound is reached, with no time passed at all, by downloads that fail to install. */
  lemma RecordedBudgetReached(v: Version, running: Option<Version>, t: nat, n: nat)
    requires running != Some(v)
    ensures var start := Recorded(v, running, t);
            exists run ::
              && PossibleRun(start, run, true) && Stays(run) && Exec(start, run).t == t
              && Exec(start, run).downloads == n == CountUnread(start, run)
  {
    var start := Recorded(v, running, t);
    var run := seq(n, _ => Checked(0, true, false));
    UnreadChecksDownload(start, n);
    OutsideAreUnread(start, run);
    ChecksPossible(start, n);
  }

  lemma {:induction false} ChecksPossible(w: World, n: nat)
    ensures PossibleRun(w, seq(n, _ => Checked(0, true, false)), true)
    decreases n
  {
    if n > 0 {
      var run := seq(n, _ => Checked(0, true, false));
      assert run[1..] == seq(n - 1, _ => Checked(0, true, false));
      ChecksPossible(Step(w, run[0]), n - 1);
    }
  }

  /**
   A download of the recorded release starts only once its try is in NVS: the
   next boot reads it as spent. A boot that does not hold the record stores nothing.
   */
  lemma TryStoredFirst(r: Record, v: Version, ms: nat, clock: nat, wrote: bool, readable: bool)
    requires Load(r, readable).saved.tries < 0x100
    requires Check(r, Some(v), false, ms, clock, wrote, readable).1 == Downloads
    ensures var before := Load(r, readable);
            var word := Check(r, Some(v), false, ms, clock, wrote, readable).0.nvs;
            if before.ver != Some(v) then word == r.nvs
            else
              && wrote
              && if before.saved.tries == 0 then Unpack(word).tries == 1 && Unpack(word).ageS == SKIP_S
                 else Unpack(word).tries == 0 && Unpack(word).ageS == 0
  {
    UnpackPack(FledAge(SKIP_S, 1, clock));
    UnpackPack(FledAge(0, 0, clock));
  }

  // ---- The skip ends ----

  /** One boot of another build, without a download. */
  predicate Undisturbed(w: World, run: seq<Event>)
    decreases run
  {
    run == []
    || ((run[0].Wait? || run[0].Turn? || run[0].Checked?)
        && Step(w, run[0]).downloads == w.downloads && Undisturbed(Step(w, run[0]), run[1..]))
  }

  /**
   A save loses less than a second and comes after ten minutes, the first of a
   boot at any time: six hundred parts in six hundred and one are counted.
   */
  predicate Counts(w: World, markT: nat) {
    && Kept(w) && w.running != Some(w.v)
    && w.bootAt <= markT <= w.t && w.rec.markMs == markT - w.bootAt
    && (!w.rec.savedThisBoot ==> markT == w.bootAt) && (!w.rec.loaded ==> !w.rec.savedThisBoot)
    && (w.rec.savedThisBoot && w.rec.saved.ageS < SKIP_S ==>
          600 * (markT - w.bootAt) <= 601000 * w.rec.saved.ageS + 600000)
  }

  lemma AgeAtLeast(r: Record, ms: nat, clock: nat)
    requires r.markMs <= ms < WORD
    ensures UnsavedS(r, ms) >= (ms - r.markMs) / 1000
    ensures AgeNow(r, ms, clock) >= Min(SKIP_S, r.saved.ageS + UnsavedS(r, ms))
  {}

  lemma SaveCounts(w: World, markT: nat, clock: nat, wrote: bool)
    requires w.t - w.bootAt < WORD && Counts(w, markT) && w.rec.loaded
    requires SaveDue(UnsavedS(w.rec, w.Millis()), !w.rec.savedThisBoot)
    ensures var age := AgeNow(w.rec, w.Millis(), clock);
            Counts(WithRecord(w, Save(w.rec, age, w.rec.saved.tries, w.Millis(), clock, wrote)), w.t)
  {
    assert w.Millis() == w.t - w.bootAt;
    AgeAtLeast(w.rec, w.Millis(), clock);
    var u := UnsavedS(w.rec, w.Millis());
    assert w.t - markT < 1000 * (u + 1);
  }

  lemma LoadCounts(w: World, markT: nat, readable: bool)
    requires Counts(w, markT)
    ensures Counts(w.(rec := Load(w.rec, readable)), markT)
  {}

  lemma TurnCounts(w: World, markT: nat, e: Event) returns (markT': nat)
    requires w.t - w.bootAt < WORD && Counts(w, markT) && e.Turn?
    ensures Counts(Step(w, e), markT')
  {
    LoadCounts(w, markT, e.readable);
    var l := w.(rec := Load(w.rec, e.readable));
    markT' := markT;
    if Ages(l.rec.ver, w.running, l.rec.saved.ageS) && SaveDue(UnsavedS(l.rec, l.Millis()), false) {
      SaveCounts(l, markT, e.clock, e.wrote);
      markT' := w.t;
    }
  }

  lemma CheckCounts(w: World, markT: nat, e: Event) returns (markT': nat)
    requires w.t - w.bootAt < WORD && Counts(w, markT) && e.Checked? && Step(w, e).downloads == w.downloads
    ensures Counts(Step(w, e), markT')
  {
    LoadCounts(w, markT, e.readable);
    var l := w.(rec := Load(w.rec, e.readable));
    LoadFirst(w, e.clock, e.wrote, e.readable);
    markT' := markT;
    if CheckAction(l.rec, Some(w.v), false, l.Millis(), e.clock) != Skip {
      markT' := w.t;
    } else if SaveDue(UnsavedS(l.rec, l.Millis()), !l.rec.savedThisBoot) {
      SaveCounts(l, markT, e.clock, e.wrote);
      markT' := w.t;
    }
  }

  lemma {:induction false} TimeGoesOn(w: World, run: seq<Event>)
    requires Undisturbed(w, run)
    ensures Exec(w, run).t >= w.t && Exec(w, run).bootAt == w.bootAt
    decreases run
  {
    if run != [] { TimeGoesOn(Step(w, run[0]), run[1..]); }
  }

  lemma {:induction false} RunCounts(w: World, run: seq<Event>, markT: nat) returns (markT': nat)
    requires Counts(w, markT) && Undisturbed(w, run) && Exec(w, run).t - w.bootAt < WORD
    ensures Counts(Exec(w, run), markT')
    decreases run
  {
    markT' := markT;
    if run != [] {
      TimeGoesOn(w, run);
      if run[0].Turn? { markT' := TurnCounts(w, markT, run[0]); }
      if run[0].Checked? { markT' := CheckCounts(w, markT, run[0]); }
      TimeGoesOn(Step(w, run[0]), run[1..]);
      markT' := RunCounts(Step(w, run[0]), run[1..], markT');
    }
  }

  lemma CountedAge(w: World, markT: nat, clock: nat, readable: bool)
    requires Counts(w, markT) && 86545000 <= w.t - w.bootAt < WORD
    ensures AgeNow(Load(w.rec, readable), w.Millis(), clock) >= SKIP_S
  {
    LoadCounts(w, markT, readable);
    var r := Load(w.rec, readable);
    assert w.Millis() == w.t - w.bootAt;
    AgeAtLeast(r, w.Millis(), clock);
    var u := UnsavedS(r, w.Millis());
    assert w.t - markT < 1000 * (u + 1);
  }

  /**
   The skip does end: a device up for 24 h 2 min 25 s, whatever its clock shows
   and whatever reads and writes fail, takes the recorded release at the next
   check whose write lands, unless it already did.
   */
  lemma SkipEnds(v: Version, running: Option<Version>, t: nat, run: seq<Event>, clock: nat, readable: bool)
    requires running != Some(v) && Undisturbed(Recorded(v, running, t), run)
    requires 86545000 <= Exec(Recorded(v, running, t), run).t - t < WORD
    ensures var w := Exec(Recorded(v, running, t), run);
            Check(w.rec, Some(v), false, w.Millis(), clock, true, readable).1 == Downloads
  {
    var start := Recorded(v, running, t);
    TimeGoesOn(start, run);
    var markT := RunCounts(start, run, t);
    CountedAge(Exec(start, run), markT, clock, readable);
  }
}
