/**
 The fled-release skip: ota_verify_policy.h's age and try rules, and the record
 OTAUpdate.cpp keeps in NVS, RTC memory and statics while one release is refused.
 A version is the triple its string parses to; None is an unparseable string.
 */
module OtaFled {
  import opened ByteStrings
  import opened Options

  const SKIP_S: nat := 24 * 60 * 60
  const TRIES: nat := 2
  const SAVE_S: nat := 10 * 60
  const GAP_MAX_S: nat := 60 * 60

  datatype Version = Version(major: nat, minor: nat, patch: nat)

  datatype FledAge = FledAge(ageS: nat, tries: nat, seenEpoch: nat)

  // ---- Policy ----

  function Min(x: nat, y: nat): nat { if x < y then x else y }

  /** One 64-bit word: age in the low 24 bits, tries in the next 8, the clock on top. */
  function Pack(a: FledAge): nat {
    a.seenEpoch * WORD + a.tries * 0x100_0000 + Min(a.ageS, SKIP_S)
  }

  function Unpack(w: nat): FledAge {
    FledAge(w % 0x100_0000, w / 0x100_0000 % 0x100, w / WORD)
  }

  function Complement(v: nat): nat { (WORD - 1 - v) % WORD }

  function Carry(value: nat, check: nat): nat {
    if check != Complement(value) then 0 else Min(value, 2 * SAVE_S)
  }

  function Elapsed(upS: nat, first: bool, seenEpoch: nat, nowEpoch: nat): nat {
    if !first || seenEpoch == 0 || nowEpoch <= seenEpoch || nowEpoch - seenEpoch <= upS then upS
    else upS + Min(nowEpoch - seenEpoch - upS, GAP_MAX_S)
  }

  predicate SaveDue(unsavedS: nat, first: bool) { first || unsavedS >= SAVE_S }

  function Advance(ageS: nat, elapsedS: nat): nat {
    if ageS >= SKIP_S || elapsedS >= SKIP_S - ageS then SKIP_S else ageS + elapsedS
  }

  predicate SameVersion(a: Option<Version>, b: Option<Version>) { a.Some? && a == b }

  predicate Ages(fled: Option<Version>, running: Option<Version>, ageS: nat) {
    fled.Some? && ageS < SKIP_S && !SameVersion(fled, running)
  }

  datatype Action = NotFled | Skip | Retry | Last | Forced

  function ActionFor(remote: Option<Version>, fled: Option<Version>, ageS: nat, tries: nat, force: bool): Action {
    if !SameVersion(remote, fled) then NotFled
    else if force then Forced
    else if ageS < SKIP_S then Skip
    else if tries + 1 < TRIES then Retry
    else Last
  }

  predicate MayDownload(action: Action, saved: bool) {
    saved || (action != Retry && action != Last)
  }

  function AfterTry(action: Action, ageS: nat, tries: nat, saved: bool): FledAge {
    if saved && action == Last then FledAge(0, 0, 0)
    else if saved && action == Retry then FledAge(ageS, (tries + 1) % 0x100, 0)
    else FledAge(ageS, tries, 0)
  }

  /** An install is recorded unless the record names the build already. */
  predicate RecordsInstall(fled: Option<Version>, installing: Option<Version>) {
    installing.Some? && !SameVersion(fled, installing)
  }

  /** The saved state comes back, its age held at the skip length. */
  lemma UnpackPack(a: FledAge)
    requires a.tries < 0x100
    ensures Unpack(Pack(a)) == a.(ageS := Min(a.ageS, SKIP_S))
  {
    var low := a.tries * 0x100_0000 + Min(a.ageS, SKIP_S);
    assert low < WORD;
    assert Pack(a) / WORD == a.seenEpoch;
    assert Pack(a) / 0x100_0000 == a.seenEpoch * 0x100 + a.tries;
  }

  /** A stored word survives a load and save unless its age field is past the skip. */
  lemma PackUnpack(w: nat)
    ensures Pack(Unpack(w)) == w <==> w % 0x100_0000 <= SKIP_S
  {
    assert w == w / WORD * WORD + w % WORD;
    assert w / 0x100_0000 / 0x100 == w / WORD;
    assert w / 0x100_0000 == w / WORD * 0x100 + w / 0x100_0000 % 0x100;
  }

  // ---- The record, as a value ----

  /** nvsVer and nvs are the stored version and word; the rest is RTC memory and the statics of one boot. */
  datatype Record = Record(
    nvsVer: Option<Version>, nvs: nat, rtcValue: nat, rtcCheck: nat,
    loaded: bool, savedThisBoot: bool, ver: Option<Version>, saved: FledAge, carry: nat, markMs: nat)

  function PutUnsaved(r: Record, s: nat): Record {
    r.(rtcValue := s, rtcCheck := Complement(s))
  }

  function CarryOf(r: Record): nat {
    Carry(r.rtcValue, r.rtcCheck)
  }

  /** Once a boot. A record that cannot be read skips nothing. */
  function Load(r: Record, read: bool): Record {
    if r.loaded then r
    else
      var l := PutUnsaved(r.(loaded := true, carry := CarryOf(r)), 0);
      if read then l.(ver := r.nvsVer, saved := Unpack(r.nvs)) else l
  }

  function UnsavedS(r: Record, ms: nat): nat {
    r.carry + (ms - r.markMs) % WORD / 1000
  }

  function AgeNow(r: Record, ms: nat, clock: nat): nat {
    Advance(r.saved.ageS, Elapsed(UnsavedS(r, ms), !r.savedThisBoot, r.saved.seenEpoch, clock))
  }

  function Save(r: Record, ageS: nat, tries: nat, ms: nat, clock: nat, wrote: bool): Record {
    var next := FledAge(ageS, tries, clock);
    PutUnsaved(r.(nvs := if wrote then Pack(next) else r.nvs,
                  saved := next, savedThisBoot := true, carry := 0, markMs := ms), 0)
  }

  /** ageFledRelease. */
  function Tick(r: Record, running: Option<Version>, ms: nat, clock: nat, wrote: bool, read: bool): Record {
    var l := Load(r, read);
    if !Ages(l.ver, running, l.saved.ageS) then l
    else if !SaveDue(UnsavedS(l, ms), false) then PutUnsaved(l, UnsavedS(l, ms))
    else Save(l, AgeNow(l, ms, clock), l.saved.tries, ms, clock, wrote)
  }

  /** putFledRecord: age first, so a version is only ever stored beside a fresh age. */
  function Put(r: Record, version: Version, ageLands: bool, verLands: bool): Record {
    PutUnsaved(r.(nvs := if ageLands then Pack(FledAge(0, 0, 0)) else r.nvs,
                  nvsVer := if ageLands && verLands then Some(version) else r.nvsVer), 0)
  }

  /** dropOwnFledRecord. */
  function DropOwn(r: Record, running: Option<Version>, lands: bool): Record {
    if !SameVersion(r.ver, running) then r else r.(ver := None, nvsVer := if lands then None else r.nvsVer)
  }

  datatype Outcome = Refused | Downloads

  function CheckAction(r: Record, remote: Option<Version>, force: bool, ms: nat, clock: nat): Action {
    ActionFor(remote, r.ver, AgeNow(r, ms, clock), r.saved.tries, force)
  }

  /** The fled gate of check, for a manifest whose version passed the version gate. */
  function Check(
    r: Record, remote: Option<Version>, force: bool, ms: nat, clock: nat, wrote: bool, read: bool): (Record, Outcome)
  {
    var l := Load(r, read);
    var age := AgeNow(l, ms, clock);
    var tries := l.saved.tries;
    var action := CheckAction(l, remote, force, ms, clock);
    if action == Skip then
      (if SaveDue(UnsavedS(l, ms), !l.savedThisBoot) then Save(l, age, tries, ms, clock, wrote) else l, Refused)
    else if action == NotFled || action == Forced then (l, Downloads)
    else
      var spent := AfterTry(action, age, tries, true);
      var s := Save(l, spent.ageS, spent.tries, ms, clock, wrote);
      if MayDownload(action, wrote) then (s, Downloads)
      else
        var kept := AfterTry(action, age, tries, false);
        (s.(saved := s.saved.(ageS := kept.ageS, tries := kept.tries)), Refused)
  }

  // ---- What the operations do ----

  /** A forced check downloads whatever is recorded and however young it is, and touches nothing but the load. */
  lemma ForcedPasses(r: Record, remote: Option<Version>, ms: nat, clock: nat, wrote: bool, readable: bool)
    ensures Check(r, remote, true, ms, clock, wrote, readable) == (Load(r, readable), Downloads)
  {}

  /** So does a check of any other release, and of one whose version does not parse. */
  lemma OthersPass(r: Record, remote: Option<Version>, ms: nat, clock: nat, wrote: bool, readable: bool)
    requires remote.None? || remote != Load(r, readable).ver
    ensures Check(r, remote, false, ms, clock, wrote, readable) == (Load(r, readable), Downloads)
  {}

  /** The recorded release is refused for its first day, and the first refusal of a boot stores the age. */
  lemma RefusedForADay(r: Record, v: Version, ms: nat, clock: nat, wrote: bool, readable: bool)
    requires Load(r, readable).ver == Some(v) && AgeNow(Load(r, readable), ms, clock) < 86400
    ensures var (s, out) := Check(r, Some(v), false, ms, clock, wrote, readable);
            && out == Refused
            && (!r.savedThisBoot && wrote ==>
                  s.nvs == Pack(FledAge(AgeNow(Load(r, readable), ms, clock), Load(r, readable).saved.tries, clock)))
  {}

  /** Seconds noted in RTC memory come back after a reset: none is lost, up to twenty minutes. */
  lemma NotedSecondsComeBack(r: Record, s: nat, readable: bool)
    requires s <= 1200 && !r.loaded
    ensures Load(PutUnsaved(r, s), readable).carry == s && CarryOf(Load(PutUnsaved(r, s), readable)) == 0
  {}

  /** A loop turn of another build notes its seconds, or stores them once there are six hundred. */
  lemma TurnNotesOrSaves(r: Record, running: Option<Version>, ms: nat, clock: nat, wrote: bool, readable: bool)
    requires var l := Load(r, readable); l.ver.Some? && l.ver != running && l.saved.ageS < 86400
    ensures var l := Load(r, readable);
            var s := Tick(r, running, ms, clock, wrote, readable);
            var u := l.carry + (ms - l.markMs) % WORD / 1000;
            if u < 600 then s == PutUnsaved(l, u)
            else
              && s.saved == FledAge(AgeNow(l, ms, clock), l.saved.tries, clock) && s.carry == 0 && s.markMs == ms
              && s.nvs == if wrote then Pack(s.saved) else l.nvs
  {}

  /** The first age of a boot counts the time off a synced clock shows, at most an hour; later ones uptime alone. */
  lemma TimeOffCounts(r: Record, ms: nat, clock: nat)
    ensures var up := UnsavedS(r, ms);
            var off := clock - r.saved.seenEpoch - up;
            var none := r.savedThisBoot || r.saved.seenEpoch == 0 || off <= 0;
            var counted := if none then 0 else if off < 3600 then off else 3600;
            AgeNow(r, ms, clock) == if r.saved.ageS + up + counted < 86400 then r.saved.ageS + up + counted else 86400
  {}

  /** An install of the recorded build keeps its age and tries; of another build it starts a fresh day. */
  lemma InstallRecords(l: Record, v: Version, ageLands: bool, verLands: bool)
    requires l.loaded
    ensures var s := if RecordsInstall(l.ver, Some(v)) then Put(l, v, ageLands, verLands) else l;
            && (l.ver == Some(v) ==> s == l)
            && (l.ver != Some(v) && ageLands && verLands ==> s.nvsVer == Some(v) && Unpack(s.nvs) == FledAge(0, 0, 0))
            && (!ageLands ==> s.nvs == l.nvs && s.nvsVer == l.nvsVer)
  {
    UnpackPack(FledAge(0, 0, 0));
  }

  /** The running build's own record goes, and no other. */
  lemma OwnRecordGoes(r: Record, running: Version, lands: bool)
    ensures var s := DropOwn(r, Some(running), lands);
            if r.ver == Some(running)
            then s.ver == None && s.nvsVer == (if lands then None else r.nvsVer) && s.nvs == r.nvs
            else s == r
  {}

  // ---- The record, in the source's form ----

  class FledRecord {
    var nvsVer: Option<Version>
    var nvsAge: nat
    var rtcUnsaved: nat
    var rtcCheck: nat
    var loaded: bool
    var savedThisBoot: bool
    var ver: Option<Version>
    var saved: FledAge
    var carry: nat
    var markMs: nat
    const running: Option<Version>

    constructor (r: Record, running: Option<Version>)
      ensures View() == r && this.running == running
    {
      nvsVer, nvsAge, rtcUnsaved, rtcCheck := r.nvsVer, r.nvs, r.rtcValue, r.rtcCheck;
      loaded, savedThisBoot, ver, saved := r.loaded, r.savedThisBoot, r.ver, r.saved;
      carry, markMs := r.carry, r.markMs;
      this.running := running;
    }

    function View(): (r: Record)
      reads this
    {
      Record(nvsVer, nvsAge, rtcUnsaved, rtcCheck, loaded, savedThisBoot, ver, saved, carry, markMs)
    }

    method PutFledUnsaved(s: nat)
      modifies this`rtcUnsaved, this`rtcCheck
      ensures View() == PutUnsaved(old(View()), s)
    {
      rtcUnsaved, rtcCheck := s, Complement(s);
    }

    method PutFledRecord(version: Version, ageLands: bool, verLands: bool) returns (wrote: bool)
      modifies this
      ensures wrote == (ageLands && verLands) && View() == Put(old(View()), version, ageLands, verLands)
    {
      if ageLands {
        nvsAge := Pack(FledAge(0, 0, 0));
        if verLands { nvsVer := Some(version); }
      }
      PutFledUnsaved(0);
      return ageLands && verLands;
    }

    method LoadFled(readable: bool)
      modifies this
      ensures View() == Load(old(View()), readable)
    {
      if loaded { return; }
      loaded := true;
      carry := Carry(rtcUnsaved, rtcCheck);
      PutFledUnsaved(0);
      if !readable { return; }
      ver := nvsVer;
      saved := Unpack(nvsAge);
    }

    method SaveFled(ageS: nat, tries: nat, ms: nat, clock: nat, nvsOk: bool) returns (wrote: bool)
      modifies this
      ensures wrote == nvsOk
      ensures View() == Save(old(View()), ageS, tries, ms, clock, nvsOk)
    {
      var next := FledAge(ageS, tries, clock);
      wrote := nvsOk;
      if wrote { nvsAge := Pack(next); }
      saved := next;
      savedThisBoot := true;
      carry := 0;
      markMs := ms;
      PutFledUnsaved(0);
    }

    method RecordInstalledBuild(version: Option<Version>, readable: bool, ageLands: bool, verLands: bool)
      modifies this
      ensures View() == var l := Load(old(View()), readable);
                        if RecordsInstall(l.ver, version) then Put(l, version.value, ageLands, verLands) else l
    {
      LoadFled(readable);
      if !RecordsInstall(ver, version) { return; }
      var _ := PutFledRecord(version.value, ageLands, verLands);
    }

    method DropOwnFledRecord(lands: bool)
      modifies this
      ensures View() == DropOwn(old(View()), running, lands)
    {
      if !SameVersion(ver, running) { return; }
      if lands { nvsVer := None; }
      ver := None;
    }

    method AgeFledRelease(ms: nat, clock: nat, nvsOk: bool, readable: bool)
      modifies this
      ensures View() == Tick(old(View()), running, ms, clock, nvsOk, readable)
    {
      LoadFled(readable);
      if !Ages(ver, running, saved.ageS) { return; }
      var unsaved := UnsavedS(View(), ms);
      if !SaveDue(unsaved, false) {
        PutFledUnsaved(unsaved);
        return;
      }
      var wrote := SaveFled(AgeNow(View(), ms, clock), saved.tries, ms, clock, nvsOk);
    }

    method Gate(remote: Option<Version>, force: bool, ms: nat, clock: nat, nvsOk: bool, readable: bool)
      returns (out: Outcome)
      modifies this
      ensures (View(), out) == Check(old(View()), remote, force, ms, clock, nvsOk, readable)
    {
      LoadFled(readable);
      var fledAge := AgeNow(View(), ms, clock);
      var tries := saved.tries;
      var action := ActionFor(remote, ver, fledAge, tries, force);
      if action == Skip {
        if SaveDue(UnsavedS(View(), ms), !savedThisBoot) {
          var ignored := SaveFled(fledAge, tries, ms, clock, nvsOk);
        }
        return Refused;
      }
      if action == Retry || action == Last {
        var spent := AfterTry(action, fledAge, tries, true);
        var wrote := SaveFled(spent.ageS, spent.tries, ms, clock, nvsOk);
        if !MayDownload(action, wrote) {
          var kept := AfterTry(action, fledAge, tries, false);
          saved := saved.(ageS := kept.ageS, tries := kept.tries);
          return Refused;
        }
      }
      return Downloads;
    }
  }
}
