/** Runs of the lockout table: what holds after any sequence of guesses, successes and questions. */
module LoginRuns {
  import opened LoginRate

  // ---- One operation, entry by entry ----

  predicate EntryOk(c: Entry) {
    c.fails <= MAX_FAILS && c.until == (if c.fails == MAX_FAILS then c.last + LOCKOUT_MS else 0)
  }

  /** A slot is in use exactly while it counts failures. */
  predicate SlotOk(c: Entry) { EntryOk(c) && (c.ip == "" <==> c.fails == 0) && (c.fails == 0 ==> c == Clear) }

  predicate Distinct(slots: seq<Entry>) {
    forall i, j :: 0 <= i < j < |slots| && slots[i].ip != "" ==> slots[i].ip != slots[j].ip
  }

  predicate Good(t: Table) {
    && (forall i :: 0 <= i < |t.slots| ==> SlotOk(t.slots[i]))
    && Distinct(t.slots) && EntryOk(t.over) && t.over.ip == "" && (t.over.fails == 0 ==> t.over == Clear)
  }

  /** Left alone or aged. */
  predicate AgedOr(c: Entry, c': Entry, now: nat) { c' == c || c' == Age(c, now) }

  predicate AllAgedOr(a: seq<Entry>, b: seq<Entry>, now: nat) {
    |a| == |b| && forall i :: 0 <= i < |a| ==> AgedOr(a[i], b[i], now)
  }

  lemma AgeTwice(c: Entry, now: nat)
    ensures Age(Age(c, now), now) == Age(c, now)
  {}

  lemma {:induction false} FreeAges(slots: seq<Entry>, now: nat, i: nat)
    requires i <= |slots|
    ensures var r := FreeFrom(slots, now, i);
            && AllAgedOr(slots, r.slots, now)
            && (r.index < |slots| ==> r.slots[r.index] == Age(slots[r.index], now))
            && forall j :: i <= j < r.index ==> r.slots[j].ip != ""
    decreases |slots| - i
  {
    if i < |slots| {
      var aged := Age(slots[i], now);
      if aged.ip != "" {
        AgeTwice(slots[i], now);
        FreeAges(slots[i := aged], now, i + 1);
        FreeKeepsBefore(slots[i := aged], now, i + 1, i);
      }
    }
  }

  lemma {:induction false} FreeKeepsBefore(slots: seq<Entry>, now: nat, i: nat, j: nat)
    requires j < i <= |slots|
    ensures FreeFrom(slots, now, i).slots[j] == slots[j]
    decreases |slots| - i
  {
    if i < |slots| && Age(slots[i], now).ip != "" { FreeKeepsBefore(slots[i := Age(slots[i], now)], now, i + 1, j); }
  }

  lemma AgedTwiceOr(a: seq<Entry>, b: seq<Entry>, c: seq<Entry>, now: nat)
    requires AllAgedOr(a, b, now) && AllAgedOr(b, c, now)
    ensures AllAgedOr(a, c, now)
  {
    forall i | 0 <= i < |a| ensures AgedOr(a[i], c[i], now) { AgeTwice(a[i], now); }
  }

  /** The search for a place ages slots, and the place itself is aged. */
  lemma {:induction false} PlaceAges(t: Table, ip: string, now: nat)
    ensures var p := Place(t, ip, now);
            && AllAgedOr(t.slots, p.slots, now)
            && (p.index < |t.slots| ==> p.slots[p.index] == Age(t.slots[p.index], now))
            && (p.index < |t.slots| ==> p.slots[p.index].ip == "" || p.slots[p.index].ip == Key(ip))
  {
    var f := Find(t.slots, ip, now);
    if f.index == |t.slots| {
      FreeAges(f.slots, now, 0);
      AgedTwiceOr(t.slots, f.slots, FreeFrom(f.slots, now, 0).slots, now);
      var p := Place(t, ip, now);
      if p.index < |t.slots| { AgeTwice(t.slots[p.index], now); }
    }
  }

  lemma {:induction false} AllowAges(t: Table, ip: string, now: nat)
    ensures var t' := AllowOf(t, ip, now).table;
            AllAgedOr(t.slots, t'.slots, now) && AgedOr(t.over, t'.over, now)
  {
    var f := Find(t.slots, ip, now);
    FreeAges(f.slots, now, 0);
    AgedTwiceOr(t.slots, f.slots, FreeFrom(f.slots, now, 0).slots, now);
  }

  /** A slot with the key is the one found. */
  lemma {:induction false} SlotOfIs(slots: seq<Entry>, key: string, i: nat, k: nat)
    requires i <= k < |slots| && slots[k].ip == key != "" && Distinct(slots)
    ensures SlotOf(slots, key, i) == k
    decreases k - i
  {
    if i < k { SlotOfIs(slots, key, i + 1, k); }
  }

  lemma {:induction false} NoSlot(slots: seq<Entry>, key: string, i: nat)
    requires i <= |slots| && SlotOf(slots, key, i) == |slots|
    ensures forall j :: i <= j < |slots| ==> slots[j].ip != key
    decreases |slots| - i
  {
    if i < |slots| { NoSlot(slots, key, i + 1); }
  }

  /** When an address has no live slot, no slot holds its key. */
  lemma {:induction false} NotFound(slots: seq<Entry>, ip: string, now: nat)
    requires ip != "" && Distinct(slots) && Find(slots, ip, now).index == |slots|
    ensures forall j :: 0 <= j < |slots| ==> Find(slots, ip, now).slots[j].ip != Key(ip)
  {
    var k := SlotOf(slots, Key(ip), 0);
    if k == |slots| { NoSlot(slots, Key(ip), 0); }
  }

  lemma {:induction false} FreeIsFirst(slots: seq<Entry>, now: nat, i: nat)
    requires i <= |slots|
    ensures var k := FreeFrom(slots, now, i).index;
            && (forall j :: i <= j < k ==> Age(slots[j], now).ip != "")
            && (k < |slots| ==> Age(slots[k], now).ip == "")
    decreases |slots| - i
  {
    if i < |slots| && Age(slots[i], now).ip != "" {
      var next := slots[i := Age(slots[i], now)];
      FreeIsFirst(next, now, i + 1);
      assert forall j :: i + 1 <= j < |slots| ==> next[j] == slots[j];
    }
  }

  /**
   An address is refused exactly while its own slot is locked, or it has none, no
   slot is free, and the shared entry is locked.
   */
  lemma {:induction false} RefusedExactly(t: Table, ip: string, now: nat)
    requires Good(t) && ip != ""
    ensures !AllowOf(t, ip, now).allowed <==>
              || (exists i :: 0 <= i < |t.slots| && t.slots[i].ip == Key(ip) && Age(t.slots[i], now).fails == MAX_FAILS)
              || (Age(t.over, now).fails == MAX_FAILS
                  && forall i :: 0 <= i < |t.slots| ==> Age(t.slots[i], now).ip !in {"", Key(ip)})
  {
    var n := |t.slots|;
    var k := SlotOf(t.slots, Key(ip), 0);
    var f := Find(t.slots, ip, now);
    assert EntryOk(t.over);
    if k < n {
      assert SlotOk(t.slots[k]);
      forall i | 0 <= i < n && t.slots[i].ip == Key(ip) ensures i == k { SlotOfIs(t.slots, Key(ip), 0, i); }
      if f.index == n {
        assert Age(t.slots[k], now).ip == "";
        FreeIsFirst(f.slots, now, 0);
        assert f.slots[k] == Clear && FreeFrom(f.slots, now, 0).index < n;
      }
    } else {
      NoSlot(t.slots, Key(ip), 0);
      FreeIsFirst(t.slots, now, 0);
    }
  }

  // ---- Runs ----

  datatype Event = Allow(ip: string, now: nat) | Fail(ip: string, now: nat) | Reset(ip: string, now: nat)

  /** The table, the time, and for every entry the counted failures of its present life. */
  datatype World = World(t: Table, clock: nat, logs: seq<seq<nat>>)

  function Next(t: Table, ev: Event): (r: Table)
    ensures |r.slots| == |t.slots|
  {
    match ev
    case Allow(ip, now) => AllowOf(t, ip, now).table
    case Fail(ip, now) => FailOf(t, ip, now)
    case Reset(ip, _) => ResetOf(t, ip)
  }

  /** The entry this event counts a failure on, if it counts one. */
  predicate Counts(t: Table, ev: Event, i: nat)
    requires i <= |t.slots|
  {
    ev.Fail? && ev.ip != "" && Place(t, ev.ip, ev.now).index == i && Age(t.At(i), ev.now).fails < MAX_FAILS
  }

  function LogOf(w: World, ev: Event, i: nat): seq<nat>
    requires i <= |w.t.slots| && |w.logs| == |w.t.slots| + 1
  {
    if Next(w.t, ev).At(i).fails == 0 then []
    else if Counts(w.t, ev, i) then (if Age(w.t.At(i), ev.now).fails == 0 then [] else w.logs[i]) + [ev.now]
    else w.logs[i]
  }

  function Step(w: World, ev: Event): World
    requires |w.logs| == |w.t.slots| + 1
  {
    World(Next(w.t, ev), ev.now, seq(|w.logs|, i requires 0 <= i < |w.logs| => LogOf(w, ev, i)))
  }

  /** Time does not run backwards. */
  predicate Timed(clock: nat, run: seq<Event>)
    decreases run
  {
    run == [] || (clock <= run[0].now && Timed(run[0].now, run[1..]))
  }

  function Run(w: World, run: seq<Event>): (w': World)
    requires |w.logs| == |w.t.slots| + 1
    ensures |w'.t.slots| == |w.t.slots| && |w'.logs| == |w'.t.slots| + 1
    decreases run
  {
    if run == [] then w else Run(Step(w, run[0]), run[1..])
  }

  // ---- What every run keeps ----

  predicate LogOk(c: Entry, log: seq<nat>, clock: nat) {
    && (log == [] <==> c.fails == 0)
    && (log != [] ==> c.last == log[|log| - 1] <= clock)
    && (|log| < MAX_FAILS ==> c.fails == |log|)
    && (|log| >= MAX_FAILS ==> c.fails >= MAX_FAILS - 1)
    && (|log| >= MAX_FAILS && c.fails < MAX_FAILS ==> c.last + LOCKOUT_MS <= clock)
    && Spaced(log)
  }

  /** From the sixth on, each failure comes a lockout after the one before. */
  predicate Spaced(log: seq<nat>) {
    forall j :: MAX_FAILS <= j < |log| ==> log[j - 1] + LOCKOUT_MS <= log[j]
  }

  predicate Sound(w: World) {
    && |w.logs| == |w.t.slots| + 1 && Good(w.t)
    && forall i :: 0 <= i <= |w.t.slots| ==> LogOk(w.t.At(i), w.logs[i], w.clock)
  }

  function Start(n: nat): World { World(Table(seq(n, _ => Clear), Clear), 0, seq(n + 1, _ => [])) }

  lemma StartIsSound(n: nat)
    ensures Sound(Start(n))
  {}

  lemma AgedLogOk(c: Entry, c': Entry, log: seq<nat>, clock: nat, now: nat)
    requires EntryOk(c) && LogOk(c, log, clock) && clock <= now && AgedOr(c, c', now)
    ensures EntryOk(c') && LogOk(c', if c'.fails == 0 then [] else log, now)
  {}

  lemma CountedLogOk(c: Entry, log: seq<nat>, now: nat)
    requires EntryOk(c) && LogOk(c, log, now) && c.fails < MAX_FAILS
    ensures EntryOk(Count(c, now)) && LogOk(Count(c, now), log + [now], now)
  {}

  lemma FailEffect(t: Table, ip: string, now: nat, i: nat)
    requires ip != "" && i <= |t.slots|
    ensures var t' := FailOf(t, ip, now);
            var aged := Age(t.At(i), now);
            if Place(t, ip, now).index == i then
              t'.At(i) == Count(if i < |t.slots| && aged.ip == "" then aged.(ip := Key(ip)) else aged, now)
            else AgedOr(t.At(i), t'.At(i), now)
  {
    PlaceAges(t, ip, now);
  }

  lemma ResetEffect(t: Table, ip: string, i: nat)
    requires Good(t) && i <= |t.slots|
    ensures var t' := ResetOf(t, ip);
            t'.At(i) == if ip != "" && i < |t.slots| && t.slots[i].ip == Key(ip) then Clear else t.At(i)
  {
    if ip != "" {
      var k := SlotOf(t.slots, Key(ip), 0);
      if k == |t.slots| { NoSlot(t.slots, Key(ip), 0); }
      else {
        assert SlotOk(t.slots[k]);
        assert Age(t.slots[k], 0) == t.slots[k];
        if i < |t.slots| && t.slots[i].ip == Key(ip) { SlotOfIs(t.slots, Key(ip), 0, i); }
      }
    }
  }

  lemma {:induction false} StepKeepsLog(w: World, ev: Event, i: nat)
    requires Sound(w) && w.clock <= ev.now && i <= |w.t.slots|
    ensures var c := Next(w.t, ev).At(i); EntryOk(c) && LogOk(c, LogOf(w, ev, i), ev.now)
  {
    var c, c' := w.t.At(i), Next(w.t, ev).At(i);
    assert EntryOk(c) && LogOk(c, w.logs[i], w.clock);
    if ev.Reset? {
      ResetEffect(w.t, ev.ip, i);
      AgedLogOk(c, c, w.logs[i], w.clock, ev.now);
    } else if ev.Fail? && ev.ip != "" && Place(w.t, ev.ip, ev.now).index == i {
      FailEffect(w.t, ev.ip, ev.now, i);
      var aged := Age(c, ev.now);
      AgedLogOk(c, aged, w.logs[i], w.clock, ev.now);
      if aged.fails < MAX_FAILS {
        CountedLogOk(aged, if aged.fails == 0 then [] else w.logs[i], ev.now);
      }
    } else {
      if ev.Allow? { AllowAges(w.t, ev.ip, ev.now); } else if ev.ip != "" { FailEffect(w.t, ev.ip, ev.now, i); }
      assert AgedOr(c, c', ev.now);
      AgedLogOk(c, c', w.logs[i], w.clock, ev.now);
    }
  }

  lemma AgedSlots(a: seq<Entry>, b: seq<Entry>, now: nat)
    requires AllAgedOr(a, b, now) && Distinct(a) && forall i :: 0 <= i < |a| ==> SlotOk(a[i])
    ensures Distinct(b) && forall i :: 0 <= i < |b| ==> SlotOk(b[i])
  {
    forall i | 0 <= i < |b| ensures SlotOk(b[i]) && (b[i].ip == a[i].ip || b[i].ip == "") {
      assert SlotOk(a[i]) && AgedOr(a[i], b[i], now);
    }
  }

  lemma {:induction false} FailKeepsDistinct(t: Table, ip: string, now: nat)
    requires Good(t) && ip != ""
    ensures Distinct(FailOf(t, ip, now).slots)
  {
    var p := Place(t, ip, now);
    PlaceAges(t, ip, now);
    AgedSlots(t.slots, p.slots, now);
    var f := Find(t.slots, ip, now);
    if f.index == |t.slots| && p.index < |t.slots| {
      NotFound(t.slots, ip, now);
      FreeAges(f.slots, now, 0);
      forall j | 0 <= j < |t.slots| ensures p.slots[j].ip != Key(ip) {
        assert AgedOr(f.slots[j], p.slots[j], now);
      }
    }
  }

  lemma {:induction false} StepKeepsGood(t: Table, ev: Event)
    requires Good(t) && forall i :: 0 <= i <= |t.slots| ==> EntryOk(Next(t, ev).At(i))
    ensures Good(Next(t, ev))
  {
    var t' := Next(t, ev);
    if ev.Reset? {
      forall i | 0 <= i < |t.slots| ensures t'.slots[i] == t.slots[i] || t'.slots[i] == Clear {
        ResetEffect(t, ev.ip, i);
      }
    } else if ev.Allow? {
      AllowAges(t, ev.ip, ev.now);
      AgedSlots(t.slots, t'.slots, ev.now);
    } else if ev.ip != "" {
      FailKeepsDistinct(t, ev.ip, ev.now);
      forall i | 0 <= i < |t.slots| ensures SlotOk(t'.slots[i]) {
        assert SlotOk(t.slots[i]) && EntryOk(t'.At(i));
        FailEffect(t, ev.ip, ev.now, i);
      }
      FailEffect(t, ev.ip, ev.now, |t.slots|);
    }
  }

  lemma {:induction false} StepIsSound(w: World, ev: Event)
    requires Sound(w) && w.clock <= ev.now
    ensures Sound(Step(w, ev))
  {
    forall i | 0 <= i <= |w.t.slots|
      ensures var c := Next(w.t, ev).At(i); EntryOk(c) && LogOk(c, LogOf(w, ev, i), ev.now)
    {
      StepKeepsLog(w, ev, i);
    }
    StepKeepsGood(w.t, ev);
  }

  /** In every run the slots hold distinct addresses and every entry's failures are spaced. */
  lemma {:induction false} RunIsSound(w: World, run: seq<Event>)
    requires Sound(w) && Timed(w.clock, run)
    ensures Sound(Run(w, run))
    decreases run
  {
    if run != [] {
      StepIsSound(w, run[0]);
      RunIsSound(Step(w, run[0]), run[1..]);
    }
  }

  /** In one life of an entry, all failures after the fifth cost a lockout each. */
  lemma {:induction false} GuessBudget(n: nat, run: seq<Event>, i: nat)
    requires Timed(0, run) && i <= n
    ensures var log := Run(Start(n), run).logs[i];
            && Spaced(log)
            && (|log| > MAX_FAILS ==>
                  log[|log| - 1] >= log[MAX_FAILS - 1] + LOCKOUT_MS * (|log| - MAX_FAILS))
  {
    StartIsSound(n);
    RunIsSound(Start(n), run);
    SpacedSum(Run(Start(n), run).logs[i]);
  }

  lemma {:induction false} SpacedSum(log: seq<nat>)
    requires Spaced(log)
    ensures |log| > MAX_FAILS ==> log[|log| - 1] >= log[MAX_FAILS - 1] + LOCKOUT_MS * (|log| - MAX_FAILS)
    decreases |log|
  {
    if |log| > MAX_FAILS { SpacedSum(log[..|log| - 1]); }
  }

  // ---- Locked and live entries ----

  /** No event of the run is a success of this address, and all come before the deadline. */
  predicate Before(run: seq<Event>, key: string, deadline: nat) {
    forall k :: 0 <= k < |run| ==> run[k].now < deadline && !(run[k].Reset? && run[k].ip != "" && Key(run[k].ip) == key)
  }

  lemma {:induction false} StepKeepsLocked(w: World, ev: Event, i: nat)
    requires Sound(w) && i < |w.t.slots| && w.t.slots[i].fails == MAX_FAILS
    requires Before([ev], w.t.slots[i].ip, w.t.slots[i].until)
    ensures Next(w.t, ev).slots[i] == w.t.slots[i]
  {
    var c := w.t.slots[i];
    assert ev == [ev][0] && SlotOk(c);
    assert Age(c, ev.now) == c;
    if ev.Reset? { ResetEffect(w.t, ev.ip, i); }
    else if ev.Allow? { AllowAges(w.t, ev.ip, ev.now); }
    else if ev.ip != "" { FailEffect(w.t, ev.ip, ev.now, i); }
    assert Next(w.t, ev).At(i) == Next(w.t, ev).slots[i];
  }

  /** A locked address is refused until its deadline, whatever else happens, unless it logs in. */
  lemma {:induction false} LockedIsRefused(w: World, run: seq<Event>, i: nat, ip: string, now: nat)
    requires Sound(w) && Timed(w.clock, run) && i < |w.t.slots|
    requires ip != "" && w.t.slots[i].ip == Key(ip) && w.t.slots[i].fails == MAX_FAILS
    requires Before(run, Key(ip), w.t.slots[i].until) && now < w.t.slots[i].until
    ensures Run(w, run).t.slots[i] == w.t.slots[i] && !AllowOf(Run(w, run).t, ip, now).allowed
    decreases run
  {
    if run == [] {
      var c := w.t.slots[i];
      SlotOfIs(w.t.slots, Key(ip), 0, i);
      assert SlotOk(c) && Age(c, now) == c;
    } else {
      assert run[0] == [run[0]][0];
      StepKeepsLocked(w, run[0], i);
      StepIsSound(w, run[0]);
      LockedIsRefused(Step(w, run[0]), run[1..], i, ip, now);
    }
  }

  lemma {:induction false} StepKeepsLive(w: World, ev: Event, i: nat)
    requires Sound(w) && i < |w.t.slots| && w.t.slots[i].ip != "" && w.clock <= ev.now
    requires Before([ev], w.t.slots[i].ip, w.t.slots[i].last + QUIET_MS)
    ensures var c, c' := w.t.slots[i], Next(w.t, ev).slots[i];
            c'.ip == c.ip && c'.last >= c.last && (c'.fails >= c.fails || c'.fails == MAX_FAILS - 1)
  {
    var c := w.t.slots[i];
    assert ev == [ev][0] && SlotOk(c) && LogOk(w.t.At(i), w.logs[i], w.clock);
    if ev.Reset? { ResetEffect(w.t, ev.ip, i); }
    else if ev.Allow? { AllowAges(w.t, ev.ip, ev.now); }
    else if ev.ip != "" { FailEffect(w.t, ev.ip, ev.now, i); }
    assert Next(w.t, ev).At(i) == Next(w.t, ev).slots[i];
  }

  /**
   An entry with a failure in the last ten minutes keeps its slot, and its count
   only falls to one below the limit.
   */
  lemma {:induction false} LiveIsKept(w: World, run: seq<Event>, i: nat)
    requires Sound(w) && Timed(w.clock, run) && i < |w.t.slots| && w.t.slots[i].ip != ""
    requires Before(run, w.t.slots[i].ip, w.t.slots[i].last + QUIET_MS)
    ensures var c, c' := w.t.slots[i], Run(w, run).t.slots[i];
            c'.ip == c.ip && c'.last >= c.last && (c'.fails >= c.fails || c'.fails == MAX_FAILS - 1)
    decreases run
  {
    if run != [] {
      assert run[0] == [run[0]][0];
      StepKeepsLive(w, run[0], i);
      StepIsSound(w, run[0]);
      LiveIsKept(Step(w, run[0]), run[1..], i);
    }
  }
}
