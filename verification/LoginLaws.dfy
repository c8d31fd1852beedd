/** What a wrong guess does, by the slots alone, and that five of them lock an address out. */
module LoginLaws {
  import opened LoginRate
  import opened LoginRuns

  /** One more failure on an entry. */
  function OneMore(c: Entry, now: nat): Entry {
    if c.fails >= 5 then c
    else c.(fails := c.fails + 1, last := now, until := if c.fails == 4 then now + 30000 else c.until)
  }

  /** A live slot of the address at this time. */
  predicate LiveSlot(t: Table, ip: string, now: nat, i: nat) {
    i < |t.slots| && t.slots[i].ip == Key(ip) && Age(t.slots[i], now).ip != ""
  }

  predicate FreeSlot(t: Table, now: nat, i: nat) { i < |t.slots| && Age(t.slots[i], now).ip == "" }

  predicate Unknown(t: Table, ip: string, now: nat) { forall i :: 0 <= i < |t.slots| ==> !LiveSlot(t, ip, now, i) }

  /** An address with a slot counts on it. */
  lemma FailCountsOnOwnSlot(t: Table, ip: string, now: nat, k: nat)
    requires Good(t) && ip != "" && LiveSlot(t, ip, now, k)
    ensures var t' := FailOf(t, ip, now);
            && t'.slots[k] == OneMore(Age(t.slots[k], now), now) && t'.over == t.over
            && forall i :: 0 <= i < |t.slots| && i != k ==> t'.slots[i] == t.slots[i]
  {
    SlotOfIs(t.slots, Key(ip), 0, k);
  }

  lemma {:induction false} NoneFound(t: Table, ip: string, now: nat)
    requires Good(t) && ip != "" && Unknown(t, ip, now)
    ensures var f := Find(t.slots, ip, now);
            && f.index == |t.slots| && |f.slots| == |t.slots|
            && forall i :: 0 <= i < |t.slots| ==> f.slots[i] == t.slots[i] || f.slots[i] == Age(t.slots[i], now)
  {
    var k := SlotOf(t.slots, Key(ip), 0);
    if k < |t.slots| { assert !LiveSlot(t, ip, now, k); }
  }

  /** A new address takes a slot that is free or has gone quiet. */
  lemma {:induction false} FailTakesFreeSlot(t: Table, ip: string, now: nat) returns (i: nat)
    requires Good(t) && ip != "" && Unknown(t, ip, now) && exists j: nat :: FreeSlot(t, now, j)
    ensures FreeSlot(t, now, i) && FailOf(t, ip, now).slots[i] == Entry(Key(ip), 1, 0, now)
    ensures FailOf(t, ip, now).over == t.over
  {
    var f := Find(t.slots, ip, now);
    NoneFound(t, ip, now);
    FreeIsFirst(f.slots, now, 0);
    var j: nat :| FreeSlot(t, now, j);
    AgeTwice(t.slots[j], now);
    var g := FreeFrom(f.slots, now, 0);
    i := g.index;
    assert i < |t.slots|;
    AgeTwice(t.slots[i], now);
    FreeAges(f.slots, now, 0);
    assert SlotOk(t.slots[i]);
    assert g.slots[i] == Clear;
  }

  /** Without one it counts on the entry that all such addresses share. */
  lemma {:induction false} FailOverflows(t: Table, ip: string, now: nat)
    requires Good(t) && ip != "" && Unknown(t, ip, now) && forall j :: 0 <= j < |t.slots| ==> !FreeSlot(t, now, j)
    ensures FailOf(t, ip, now).over == OneMore(Age(t.over, now), now)
    ensures forall i :: 0 <= i < |t.slots| ==> FailOf(t, ip, now).slots[i].ip == t.slots[i].ip
  {
    var f := Find(t.slots, ip, now);
    NoneFound(t, ip, now);
    FreeIsFirst(f.slots, now, 0);
    var g := FreeFrom(f.slots, now, 0);
    if g.index < |t.slots| {
      AgeTwice(t.slots[g.index], now);
      assert FreeSlot(t, now, g.index);
    }
    PlaceAges(t, ip, now);
    forall i | 0 <= i < |t.slots| ensures g.slots[i].ip == t.slots[i].ip {
      assert AgedOr(t.slots[i], Place(t, ip, now).slots[i], now) && !FreeSlot(t, now, i);
    }
  }

  /** Either way exactly one slot holds the address afterwards. */
  lemma FailLeavesOneSlot(t: Table, ip: string, now: nat, i: nat)
    requires Good(t) && ip != "" && i < |t.slots| && FailOf(t, ip, now).slots[i].ip == Key(ip)
    ensures forall j :: 0 <= j < |t.slots| && j != i ==> FailOf(t, ip, now).slots[j].ip != Key(ip)
  {
    FailKeepsDistinct(t, ip, now);
  }

  // ---- Release, quiet and success ----

  /** At the deadline the address is served again, and one wrong guess locks it for another half minute. */
  lemma ReleasedAtDeadline(t: Table, ip: string, i: nat, now: nat)
    requires Good(t) && ip != "" && i < |t.slots| && t.slots[i].ip == Key(ip) && t.slots[i].fails == 5
    requires t.slots[i].last + 30000 <= now < t.slots[i].last + 600000
    ensures AllowOf(t, ip, now).allowed && FailOf(t, ip, now).slots[i] == Entry(Key(ip), 5, now + 30000, now)
  {
    assert SlotOk(t.slots[i]);
    SlotOfIs(t.slots, Key(ip), 0, i);
    FailCountsOnOwnSlot(t, ip, now, i);
  }

  /** After ten quiet minutes the address is forgotten. */
  lemma ForgottenWhenQuiet(t: Table, ip: string, i: nat, now: nat)
    requires Good(t) && ip != "" && i < |t.slots| && t.slots[i].ip == Key(ip) && t.slots[i].last + 600000 <= now
    ensures AllowOf(t, ip, now).allowed && Unknown(t, ip, now) && FreeSlot(t, now, i)
  {
    assert SlotOk(t.slots[i]);
    SlotOfIs(t.slots, Key(ip), 0, i);
    RefusedExactly(t, ip, now);
    forall j | 0 <= j < |t.slots| && t.slots[j].ip == Key(ip) ensures j == i { SlotOfIs(t.slots, Key(ip), 0, j); }
  }

  /** A success frees the slot, and only that one. */
  lemma SuccessForgets(t: Table, ip: string, i: nat, now: nat)
    requires Good(t) && ip != "" && i < |t.slots| && t.slots[i].ip == Key(ip)
    ensures ResetOf(t, ip) == t.(slots := t.slots[i := Clear]) && AllowOf(ResetOf(t, ip), ip, now).allowed
  {
    assert SlotOk(t.slots[i]);
    SlotOfIs(t.slots, Key(ip), 0, i);
    var u := ResetOf(t, ip);
    assert u.slots == t.slots[i := Clear];
    ForgottenAllows(u, ip, i, now);
  }

  lemma ForgottenAllows(t: Table, ip: string, i: nat, now: nat)
    requires i < |t.slots| && t.slots[i] == Clear && forall j :: 0 <= j < |t.slots| ==> t.slots[j].ip != Key(ip)
    ensures AllowOf(t, ip, now).allowed
  {
    FreeIsFirst(t.slots, now, 0);
  }

  // ---- Five guesses ----

  /** Anything but guesses and successes of the address, by the given time. */
  predicate OtherEvents(run: seq<Event>, key: string, until: nat) {
    forall k :: 0 <= k < |run| ==> run[k].now <= until && (run[k].Allow? || run[k].ip == "" || Key(run[k].ip) != key)
  }

  lemma {:induction false} CountStays(w: World, ev: Event, i: nat)
    requires Sound(w) && i < |w.t.slots| && w.t.slots[i].ip != "" && w.t.slots[i].fails < 5
    requires ev.now < w.t.slots[i].last + 600000 && OtherEvents([ev], w.t.slots[i].ip, ev.now)
    ensures Next(w.t, ev).slots[i] == w.t.slots[i]
  {
    var c := w.t.slots[i];
    assert ev == [ev][0] && SlotOk(c);
    assert Age(c, ev.now) == c;
    if ev.Reset? { ResetEffect(w.t, ev.ip, i); }
    else if ev.Allow? { AllowAges(w.t, ev.ip, ev.now); }
    else if ev.ip != "" {
      FailEffect(w.t, ev.ip, ev.now, i);
      PlaceAges(w.t, ev.ip, ev.now);
    }
    assert Next(w.t, ev).At(i) == Next(w.t, ev).slots[i];
  }

  lemma {:induction false} CountStaysOver(w: World, run: seq<Event>, i: nat, until: nat)
    requires Sound(w) && Timed(w.clock, run) && i < |w.t.slots| && w.t.slots[i].ip != "" && w.t.slots[i].fails < 5
    requires OtherEvents(run, w.t.slots[i].ip, until) && until < w.t.slots[i].last + 600000
    ensures Sound(Run(w, run)) && Run(w, run).t.slots[i] == w.t.slots[i]
    decreases run
  {
    if run != [] {
      assert run[0] == [run[0]][0];
      CountStays(w, run[0], i);
      StepIsSound(w, run[0]);
      CountStaysOver(Step(w, run[0]), run[1..], i, until);
    }
  }

  /** Other events, then a wrong guess of the address. */
  datatype Guess = Guess(others: seq<Event>, at: nat)

  function AfterGuess(w: World, ip: string, g: Guess): World
    requires |w.logs| == |w.t.slots| + 1
  {
    Step(Run(w, g.others), Fail(ip, g.at))
  }

  function AfterGuesses(w: World, ip: string, gs: seq<Guess>): World
    requires |w.logs| == |w.t.slots| + 1
    decreases |gs|
  {
    if gs == [] then w else AfterGuesses(AfterGuess(w, ip, gs[0]), ip, gs[1..])
  }

  /** Time goes on, each guess comes within ten minutes of the one before, and no success lies between. */
  predicate Steadily(w: World, ip: string, gs: seq<Guess>, last: nat)
    requires |w.logs| == |w.t.slots| + 1
    decreases |gs|
  {
    gs == [] ||
    (var g := gs[0];
     && Timed(w.clock, g.others) && Run(w, g.others).clock <= g.at && g.at < last + 600000
     && OtherEvents(g.others, Key(ip), g.at) && Steadily(AfterGuess(w, ip, g), ip, gs[1..], g.at))
  }

  lemma {:induction false} GuessCounts(w: World, ip: string, g: Guess, i: nat)
    requires Sound(w) && ip != "" && i < |w.t.slots| && w.t.slots[i].ip == Key(ip) && w.t.slots[i].fails < 5
    requires Timed(w.clock, g.others) && Run(w, g.others).clock <= g.at < w.t.slots[i].last + 600000
    requires OtherEvents(g.others, Key(ip), g.at)
    ensures var x := AfterGuess(w, ip, g);
            Sound(x) && x.t.slots[i] == OneMore(w.t.slots[i], g.at)
  {
    CountStaysOver(w, g.others, i, g.at);
    var r := Run(w, g.others);
    StepIsSound(r, Fail(ip, g.at));
    assert SlotOk(r.t.slots[i]);
    assert Age(r.t.slots[i], g.at) == r.t.slots[i];
    FailCountsOnOwnSlot(r.t, ip, g.at, i);
  }

  lemma {:induction false} GuessesCount(w: World, ip: string, gs: seq<Guess>, i: nat)
    requires Sound(w) && ip != "" && i < |w.t.slots| && w.t.slots[i].ip == Key(ip) && w.t.slots[i].fails + |gs| <= 5
    requires w.t.slots[i].fails > 0 && Steadily(w, ip, gs, w.t.slots[i].last)
    ensures var x := AfterGuesses(w, ip, gs);
            && Sound(x) && i < |x.t.slots| && x.t.slots[i].ip == Key(ip)
            && x.t.slots[i].fails == w.t.slots[i].fails + |gs|
            && x.t.slots[i].last == if gs == [] then w.t.slots[i].last else gs[|gs| - 1].at
    decreases |gs|
  {
    if gs != [] {
      GuessCounts(w, ip, gs[0], i);
      GuessesCount(AfterGuess(w, ip, gs[0]), ip, gs[1..], i);
    }
  }

  /**
   Five wrong guesses of an address that found a slot, each within ten minutes
   of the one before and with no success between, whatever others do meanwhile:
   it is refused until half a minute after the fifth, and served from then on.
   */
  lemma {:induction false} FiveGuessesLock(w: World, ip: string, first: nat, gs: seq<Guess>, now: nat)
    requires Sound(w) && ip != "" && w.clock <= first && |gs| == 4
    requires Unknown(w.t, ip, first) && exists j: nat :: FreeSlot(w.t, first, j)
    requires Steadily(Step(w, Fail(ip, first)), ip, gs, first)
    ensures var x := AfterGuesses(Step(w, Fail(ip, first)), ip, gs);
            && (now < gs[3].at + 30000 ==> !AllowOf(x.t, ip, now).allowed)
            && (gs[3].at + 30000 <= now ==> AllowOf(x.t, ip, now).allowed)
  {
    var i := FailTakesFreeSlot(w.t, ip, first);
    StepIsSound(w, Fail(ip, first));
    var s := Step(w, Fail(ip, first));
    KeyIsText(ip);
    GuessesCount(s, ip, gs, i);
    var x := AfterGuesses(s, ip, gs);
    assert SlotOk(x.t.slots[i]);
    if now < gs[3].at + 30000 { LockedIsRefused(x, [], i, ip, now); }
    else if now < gs[3].at + 600000 { ReleasedAtDeadline(x.t, ip, i, now); }
    else { ForgottenWhenQuiet(x.t, ip, i, now); }
  }

  lemma KeyIsText(ip: string)
    requires ip != ""
    ensures Key(ip) != "" && |Key(ip)| <= 45 && Key(ip) == ip[..|Key(ip)|] && (|ip| <= 45 ==> Key(ip) == ip)
  {}
}
