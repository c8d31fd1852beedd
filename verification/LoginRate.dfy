/**
 login_rate_policy.h: the login lockout table. Time is uptime in milliseconds;
 an address is a string without NUL, the empty one stands for none.
 */
module LoginRate {
  const MAX_FAILS: nat := 5
  const LOCKOUT_MS: nat := 30000
  const QUIET_MS: nat := 600000
  const IP_CAP: nat := 46

  datatype Entry = Entry(ip: string, fails: nat, until: nat, last: nat)

  const Clear: Entry := Entry("", 0, 0, 0)

  /** The slots, and the entry every address without a slot shares. */
  datatype Table = Table(slots: seq<Entry>, over: Entry) {
    function At(i: nat): Entry
      requires i <= |slots|
    {
      if i < |slots| then slots[i] else over
    }
  }

  /** The part of an address that is stored and compared. */
  function Key(ip: string): string { if |ip| < IP_CAP then ip else ip[..IP_CAP - 1] }

  function Age(c: Entry, now: nat): Entry {
    if c.fails == 0 then c
    else if now >= c.last + QUIET_MS then Clear
    else if c.fails >= MAX_FAILS && now >= c.until then c.(fails := MAX_FAILS - 1, until := 0)
    else c
  }

  /** The first slot from i on that holds the key, or the number of slots. */
  function SlotOf(slots: seq<Entry>, key: string, i: nat): (k: nat)
    requires i <= |slots|
    ensures i <= k <= |slots| && (k < |slots| ==> slots[k].ip == key)
    decreases |slots| - i
  {
    if i == |slots| || slots[i].ip == key then i else SlotOf(slots, key, i + 1)
  }

  datatype Slot = Slot(slots: seq<Entry>, index: nat)

  /** Ages the slot of an address; the index is the number of slots when it has none. */
  function Find(slots: seq<Entry>, ip: string, now: nat): (r: Slot)
    ensures |r.slots| == |slots| && r.index <= |slots|
    ensures r.index < |slots| ==> r.slots[r.index].ip == Key(ip) != ""
  {
    if ip == "" then Slot(slots, |slots|)
    else
      var k := SlotOf(slots, Key(ip), 0);
      if k == |slots| then Slot(slots, k)
      else
        var aged := Age(slots[k], now);
        Slot(slots[k := aged], if aged.ip == "" then |slots| else k)
  }

  /** Ages slots from i on until one is free. */
  function FreeFrom(slots: seq<Entry>, now: nat, i: nat): (r: Slot)
    requires i <= |slots|
    ensures |r.slots| == |slots| && i <= r.index <= |slots|
    ensures r.index < |slots| ==> r.slots[r.index].ip == ""
    decreases |slots| - i
  {
    if i == |slots| then Slot(slots, i)
    else
      var aged := Age(slots[i], now);
      if aged.ip == "" then Slot(slots[i := aged], i) else FreeFrom(slots[i := aged], now, i + 1)
  }

  // ---- The three operations ----

  datatype Answer = Answer(table: Table, allowed: bool)

  function AllowOf(t: Table, ip: string, now: nat): Answer {
    var n := |t.slots|;
    var f := Find(t.slots, ip, now);
    if f.index < n then Answer(t.(slots := f.slots), f.slots[f.index].fails < MAX_FAILS)
    else if ip == "" then Answer(t, true)
    else
      var g := FreeFrom(f.slots, now, 0);
      if g.index < n then Answer(t.(slots := g.slots), true)
      else
        var over := Age(t.over, now);
        Answer(Table(g.slots, over), over.fails < MAX_FAILS)
  }

  function Count(c: Entry, now: nat): Entry {
    if c.fails >= MAX_FAILS then c
    else c.(last := now, fails := c.fails + 1, until := if c.fails + 1 >= MAX_FAILS then now + LOCKOUT_MS else c.until)
  }

  /** Where a failure of this address goes, with the slots as the search leaves them. */
  function Place(t: Table, ip: string, now: nat): (r: Slot)
    ensures |r.slots| == |t.slots| && r.index <= |t.slots|
  {
    var f := Find(t.slots, ip, now);
    if f.index < |t.slots| then f else FreeFrom(f.slots, now, 0)
  }

  function FailOf(t: Table, ip: string, now: nat): (r: Table)
    ensures |r.slots| == |t.slots|
  {
    if ip == "" then t
    else
      var p := Place(t, ip, now);
      if p.index == |t.slots| then Table(p.slots, Count(Age(t.over, now), now))
      else
        var c := p.slots[p.index];
        var own := if c.ip == "" then c.(ip := Key(ip)) else c;
        t.(slots := p.slots[p.index := Count(own, now)])
  }

  function ResetOf(t: Table, ip: string): Table {
    var f := Find(t.slots, ip, 0);
    t.(slots := if f.index < |t.slots| then f.slots[f.index := Clear] else f.slots)
  }

  // ---- The class ----

  class LoginRateTable {
    const e: array<Entry>
    var over: Entry

    constructor (n: nat)
      ensures fresh(e) && e.Length == n && View() == Table(seq(n, _ => Clear), Clear)
    {
      e := new Entry[n](_ => Clear);
      over := Clear;
      new;
      assert e[..] == seq(n, _ => Clear);
    }

    function View(): Table
      reads this, e
    {
      Table(e[..], over)
    }

    method AgeSlot(i: nat, now: nat)
      requires i < e.Length
      modifies e
      ensures e[..] == old(e[..])[i := Age(old(e[i]), now)]
    {
      var c := e[i];
      if c.fails == 0 { return; }
      if now >= c.last + QUIET_MS {
        e[i] := Clear;
      } else if c.fails >= MAX_FAILS && now >= c.until {
        e[i] := c.(fails := MAX_FAILS - 1, until := 0);
      }
    }

    method FindSlot(ip: string, now: nat) returns (k: nat)
      modifies e
      ensures Slot(e[..], k) == Find(old(e[..]), ip, now)
    {
      if ip == "" { return e.Length; }
      k := 0;
      while k < e.Length
        invariant k <= e.Length && e[..] == old(e[..])
        invariant SlotOf(e[..], Key(ip), 0) == SlotOf(e[..], Key(ip), k)
      {
        if e[k].ip != "" && e[k].ip == Key(ip) {
          AgeSlot(k, now);
          return if e[k].ip != "" then k else e.Length;
        }
        k := k + 1;
      }
    }

    method FreeSlot(now: nat) returns (k: nat)
      modifies e
      ensures Slot(e[..], k) == FreeFrom(old(e[..]), now, 0)
    {
      k := 0;
      while k < e.Length
        invariant k <= e.Length && FreeFrom(e[..], now, k) == FreeFrom(old(e[..]), now, 0)
      {
        AgeSlot(k, now);
        if e[k].ip == "" { return; }
        k := k + 1;
      }
    }

    method Allow(ip: string, now: nat) returns (allowed: bool)
      modifies this, e
      ensures Answer(View(), allowed) == AllowOf(old(View()), ip, now)
    {
      var k := FindSlot(ip, now);
      if k < e.Length { return e[k].fails < MAX_FAILS; }
      if ip == "" { return true; }
      k := FreeSlot(now);
      if k < e.Length { return true; }
      over := Age(over, now);
      return over.fails < MAX_FAILS;
    }

    method Fail(ip: string, now: nat)
      modifies this, e
      ensures View() == FailOf(old(View()), ip, now)
    {
      if ip == "" { return; }
      var k := FindSlot(ip, now);
      if k == e.Length {
        k := FreeSlot(now);
        if k < e.Length {
          ghost var found := e[..];
          e[k] := e[k].(ip := Key(ip));
          assert e[..][k := Count(e[k], now)] == found[k := Count(e[k], now)];
        } else {
          over := Count(Age(over, now), now);
          return;
        }
      }
      e[k] := Count(e[k], now);
    }

    method Reset(ip: string)
      modifies e
      ensures View() == ResetOf(old(View()), ip)
    {
      var k := FindSlot(ip, 0);
      if k < e.Length { e[k] := Clear; }
    }
  }
}
