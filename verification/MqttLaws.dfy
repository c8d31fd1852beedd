/** What budget and rollback give: restarts while the budget lasts, and the good config back. */
module MqttLaws {
  import opened Options
  import opened ByteStrings
  import opened MqttRollback
  import opened MqttRuns

  // ---- One step ----

  /** A session gives the whole budget back and forgets the failing config, write by write. */
  lemma SessionRenews(d: Device, e: OkEnv)
    ensures var f := ConnectOk(d, e);
            && f.nvs.count == (if e.clearLands then 0 else d.nvs.count)
            && f.nvs.rbCfg == (if e.rbClearLands then None else d.nvs.rbCfg)
            && f.retry == 0 && !f.halted && f.up == d.up && f.file == d.file && f.live == d.live
  {}

  /** The snapshot of a session on the config's own endpoint, when its text fits. */
  lemma SessionSnapshots(d: Device, e: OkEnv)
    requires d.host != "" && d.host == d.live.broker && d.port == ConfigPort(d.live.port) && Fits(CriticalOf(d.live))
    requires e.lgLands && e.lgSetLands
    ensures var f := ConnectOk(d, e);
            && f.nvs.lg == Some(CriticalOf(d.live))
            && (f.nvs.lgSet <==> d.nvs.lgSet || d.nvs.lg != Some(CriticalOf(d.live)))
  {}

  /** A failure restarts the device exactly within its budget, on a fragmented heap or at the end of its tries. */
  lemma RestartsIff(d: Device, e: FailEnv)
    requires d.up
    ensures var n := (d.retry + 1) % 0x100;
            !ConnectFail(d, e).up <==>
              && (e.aged || d.nvs.count < d.max) && (e.aged ==> 0 < d.max) && !d.halted
              && ((n >= 3 && e.resolved && e.rc == -2 && e.heap < 40000) || n >= d.after)
  {}

  /** With the budget spent the device stops restarting and says so. */
  lemma HaltsWhenSpent(d: Device, e: FailEnv)
    requires d.up && !e.aged && d.nvs.count >= d.max && (d.retry + 1) % 0x100 >= d.after
    ensures ConnectFail(d, e).up && ConnectFail(d, e).halted && ConnectFail(d, e).nvs == d.nvs
  {}

  /** A boot that rolls nothing back dials what the file says. */
  lemma BootDials(d: Device, e: BootEnv)
    requires d.nvs.rbCfg != Some(CriticalOf(d.file)) && d.file.broker != "" && |d.file.broker| < 96
    ensures var f := Boot(d, e);
            && f.file == d.file && f.live == d.file && f.host == d.file.broker && f.up && f.retry == 0 && !f.halted
            && f.port == if d.file.port.Int? then d.file.port.n % 0x1_0000 else 8883
  {}

  // ---- The snapshot text ----

  function EscapedChar(c: char): string {
    if c == '\"' then "\\\"" else if c == '\\' then "\\\\"
    else if c == '\n' then "\\n" else if c == '\r' then "\\r" else if c == '\t' then "\\t"
    else if c == '\U{0008}' then "\\b" else if c == '\U{000C}' then "\\f" else if c == '\0' then "\\u0000"
    else [c]
  }

  function EscapedText(s: string): string { if s == "" then "" else EscapedChar(s[0]) + EscapedText(s[1..]) }

  function Number(n: int): string
    decreases if n < 0 then 1 - n else n
  {
    if n < 0 then "-" + Number(-n) else if n < 10 then [(48 + n) as char] else Number(n / 10) + [(48 + n % 10) as char]
  }

  /** The snapshot as it is stored. */
  function SnapshotText(c: Critical): string {
    "{\"broker\":\"" + EscapedText(c.broker) + "\",\"port\":" + Number(c.port)
    + ",\"user\":\"" + EscapedText(c.user) + "\",\"password\":\"" + EscapedText(c.password) + "\"}"
  }

  lemma {:induction false} EscapedIsLength(s: string)
    ensures |EscapedText(s)| == Escaped(s)
  {
    if s != "" { EscapedIsLength(s[1..]); }
  }

  lemma {:induction false} NumberIsLength(n: int)
    ensures |Number(n)| == Digits(n)
    decreases if n < 0 then 1 - n else n
  {
    if n < 0 { NumberIsLength(-n); } else if n >= 10 { NumberIsLength(n / 10); }
  }

  /** It fits when its text is shorter than its 384-byte buffer. */
  lemma FitsIsLength(c: Critical)
    ensures Fits(c) <==> |SnapshotText(c)| < 384
  {
    EscapedIsLength(c.broker);
    EscapedIsLength(c.user);
    EscapedIsLength(c.password);
    NumberIsLength(c.port);
  }

  // ---- Runs of failures ----

  /** A name that does not resolve: no heap restart, every write lands. */
  const Plain := FailEnv(false, 0, 0, false, true, true)
  const AllWell := BootEnv(true, true, true, true)

  function Fails(n: nat): seq<Event> { seq(n, _ => Failed(Plain)) }

  lemma {:induction false} FailsCount(w: World, n: nat)
    requires w.d.up && w.d.retry + n < w.d.after <= 255
    ensures Exec(w, Fails(n)) == w.(d := w.d.(retry := w.d.retry + n)) && CountRestarts(w, Fails(n)) == 0
    decreases n
  {
    if n > 0 {
      assert Fails(n)[1..] == Fails(n - 1);
      assert Step(w, Failed(Plain)) == w.(d := w.d.(retry := w.d.retry + 1));
      FailsCount(w.(d := w.d.(retry := w.d.retry + 1)), n - 1);
    }
  }

  /** The last failure of a round restarts the device and notes its config. */
  lemma LastFail(w: World)
    requires w.d.up && !w.d.halted && w.d.retry + 1 == w.d.after <= 255 && w.d.nvs.count < w.d.max
    ensures var x := Step(w, Failed(Plain)).d;
            && !x.up && x.nvs.count == w.d.nvs.count + 1 && x.max == w.d.max && x.after == w.d.after
            && x.file == w.d.file && x.nvs.lg == w.d.nvs.lg && x.nvs.lgSet == w.d.nvs.lgSet
            && (Fits(CriticalOf(w.d.live)) ==> x.nvs.rbCfg == Some(CriticalOf(w.d.live)))
  {}

  lemma OneEvent(w: World, e: Event)
    ensures Exec(w, [e]) == Step(w, e) && CountRestarts(w, [e]) == if Restarts(w, e) then 1 else 0
    ensures CountRenewals([e]) == (if Renews(e) then 1 else 0) && CountLost([e]) == if LosesBump(e) then 1 else 0
  {
    assert [e][1..] == [];
  }

  /** As many failures as the device bears from a fresh start. */
  lemma RoundRestarts(w: World)
    requires w.d.up && !w.d.halted && w.d.retry == 0 && 1 <= w.d.after <= 255 && w.d.nvs.count < w.d.max
    ensures var x := Exec(w, Fails(w.d.after)).d;
            && CountRestarts(w, Fails(w.d.after)) == 1
            && !x.up && x.nvs.count == w.d.nvs.count + 1 && x.max == w.d.max && x.after == w.d.after
            && x.file == w.d.file && x.nvs.lg == w.d.nvs.lg && x.nvs.lgSet == w.d.nvs.lgSet
            && (Fits(CriticalOf(w.d.live)) ==> x.nvs.rbCfg == Some(CriticalOf(w.d.live)))
  {
    var n := w.d.after - 1;
    assert Fails(w.d.after) == Fails(n) + [Failed(Plain)];
    FailsCount(w, n);
    RunsJoin(w, Fails(n), [Failed(Plain)]);
    OneEvent(Exec(w, Fails(n)), Failed(Plain));
    LastFail(Exec(w, Fails(n)));
  }

  lemma {:induction false} FailsAreFree(n: nat)
    ensures CountRenewals(Fails(n)) == 0 && CountLost(Fails(n)) == 0
    decreases n
  {
    if n > 0 {
      assert Fails(n)[1..] == Fails(n - 1);
      FailsAreFree(n - 1);
    }
  }

  lemma FreshBoot(d: Device)
    ensures var f := Boot(d, AllWell);
            && f.up && !f.halted && f.retry == 0 && f.max == d.max && f.after == d.after
            && (f.nvs.count == d.nvs.count || f.nvs.count == 0)
  {}

  /** A round of failures and the boot after it. */
  function Round(after: nat): seq<Event> { Fails(after) + [Booted(AllWell)] }

  lemma RoundSpendsOne(w: World)
    requires w.d.up && !w.d.halted && w.d.retry == 0 && 1 <= w.d.after <= 255 && w.d.nvs.count < w.d.max
    ensures var x := Exec(w, Round(w.d.after)).d;
            && CountRestarts(w, Round(w.d.after)) == 1
            && CountRenewals(Round(w.d.after)) == 0 && CountLost(Round(w.d.after)) == 0
            && x.up && !x.halted && x.retry == 0 && x.max == w.d.max && x.after == w.d.after
            && x.nvs.count <= w.d.nvs.count + 1
  {
    var n := w.d.after;
    RoundRestarts(w);
    FailsAreFree(n);
    var x := Exec(w, Fails(n));
    RunsJoin(w, Fails(n), [Booted(AllWell)]);
    OneEvent(x, Booted(AllWell));
    FreshBoot(x.d);
  }

  lemma {:induction false} BudgetLasts(w: World, n: nat) returns (run: seq<Event>)
    requires w.d.up && !w.d.halted && w.d.retry == 0 && 1 <= w.d.after <= 255 && w.d.nvs.count + n <= w.d.max
    ensures CountRestarts(w, run) == n && CountRenewals(run) == 0 && CountLost(run) == 0
    decreases n
  {
    run := [];
    if n > 0 {
      RoundSpendsOne(w);
      var rest := BudgetLasts(Exec(w, Round(w.d.after)), n - 1);
      RunsJoin(w, Round(w.d.after), rest);
      run := Round(w.d.after) + rest;
    }
  }

  /** After a session whose clear lands the device has its whole budget of restarts again. */
  lemma SessionGivesBudget(w: World, ok: OkEnv)
    requires w.d.up && ok.clearLands && 1 <= w.d.after <= 255
    ensures exists run ::
              && CountRenewals(run) == 0 && CountLost(run) == 0
              && CountRestarts(Step(w, Connected(ok)), run) == w.d.max
  {
    SessionRenews(w.d, ok);
    var x := Step(w, Connected(ok));
    StepLeft(w, Connected(ok));
    assert x.d.after == w.d.after;
    var run := BudgetLasts(x, w.d.max);
  }

  // ---- The good config comes back ----

  /** Connected on its own endpoint, with a snapshot that fits. */
  predicate Good(d: Device) {
    && d.up && d.live == d.file && d.host != "" && d.host == d.file.broker && |d.host| < 96
    && d.port == ConfigPort(d.file.port) && Fits(CriticalOf(d.file)) && d.max > 0 && 1 <= d.after <= 255
  }

  const Session: Event := Connected(OkEnv(true, true, true, true))

  /** The edit fails, and the device restarts on it. */
  function AfterBadEdit(d: Device, bad: Mqtt): Device {
    var edited := Step(Step(World(d, false), Session), Edited(bad));
    Exec(edited, Fails(d.after)).d
  }

  lemma BadEditNoted(d: Device, bad: Mqtt)
    requires Good(d) && Fits(CriticalOf(bad))
    ensures var x := AfterBadEdit(d, bad);
            && !x.up && x.file == bad && x.nvs.rbCfg == Some(CriticalOf(bad)) && x.nvs.lg == Some(CriticalOf(d.file))
            && (x.nvs.lgSet <==> d.nvs.lgSet || d.nvs.lg != Some(CriticalOf(d.file)))
  {
    SessionRenews(d, OkEnv(true, true, true, true));
    SessionSnapshots(d, OkEnv(true, true, true, true));
    var s := Step(World(d, false), Session);
    assert s.d.after == d.after && s.d.max == d.max;
    RoundRestarts(Step(s, Edited(bad)));
  }

  /**
   A config that connected, then an edit that does not: the restart brings the
   connected one back, exactly unless an earlier session stored it without
   its flag, which no later session sets.
   */
  lemma BadEditIsRolledBack(d: Device, bad: Mqtt)
    requires Good(d) && Fits(CriticalOf(bad)) && CriticalOf(bad) != CriticalOf(d.file)
    ensures var f := Boot(AfterBadEdit(d, bad), AllWell);
            f.file == Restored(CriticalOf(d.file)) <==> d.nvs.lgSet || d.nvs.lg != Some(CriticalOf(d.file))
    ensures var f := Boot(AfterBadEdit(d, bad), AllWell);
            d.nvs.lgSet || d.nvs.lg != Some(CriticalOf(d.file)) ==> f.nvs.count == 0 && f.host == d.file.broker
  {
    BadEditNoted(d, bad);
    RollbackExactly(AfterBadEdit(d, bad), AllWell);
  }

  /** Such a lost flag stays lost, however often the config connects. */
  lemma LostFlagStays(d: Device, e: OkEnv)
    requires d.nvs.lg == Some(CriticalOf(d.live)) && !d.nvs.lgSet
    ensures ConnectOk(d, e).nvs.lg == d.nvs.lg && !ConnectOk(d, e).nvs.lgSet
  {}

  /** And one session whose second write fails loses it. */
  lemma FlagCanBeLost(d: Device)
    requires Good(d) && !d.nvs.lgSet && d.nvs.lg == None
    ensures var f := ConnectOk(d, OkEnv(true, true, true, false));
            f.nvs.lg == Some(CriticalOf(d.file)) && !f.nvs.lgSet
  {}
}
