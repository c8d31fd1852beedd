/** Whole runs of the broker reboot budget and the last-good rollback. */
module MqttRuns {
  import opened Options
  import opened MqttRollback

  datatype Event =
    | Connected(ok: OkEnv)
    | Failed(fail: FailEnv)
    | Edited(config: Mqtt)
    | Reinit
    | Reset
    | Booted(boot: BootEnv)

  /** proven: the file connected on its own broker and port since its last edit. */
  datatype World = World(d: Device, proven: bool)

  predicate Proves(d: Device, e: OkEnv) {
    SnapshotProven(d.live.broker, ConfigPort(d.live.port), d.host, d.port) && d.live == d.file && e.lgLands
  }

  function Step(w: World, e: Event): World {
    if e.Booted? then (if w.d.up then w else w.(d := Boot(w.d, e.boot)))
    else if !w.d.up then w
    else match e
      case Connected(ok) => World(ConnectOk(w.d, ok), w.proven || Proves(w.d, ok))
      case Failed(fail) => w.(d := ConnectFail(w.d, fail))
      case Edited(config) => World(w.d.(file := config, live := config), false)
      case Reinit => w.(d := AdoptBroker(w.d))
      case Reset => w.(d := w.d.(up := false))
  }

  function Exec(w: World, run: seq<Event>): World
    decreases run
  {
    if run == [] then w else Exec(Step(w, run[0]), run[1..])
  }

  // ---- The reboot bound ----

  predicate Restarts(w: World, e: Event) {
    e.Failed? && w.d.up && !Step(w, e).d.up
  }

  function CountRestarts(w: World, run: seq<Event>): nat
    decreases run
  {
    if run == [] then 0
    else (if Restarts(w, run[0]) then 1 else 0) + CountRestarts(Step(w, run[0]), run[1..])
  }

  /** Sessions, edits and aged-out streaks: each may grant a new budget. */
  predicate Renews(e: Event) {
    e.Connected? || e.Edited? || (e.Failed? && e.fail.aged)
  }

  function CountRenewals(run: seq<Event>): nat {
    if run == [] then 0 else (if Renews(run[0]) then 1 else 0) + CountRenewals(run[1..])
  }

  predicate LosesBump(e: Event) { e.Failed? && !e.fail.bumpLands }

  function CountLost(run: seq<Event>): nat {
    if run == [] then 0 else (if LosesBump(run[0]) then 1 else 0) + CountLost(run[1..])
  }

  predicate Differs(d: Device) {
    d.nvs.lg.Some? && CriticalOf(d.file) != d.nvs.lg.value
  }

  /** Restarts still possible: the budget left, and one more budget a rollback may grant. */
  function Left(d: Device): nat {
    (if d.nvs.count < d.max then d.max - d.nvs.count else 0) + (if Differs(d) then d.max else 0)
  }

  lemma FailLeft(d: Device, e: FailEnv)
    requires d.up
    ensures var f := ConnectFail(d, e);
            && f.max == d.max && f.file == d.file && f.live == d.live && f.nvs.lg == d.nvs.lg
            && (if f.up then 0 else 1) + Left(f)
               <= Left(d) + (if e.aged then 2 * d.max else 0) + (if e.bumpLands then 0 else 1)
  {}

  lemma BootLeft(d: Device, e: BootEnv)
    ensures Boot(d, e).max == d.max && Boot(d, e).up && Left(Boot(d, e)) <= Left(d)
  {}

  lemma StepLeft(w: World, e: Event)
    ensures Step(w, e).d.max == w.d.max
    ensures (if Restarts(w, e) then 1 else 0) + Left(Step(w, e).d)
            <= Left(w.d) + (if Renews(e) then 2 * w.d.max else 0) + (if LosesBump(e) then 1 else 0)
  {
    match e
    case Failed(fail) => if w.d.up { FailLeft(w.d, fail); }
    case Booted(boot) => if !w.d.up { BootLeft(w.d, boot); }
    case _ =>
  }

  /**
   In every run the device restarts itself at most twice its budget, plus twice
   that for each session, edit or aged-out streak and one for each lost count.
   */
  lemma {:induction false} RebootBound(w: World, run: seq<Event>)
    ensures CountRestarts(w, run) + Left(Exec(w, run).d)
            <= Left(w.d) + 2 * w.d.max * CountRenewals(run) + CountLost(run)
    ensures Left(w.d) <= 2 * w.d.max
    decreases run
  {
    if run != [] {
      StepLeft(w, run[0]);
      RebootBound(Step(w, run[0]), run[1..]);
      Distribute(w.d.max, if Renews(run[0]) then 1 else 0, CountRenewals(run[1..]));
    }
  }

  lemma Distribute(max: nat, a: nat, b: nat)
    ensures 2 * max * (a + b) == 2 * max * a + 2 * max * b
  {}

  /** Nothing renewed and nothing lost: at most two budgets of restarts. */
  lemma NoRebootLoop(w: World, run: seq<Event>)
    requires CountRenewals(run) == 0 && CountLost(run) == 0
    ensures CountRestarts(w, run) <= 2 * w.d.max
  {
    RebootBound(w, run);
  }

  // ---- The bound is reached ----

  lemma {:induction false} RunsJoin(w: World, a: seq<Event>, b: seq<Event>)
    ensures Exec(w, a + b) == Exec(Exec(w, a), b)
    ensures CountRestarts(w, a + b) == CountRestarts(w, a) + CountRestarts(Exec(w, a), b)
    ensures CountRenewals(a + b) == CountRenewals(a) + CountRenewals(b)
            && CountLost(a + b) == CountLost(a) + CountLost(b)
    decreases a
  {
    if a == [] {
      assert a + b == b;
    } else {
      assert (a + b)[1..] == a[1..] + b;
      RunsJoin(Step(w, a[0]), a[1..], b);
    }
  }

  const Wrong := Mqtt("x", Int(1), "", "")
  const Proven := Critical("g", 1, "", "")

  /** A config that cannot connect, over another one that did. */
  function OnWrong(max: nat, count: nat): World {
    World(Device(Wrong, Wrong, "x", 1, Nvs(count, true, Some(Proven), None), 0, false, true, max, 3), false)
  }

  /** The same device after the rollback, its broker gone as well. */
  function OnProven(max: nat, count: nat, rbCfg: Option<Critical>): World {
    var m := Restored(Proven);
    World(Device(m, m, "g", 1, Nvs(count, true, Some(Proven), rbCfg), 0, false, true, max, 3), false)
  }

  /** Three failures, the third on a fragmented heap or not, and the boot after them. */
  function Cycle(heap: nat): seq<Event> {
    var f := Failed(FailEnv(true, CONNECT_FAILED, heap, false, true, true));
    [f, f, f, Booted(BootEnv(true, true, true, true))]
  }

  lemma CycleIsFour(w: World, heap: nat)
    ensures var c := Cycle(heap);
            var w1 := Step(w, c[0]);
            var w2 := Step(w1, c[1]);
            var w3 := Step(w2, c[2]);
            && Exec(w, c) == Step(w3, c[3])
            && CountRestarts(w, c) == (if Restarts(w, c[0]) then 1 else 0) + (if Restarts(w1, c[1]) then 1 else 0)
                                      + (if Restarts(w2, c[2]) then 1 else 0) + (if Restarts(w3, c[3]) then 1 else 0)
            && CountRenewals(c) == 0 && CountLost(c) == 0
  {
    var c := Cycle(heap);
    var c1 := c[1..];
    var c2 := c1[1..];
    var c3 := c2[1..];
    assert c1[0] == c[1] && c2[0] == c[2] && c3[0] == c[3] && c3[1..] == [];
    var w1 := Step(w, c[0]);
    var w2 := Step(w1, c[1]);
    var w3 := Step(w2, c[2]);
    assert Exec(w3, c3) == Step(w3, c[3]) && CountRestarts(w3, c3) == if Restarts(w3, c[3]) then 1 else 0;
    assert Exec(w2, c2) == Exec(w3, c3) && Exec(w1, c1) == Exec(w2, c2);
    assert CountRenewals(c3) == 0 && CountLost(c3) == 0;
    assert CountRenewals(c2) == 0 && CountLost(c2) == 0;
    assert CountRenewals(c1) == 0 && CountLost(c1) == 0;
    assert CountRestarts(w1, c1) == (if Restarts(w1, c[1]) then 1 else 0) + CountRestarts(w2, c2);
  }

  lemma SmallSnapshotsFit()
    ensures Fits(CriticalOf(Wrong)) && Fits(Proven)
  {
    assert Digits(1) == 1;
    assert Escaped("x") == 1 + Escaped("x"[1..]) && Escaped("g") == 1 + Escaped("g"[1..]);
  }

  lemma DefragCycle(max: nat, count: nat)
    requires count < max
    ensures Exec(OnWrong(max, count), Cycle(0)) == OnWrong(max, count + 1)
    ensures CountRestarts(OnWrong(max, count), Cycle(0)) == 1
  {
    CycleIsFour(OnWrong(max, count), 0);
  }

  lemma RollbackCycle(max: nat, count: nat)
    requires count < max
    ensures Exec(OnWrong(max, count), Cycle(DEFRAG_HEAP)) == OnProven(max, 0, None)
    ensures CountRestarts(OnWrong(max, count), Cycle(DEFRAG_HEAP)) == 1
  {
    SmallSnapshotsFit();
    CycleIsFour(OnWrong(max, count), DEFRAG_HEAP);
  }

  lemma ExhaustCycle(max: nat, count: nat, rbCfg: Option<Critical>)
    requires count < max
    ensures Exec(OnProven(max, count, rbCfg), Cycle(DEFRAG_HEAP)) == OnProven(max, count + 1, Some(Proven))
    ensures CountRestarts(OnProven(max, count, rbCfg), Cycle(DEFRAG_HEAP)) == 1
  {
    SmallSnapshotsFit();
    CycleIsFour(OnProven(max, count, rbCfg), DEFRAG_HEAP);
  }

  lemma CycleFirst(w: World, next: World, heap: nat, rest: seq<Event>)
    requires Exec(w, Cycle(heap)) == next && CountRestarts(w, Cycle(heap)) == 1
    ensures CountRestarts(w, Cycle(heap) + rest) == 1 + CountRestarts(next, rest)
    ensures CountRenewals(Cycle(heap) + rest) == CountRenewals(rest) && CountLost(Cycle(heap) + rest) == CountLost(rest)
  {
    CycleIsFour(w, heap);
    RunsJoin(w, Cycle(heap), rest);
  }

  lemma {:induction false} SecondBudget(max: nat, count: nat, rbCfg: Option<Critical>) returns (run: seq<Event>)
    requires count <= max
    ensures CountRestarts(OnProven(max, count, rbCfg), run) == max - count
    ensures CountRenewals(run) == 0 && CountLost(run) == 0
    decreases max - count
  {
    if count == max {
      run := [];
    } else {
      var rest := SecondBudget(max, count + 1, Some(Proven));
      ExhaustCycle(max, count, rbCfg);
      CycleFirst(OnProven(max, count, rbCfg), OnProven(max, count + 1, Some(Proven)), DEFRAG_HEAP, rest);
      run := Cycle(DEFRAG_HEAP) + rest;
    }
  }

  lemma {:induction false} BothBudgets(max: nat, count: nat) returns (run: seq<Event>)
    requires count < max
    ensures CountRestarts(OnWrong(max, count), run) == 2 * max - count
    ensures CountRenewals(run) == 0 && CountLost(run) == 0
    decreases max - count
  {
    if count + 1 < max {
      var rest := BothBudgets(max, count + 1);
      DefragCycle(max, count);
      CycleFirst(OnWrong(max, count), OnWrong(max, count + 1), 0, rest);
      run := Cycle(0) + rest;
    } else {
      var rest := SecondBudget(max, 0, None);
      RollbackCycle(max, count);
      CycleFirst(OnWrong(max, count), OnProven(max, 0, None), DEFRAG_HEAP, rest);
      run := Cycle(DEFRAG_HEAP) + rest;
    }
  }

  /** Every budget can be used up twice: the bound is the least one. */
  lemma TwoBudgetsReached(max: nat)
    ensures exists w: World, run: seq<Event> ::
              w.d.max == max && CountRenewals(run) == 0 && CountLost(run) == 0 && CountRestarts(w, run) == 2 * max
  {
    var w, run: seq<Event> := OnWrong(max, 0), [];
    if max > 0 { run := BothBudgets(max, 0); }
    assert w.d.max == max && CountRenewals(run) == 0 && CountLost(run) == 0 && CountRestarts(w, run) == 2 * max;
  }

  // ---- A proven config is kept ----

  predicate Kept(w: World) {
    w.proven ==>
      && (w.d.up ==> w.d.live == w.d.file)
      && (!Fits(CriticalOf(w.d.file)) || w.d.nvs.lg == Some(CriticalOf(w.d.file)))
  }

  lemma OkKept(w: World, ok: OkEnv)
    requires Kept(w) && w.d.up
    ensures Kept(Step(w, Connected(ok)))
  {}

  lemma BootKept(w: World, boot: BootEnv)
    requires Kept(w) && !w.d.up && w.proven
    ensures Boot(w.d, boot).file == w.d.file && Kept(w.(d := Boot(w.d, boot)))
  {
    var d := w.d.(live := w.d.file, host := "", port := 0, retry := 0, halted := false, up := true);
    assert RollBack(d, boot) == d;
  }

  lemma StepKept(w: World, e: Event)
    requires Kept(w)
    ensures Kept(Step(w, e))
    ensures w.proven && !e.Edited? ==> Step(w, e).proven && Step(w, e).d.file == w.d.file
  {
    match e
    case Connected(ok) => if w.d.up { OkKept(w, ok); }
    case Failed(fail) => if w.d.up { FailLeft(w.d, fail); }
    case Booted(boot) => if !w.d.up && w.proven { BootKept(w, boot); }
    case _ =>
  }

  predicate NoEdit(run: seq<Event>) { forall e :: e in run ==> !e.Edited? }

  /** A config that connected on its own broker and port since its edit stays until the next edit. */
  lemma {:induction false} ProvenNeverRolledBack(w: World, run: seq<Event>)
    requires Kept(w) && w.proven && NoEdit(run)
    ensures Exec(w, run).d.file == w.d.file && Exec(w, run).proven
    decreases run
  {
    if run != [] {
      StepKept(w, run[0]);
      ProvenNeverRolledBack(Step(w, run[0]), run[1..]);
    }
  }

  lemma {:induction false} RunKept(w: World, run: seq<Event>)
    requires Kept(w)
    ensures Kept(Exec(w, run))
    decreases run
  {
    if run != [] {
      StepKept(w, run[0]);
      RunKept(Step(w, run[0]), run[1..]);
    }
  }

  /** From any device, whatever happened before the session and after it. */
  lemma SessionProtectsConfig(d: Device, before: seq<Event>, ok: OkEnv, after: seq<Event>)
    requires var w := Exec(World(d, false), before); w.d.up && Proves(w.d, ok)
    requires NoEdit(after)
    ensures var w := Exec(World(d, false), before);
            Exec(Step(w, Connected(ok)), after).d.file == w.d.file
  {
    RunKept(World(d, false), before);
    var w := Exec(World(d, false), before);
    StepKept(w, Connected(ok));
    ProvenNeverRolledBack(Step(w, Connected(ok)), after);
  }

  // ---- What a rollback brings back ----

  /**
   A boot changes the file exactly when the config that exhausted the broker is
   still there and differs from last-good.
   */
  lemma RollbackExactly(d: Device, e: BootEnv)
    ensures var f := Boot(d, e);
            var due := && e.nvs && d.nvs.lgSet && d.nvs.lg.Some? && Fits(CriticalOf(d.file))
                       && d.nvs.rbCfg == Some(CriticalOf(d.file)) && d.nvs.lg != d.nvs.rbCfg;
            && f.file == (if due && e.save then Restored(d.nvs.lg.value) else d.file)
            && (due && e.save ==> CriticalOf(f.file) == d.nvs.lg.value)
            && f.nvs.count == (if due && e.save && e.clearLands then 0 else d.nvs.count)
            && f.nvs.rbCfg == (if due && e.save && e.rbClearLands then None else d.nvs.rbCfg)
  {}


  /** The snapshot keys always come back; the dialed port does exactly when the key holds a 32-bit integer. */
  lemma RollbackEndpoint(m: Mqtt)
    ensures CriticalOf(Restored(CriticalOf(m))) == CriticalOf(m)
    ensures DialPort(Restored(CriticalOf(m)).port) == DialPort(m.port) <==> m.port.Int?
  {}

  /** Last-good without a 32-bit port dialed 8883; after the rollback the device dials port 0. */
  lemma RollbackToMissingPort(d: Device, e: BootEnv, good: Mqtt)
    requires !d.up && !good.port.Int? && good.broker != "" && |good.broker| < HOST_CAP
    requires d.nvs.lgSet && d.nvs.lg == Some(CriticalOf(good)) && d.nvs.rbCfg == Some(CriticalOf(d.file))
    requires CriticalOf(d.file) != CriticalOf(good) && Fits(CriticalOf(d.file)) && e.nvs && e.save
    ensures DialPort(good.port) == DEFAULT_PORT == ConfigPort(good.port)
    ensures Boot(d, e).host == good.broker && Boot(d, e).port == 0
  {}
}
