/**
 The broker reboot budget and the last-good rollback of MQTTClient.cpp, with
 the predicates of mqtt_rollback_policy.h. Strings are NUL-free; each stored
 snapshot is the value its JSON text parses back to.
 */
module MqttRollback {
  import opened ByteStrings
  import opened Options

  const DEFAULT_PORT: nat := 8883
  const HOST_CAP: nat := 96
  const LG_MAX_LEN: nat := 384
  const DEFRAG_HEAP: nat := 40000
  const CONNECT_FAILED: int := -2

  /** What ArduinoJson reads as an int. */
  type Int32 = n: int | -0x8000_0000 <= n < 0x8000_0000

  /** mqtt.port: missing, an int, or some other value: a string, a fraction, an integer past 32 bits. */
  datatype Port = Missing | Int(n: Int32) | Other

  /** The connection keys of config.json. */
  datatype Mqtt = Mqtt(broker: string, port: Port, user: string, password: string)

  /** The snapshot: a port that is no int is written as 0. */
  datatype Critical = Critical(broker: string, port: Int32, user: string, password: string)

  /** Reading a port with a default, as an int. */
  function PortOr(p: Port, default: Int32): Int32 { if p.Int? then p.n else default }

  function CriticalOf(m: Mqtt): Critical {
    Critical(m.broker, PortOr(m.port, 0), m.user, m.password)
  }

  function Restored(c: Critical): Mqtt {
    Mqtt(c.broker, Int(c.port), c.user, c.password)
  }

  /** The port begin and reinit dial: the low 16 bits of what was read. */
  function DialPort(p: Port): nat { PortOr(p, DEFAULT_PORT) % 0x1_0000 }

  /** The port a session is compared with, as an unsigned word. */
  function ConfigPort(p: Port): nat { PortOr(p, DEFAULT_PORT) % WORD }

  function Digits(n: int): nat
    decreases if n < 0 then 1 - n else n
  {
    if n < 0 then 1 + Digits(-n) else if n < 10 then 1 else 1 + Digits(n / 10)
  }

  function Escaped(s: string): nat {
    if s == [] then 0 else EscapeCost(s[0] as int) + Escaped(s[1..])
  }

  /** The snapshot text fits its buffer. */
  predicate Fits(c: Critical) {
    |"{\"broker\":\"\",\"port\":,\"user\":\"\",\"password\":\"\"}"|
    + Escaped(c.broker) + Digits(c.port) + Escaped(c.user) + Escaped(c.password) < LG_MAX_LEN
  }

  // ---- Policy ----

  predicate RollbackShould(lg: Option<Critical>, haveLg: bool, rbCfg: Option<Critical>, cur: Critical) {
    haveLg && lg.Some? && rbCfg.Some? && cur == rbCfg.value && cur != lg.value
  }

  predicate SnapshotProven(cfgHost: string, cfgPort: nat, liveHost: string, livePort: nat) {
    liveHost != "" && cfgPort == livePort && cfgHost == liveHost
  }

  predicate DefragRebootDue(retryCount: nat, resolved: bool, rc: int, maxAllocHeap: nat, halted: bool) {
    retryCount >= 3 && resolved && rc == CONNECT_FAILED && maxAllocHeap < DEFRAG_HEAP && !halted
  }

  // ---- Transitions ----

  datatype Nvs = Nvs(count: nat, lgSet: bool, lg: Option<Critical>, rbCfg: Option<Critical>)

  /** max and after are mqtt.max_exhaust_reboots and mqtt.reboot_after_fails, one byte each. */
  datatype Device = Device(
    file: Mqtt, live: Mqtt, host: string, port: nat, nvs: Nvs,
    retry: nat, halted: bool, up: bool, max: nat, after: nat)

  datatype FailEnv = FailEnv(resolved: bool, rc: int, heap: nat, aged: bool, bumpLands: bool, rbLands: bool)

  datatype OkEnv = OkEnv(clearLands: bool, rbClearLands: bool, lgLands: bool, lgSetLands: bool)

  datatype BootEnv = BootEnv(nvs: bool, save: bool, clearLands: bool, rbClearLands: bool)

  function SnapshotGood(d: Device, e: OkEnv): Device {
    var cur := CriticalOf(d.live);
    if !SnapshotProven(d.live.broker, ConfigPort(d.live.port), d.host, d.port) || !Fits(cur) then d
    else if d.nvs.lg == Some(cur) then d
    else d.(nvs := d.nvs.(lg := if e.lgLands then Some(cur) else d.nvs.lg, lgSet := e.lgSetLands || d.nvs.lgSet))
  }

  function ConnectOk(d: Device, e: OkEnv): Device {
    var n := d.nvs.(count := if e.clearLands then 0 else d.nvs.count,
                    rbCfg := if e.rbClearLands then None else d.nvs.rbCfg);
    SnapshotGood(d.(retry := 0, halted := false, nvs := n), e)
  }

  function StoredCount(d: Device, e: FailEnv): nat { if e.aged then 0 else d.nvs.count }

  function Bump(d: Device, e: FailEnv): Device {
    if e.bumpLands then d.(nvs := d.nvs.(count := StoredCount(d, e) + 1)) else d
  }

  function NoteFailing(d: Device, e: FailEnv): Device {
    if Fits(CriticalOf(d.live)) && e.rbLands then d.(nvs := d.nvs.(rbCfg := Some(CriticalOf(d.live)))) else d
  }

  /** The exhaustion path: restart while the budget lasts, then halt. */
  function Exhaust(d: Device, e: FailEnv): Device {
    if d.retry < d.after || d.halted then d
    else if StoredCount(d, e) < d.max then Bump(NoteFailing(d, e), e).(up := false)
    else d.(halted := true)
  }

  function ConnectFail(d: Device, e: FailEnv): Device {
    var d1 := d.(retry := (d.retry + 1) % 0x100);
    if DefragRebootDue(d1.retry, e.resolved, e.rc, e.heap, d1.halted) && StoredCount(d1, e) < d1.max
    then Bump(d1, e).(up := false)
    else Exhaust(d1, e)
  }

  /** rollbackIfUncommitted, over the file just loaded. */
  function RollBack(d: Device, e: BootEnv): Device {
    var cur := CriticalOf(d.live);
    var lg := if d.nvs.lgSet then d.nvs.lg else None;
    if !e.nvs || !Fits(cur) || !RollbackShould(lg, d.nvs.lgSet, d.nvs.rbCfg, cur) then d
    else
      var live := Restored(d.nvs.lg.value);
      if e.save then
        d.(live := live, file := live,
           nvs := d.nvs.(count := if e.clearLands then 0 else d.nvs.count,
                         rbCfg := if e.rbClearLands then None else d.nvs.rbCfg))
      else d.(live := live)
  }

  function AdoptBroker(d: Device): Device {
    if |d.live.broker| < HOST_CAP then d.(host := d.live.broker, port := DialPort(d.live.port)) else d
  }

  function Boot(d: Device, e: BootEnv): Device {
    var d1 := RollBack(d.(live := d.file, host := "", port := 0, retry := 0, halted := false, up := true), e);
    if d1.live.broker == "" then d1 else AdoptBroker(d1)
  }

  // ---- The same, in the source's form ----

  class Client {
    var file: Mqtt
    var live: Mqtt
    var brokerHost: string
    var brokerPort: nat
    var nvs: Nvs
    var retryCount: nat
    var rebootHalted: bool
    var up: bool
    const maxReboots: nat
    const rebootAfter: nat

    constructor (d: Device)
      ensures View() == d
    {
      file, live, brokerHost, brokerPort, nvs := d.file, d.live, d.host, d.port, d.nvs;
      retryCount, rebootHalted, up := d.retry, d.halted, d.up;
      maxReboots, rebootAfter := d.max, d.after;
    }

    function View(): (d: Device)
      reads this
    {
      Device(file, live, brokerHost, brokerPort, nvs, retryCount, rebootHalted, up, maxReboots, rebootAfter)
    }

    method SnapshotGoodConfig(e: OkEnv)
      modifies this`nvs
      ensures View() == SnapshotGood(old(View()), e)
    {
      if !SnapshotProven(live.broker, ConfigPort(live.port), brokerHost, brokerPort) { return; }
      var cur := CriticalOf(live);
      if !Fits(cur) { return; }
      if nvs.lg != Some(cur) {
        if e.lgLands { nvs := nvs.(lg := Some(cur)); }
        if e.lgSetLands { nvs := nvs.(lgSet := true); }
      }
    }

    method Connected(e: OkEnv)
      modifies this
      ensures View() == ConnectOk(old(View()), e)
    {
      retryCount := 0;
      rebootHalted := false;
      if nvs.count != 0 && e.clearLands { nvs := nvs.(count := 0); }
      if nvs.rbCfg.Some? && e.rbClearLands { nvs := nvs.(rbCfg := None); }
      SnapshotGoodConfig(e);
    }

    method RebootExhausted(e: FailEnv)
      modifies this
      ensures View() == Exhaust(old(View()), e)
    {
      if retryCount < rebootAfter || rebootHalted { return; }
      var count := if e.aged then 0 else nvs.count;
      if count < maxReboots {
        var failing := CriticalOf(live);
        if Fits(failing) && e.rbLands { nvs := nvs.(rbCfg := Some(failing)); }
        if e.bumpLands { nvs := nvs.(count := count + 1); }
        up := false;
      } else {
        rebootHalted := true;
      }
    }

    /** A failed connect; the device restarts itself when up is false afterwards. */
    method Failed(e: FailEnv)
      modifies this
      ensures View() == ConnectFail(old(View()), e)
    {
      retryCount := (retryCount + 1) % 0x100;
      if DefragRebootDue(retryCount, e.resolved, e.rc, e.heap, rebootHalted) {
        var count := if e.aged then 0 else nvs.count;
        if count < maxReboots {
          if e.bumpLands { nvs := nvs.(count := count + 1); }
          up := false;
          return;
        }
      }
      RebootExhausted(e);
    }

    method RollbackIfUncommitted(e: BootEnv)
      modifies this
      ensures View() == RollBack(old(View()), e)
    {
      if !e.nvs { return; }
      var lg := if nvs.lgSet then nvs.lg else None;
      var cur := CriticalOf(live);
      if !Fits(cur) { return; }
      if !RollbackShould(lg, nvs.lgSet, nvs.rbCfg, cur) { return; }
      live := Restored(lg.value);
      if e.save {
        file := live;
        if nvs.count != 0 && e.clearLands { nvs := nvs.(count := 0); }
        if nvs.rbCfg.Some? && e.rbClearLands { nvs := nvs.(rbCfg := None); }
      }
    }

    method Restart(e: BootEnv)
      modifies this
      ensures View() == Boot(old(View()), e)
    {
      live := file;
      brokerHost, brokerPort, retryCount, rebootHalted, up := "", 0, 0, false, true;
      RollbackIfUncommitted(e);
      if live.broker == "" { return; }
      if |live.broker| < HOST_CAP {
        brokerHost, brokerPort := live.broker, DialPort(live.port);
      }
    }
  }
}
