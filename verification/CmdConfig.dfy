/**
 cmd_config_policy.h: the scanner that decides whether a config push may be
 applied. Positions are offsets into the payload; a result is the offset just
 past what was scanned. The payload is a string of byte characters.
 */
module CmdConfig {
  import opened ByteStrings
  import opened Options

  const MAX_LEN: nat := 4096
  const MAX_DEPTH: nat := 8

  datatype Verdict = Ok | RefuseTls | RefuseShape | RefuseBroker

  predicate IsWs(c: char) { c == ' ' || c == '\t' || c == '\n' || c == '\r' }

  // ---- What the scanner computes, offset by offset ----

  function SkipWs(s: string, i: nat): (j: nat)
    requires i <= |s|
    ensures i <= j <= |s| && (j < |s| ==> !IsWs(s[j]))
    decreases |s| - i
  {
    if i < |s| && IsWs(s[i]) then SkipWs(s, i + 1) else i
  }

  function LiteralEnd(s: string, i: nat, lit: string): (r: Option<nat>)
    requires i <= |s|
    ensures r.Some? ==> r.value == i + |lit| <= |s|
    decreases |lit|
  {
    if lit == "" then Some(i)
    else if i < |s| && s[i] == lit[0] then LiteralEnd(s, i + 1, lit[1..])
    else None
  }

  /** From just past the opening quote to just past the closing one. */
  function BodyEnd(s: string, i: nat): (r: Option<nat>)
    requires i <= |s|
    ensures r.Some? ==> i < r.value <= |s|
    decreases |s| - i
  {
    if i == |s| then None
    else if s[i] == '\\' then (if i + 1 == |s| then None else BodyEnd(s, i + 2))
    else if s[i] == '\"' then Some(i + 1)
    else if s[i] < ' ' then None
    else BodyEnd(s, i + 1)
  }

  function StringEnd(s: string, i: nat): (r: Option<nat>)
    requires i <= |s|
    ensures r.Some? ==> i + 1 < r.value <= |s|
  {
    if i < |s| && s[i] == '\"' then BodyEnd(s, i + 1) else None
  }

  function DigitsEnd(s: string, i: nat): (j: nat)
    requires i <= |s|
    ensures i <= j <= |s| && (j < |s| ==> !IsDigit(s[j]))
    decreases |s| - i
  {
    if i < |s| && IsDigit(s[i]) then DigitsEnd(s, i + 1) else i
  }

  /** At least one digit. */
  function SomeDigitsEnd(s: string, i: nat): (r: Option<nat>)
    requires i <= |s|
    ensures r.Some? ==> i < r.value <= |s|
  {
    if i < |s| && IsDigit(s[i]) then Some(DigitsEnd(s, i)) else None
  }

  function WholeEnd(s: string, i: nat): (r: Option<nat>)
    requires i <= |s|
    ensures r.Some? ==> i < r.value <= |s|
  {
    if i < |s| && s[i] == '0' then Some(i + 1) else SomeDigitsEnd(s, i)
  }

  function FracEnd(s: string, i: nat): (r: Option<nat>)
    requires i <= |s|
    ensures r.Some? ==> i <= r.value <= |s|
  {
    if i < |s| && s[i] == '.' then SomeDigitsEnd(s, i + 1) else Some(i)
  }

  function ExpEnd(s: string, i: nat): (r: Option<nat>)
    requires i <= |s|
    ensures r.Some? ==> i <= r.value <= |s|
  {
    if i < |s| && (s[i] == 'e' || s[i] == 'E') then
      var j := if i + 1 < |s| && (s[i + 1] == '+' || s[i + 1] == '-') then i + 2 else i + 1;
      SomeDigitsEnd(s, j)
    else Some(i)
  }

  function TailEnd(s: string, i: nat): (r: Option<nat>)
    requires i <= |s|
    ensures r.Some? ==> i <= r.value <= |s|
  {
    var f := FracEnd(s, i);
    if f.None? then None else ExpEnd(s, f.value)
  }

  function NumberEnd(s: string, i: nat): (r: Option<nat>)
    requires i <= |s|
    ensures r.Some? ==> i < r.value <= |s|
  {
    var w := WholeEnd(s, if i < |s| && s[i] == '-' then i + 1 else i);
    if w.None? then None else TailEnd(s, w.value)
  }

  function Close(obj: bool): char { if obj then '}' else ']' }

  /** A key and its colon, from the opening quote to just past the colon. */
  function KeyEnd(s: string, i: nat): (r: Option<nat>)
    requires i <= |s|
    ensures r.Some? ==> i < r.value <= |s|
  {
    var e := StringEnd(s, i);
    if e.None? then None
    else
      var j := SkipWs(s, e.value);
      if j < |s| && s[j] == ':' then Some(j + 1) else None
  }

  /** What follows a member: another one at `next`, the close that ends at `next`, or neither. */
  datatype Tail = Stop | Again(next: nat) | Done(next: nat)

  function TailAt(s: string, e: nat, close: char): (t: Tail)
    requires e <= |s|
    ensures t.Again? ==> e < t.next < |s|
    ensures t.Done? ==> e < t.next <= |s|
  {
    var j := SkipWs(s, e);
    if j == |s| then Stop
    else if s[j] == ',' then (var k := SkipWs(s, j + 1); if k == |s| then Stop else Again(k))
    else if s[j] == close then Done(j + 1)
    else Stop
  }

  /** One member: a value, in an object behind its key. */
  function ItemEnd(s: string, i: nat, depth: nat, obj: bool): (r: Option<nat>)
    requires i <= |s|
    ensures r.Some? ==> i < r.value <= |s|
    decreases |s| - i, 3
  {
    var v := if obj then KeyEnd(s, i) else Some(i);
    if v.None? then None else ValueEnd(s, v.value, depth)
  }

  /** The members of a container that is not empty, from the first one past its close. */
  function ItemsEnd(s: string, i: nat, depth: nat, obj: bool): (r: Option<nat>)
    requires i <= |s|
    ensures r.Some? ==> i < r.value <= |s|
    decreases |s| - i, 4
  {
    var e := ItemEnd(s, i, depth, obj);
    if e.None? then None
    else match TailAt(s, e.value, Close(obj))
      case Stop => None
      case Again(next) => ItemsEnd(s, next, depth, obj)
      case Done(next) => Some(next)
  }

  function ContainerEnd(s: string, i: nat, depth: nat, obj: bool): (r: Option<nat>)
    requires i < |s|
    ensures r.Some? ==> i < r.value <= |s|
    decreases |s| - i, 0
  {
    if depth + 1 > MAX_DEPTH then None
    else
      var j := SkipWs(s, i + 1);
      if j == |s| then None
      else if s[j] == Close(obj) then Some(j + 1)
      else ItemsEnd(s, j, depth + 1, obj)
  }

  /** A value whose first character stands at i. */
  function ValueAt(s: string, i: nat, depth: nat): (r: Option<nat>)
    requires i < |s|
    ensures r.Some? ==> i < r.value <= |s|
    decreases |s| - i, 1
  {
    if s[i] == '\"' then StringEnd(s, i)
    else if s[i] == '{' then ContainerEnd(s, i, depth, true)
    else if s[i] == '[' then ContainerEnd(s, i, depth, false)
    else if s[i] == 't' then LiteralEnd(s, i, "true")
    else if s[i] == 'f' then LiteralEnd(s, i, "false")
    else if s[i] == 'n' then LiteralEnd(s, i, "null")
    else NumberEnd(s, i)
  }

  function ValueEnd(s: string, i: nat, depth: nat): (r: Option<nat>)
    requires i <= |s|
    ensures r.Some? ==> i < r.value <= |s|
    decreases |s| - i, 2
  {
    var j := SkipWs(s, i);
    if j == |s| then None else ValueAt(s, j, depth)
  }

  /** The body of the key scanned at i is this text, escapes unread. */
  predicate KeyIs(s: string, i: nat, lit: string)
    requires i <= |s|
  {
    var e := StringEnd(s, i);
    e.Some? && s[i + 1..e.value - 1] == lit
  }

  /** What was scanned, and whether it holds a broker that is not empty. */
  datatype Scanned = Bad | Scanned(end: nat, broker: bool)

  /** One member of the mqtt object. saw and found are what the members before said. */
  function MqttItem(s: string, i: nat, saw: bool, found: bool): (r: Scanned)
    requires i <= |s|
    ensures r.Scanned? ==> i < r.end <= |s|
  {
    var v := KeyEnd(s, i);
    if v.None? then Bad
    else if KeyIs(s, i, "broker") then
      var q := SkipWs(s, v.value);
      var e := StringEnd(s, q);
      if saw || e.None? then Bad else Scanned(e.value, e.value - q > 2)
    else
      var e := ValueEnd(s, v.value, 2);
      if e.None? then Bad else Scanned(e.value, found)
  }

  function MqttItems(s: string, i: nat, saw: bool, found: bool): (r: Scanned)
    requires i <= |s|
    ensures r.Scanned? ==> i < r.end <= |s|
    decreases |s| - i
  {
    var m := MqttItem(s, i, saw, found);
    if m.Bad? then Bad
    else match TailAt(s, m.end, '}')
      case Stop => Bad
      case Again(next) => MqttItems(s, next, saw || KeyIs(s, i, "broker"), m.broker)
      case Done(next) => Scanned(next, m.broker)
  }

  function MqttObject(s: string, i: nat): (r: Scanned)
    requires i < |s|
    ensures r.Scanned? ==> i < r.end <= |s|
  {
    var j := SkipWs(s, i + 1);
    if j == |s| then Bad
    else if s[j] == '}' then Scanned(j + 1, false)
    else MqttItems(s, j, false, false)
  }

  function TopItem(s: string, i: nat, saw: bool, found: bool): (r: Scanned)
    requires i <= |s|
    ensures r.Scanned? ==> i < r.end <= |s|
  {
    var v := KeyEnd(s, i);
    if v.None? then Bad
    else if KeyIs(s, i, "mqtt") then
      var q := SkipWs(s, v.value);
      if saw || q == |s| || s[q] != '{' then Bad else MqttObject(s, q)
    else
      var e := ValueEnd(s, v.value, 1);
      if e.None? then Bad else Scanned(e.value, found)
  }

  function TopItems(s: string, i: nat, saw: bool, found: bool): (r: Scanned)
    requires i <= |s|
    ensures r.Scanned? ==> i < r.end <= |s|
    decreases |s| - i
  {
    var m := TopItem(s, i, saw, found);
    if m.Bad? then Bad
    else match TailAt(s, m.end, '}')
      case Stop => Bad
      case Again(next) => TopItems(s, next, saw || KeyIs(s, i, "mqtt"), m.broker)
      case Done(next) => Scanned(next, m.broker)
  }

  function TopObject(s: string, i: nat): (r: Scanned)
    requires i < |s|
    ensures r.Scanned? ==> i < r.end <= |s|
  {
    var j := SkipWs(s, i + 1);
    if j == |s| then Bad
    else if s[j] == '}' then Scanned(j + 1, false)
    else TopItems(s, j, false, false)
  }

  /** The whole payload: one object and nothing but whitespace around it. */
  function ScanBroker(s: string): Scanned {
    var i := SkipWs(s, 0);
    if i == |s| || s[i] != '{' then Bad
    else
      var r := TopObject(s, i);
      if r.Scanned? && SkipWs(s, r.end) == |s| then r else Bad
  }

  function VerdictOf(tlsVerified: bool, payload: string): Verdict {
    if payload == "" || |payload| >= MAX_LEN then RefuseShape
    else if !tlsVerified then RefuseTls
    else
      var r := ScanBroker(payload);
      if r.Bad? then RefuseShape else if r.broker then Ok else RefuseBroker
  }
}
