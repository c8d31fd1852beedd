/** The scanner of cmd_config_policy.h in its own form: one cursor and one depth counter moved by every call. */
module CmdConfigScan {
  import opened ByteStrings
  import opened Options
  import opened CmdConfig

  class Scanner {
    const s: string
    var i: nat
    var depth: nat

    constructor (payload: string)
      ensures s == payload && i == 0 && depth == 0
    {
      s, i, depth := payload, 0, 0;
    }

    method SkipBlank() returns (more: bool)
      requires i <= |s|
      modifies this`i
      ensures i == SkipWs(s, old(i)) && more == (i < |s|)
    {
      while i < |s| && IsWs(s[i])
        invariant old(i) <= i <= |s| && SkipWs(s, i) == SkipWs(s, old(i))
      {
        i := i + 1;
      }
      more := i < |s|;
    }

    method Literal(lit: string) returns (ok: bool)
      requires i <= |s|
      modifies this`i
      ensures i <= |s| && ok == LiteralEnd(s, old(i), lit).Some?
      ensures ok ==> i == LiteralEnd(s, old(i), lit).value
    {
      var k := 0;
      while k < |lit|
        invariant k <= |lit| && i <= |s|
        invariant LiteralEnd(s, i, lit[k..]) == LiteralEnd(s, old(i), lit)
      {
        assert lit[k..][0] == lit[k] && lit[k..][1..] == lit[k + 1..];
        if i >= |s| || s[i] != lit[k] { return false; }
        i := i + 1;
        k := k + 1;
      }
      return true;
    }

    /** chars is the unescaped length: zero exactly for an empty body. */
    method String() returns (ok: bool, chars: nat)
      requires i <= |s|
      modifies this`i
      ensures i <= |s| && ok == StringEnd(s, old(i)).Some?
      ensures ok ==> i == StringEnd(s, old(i)).value && (chars > 0 <==> i - old(i) > 2)
    {
      chars := 0;
      if i >= |s| || s[i] != '\"' { return false, 0; }
      i := i + 1;
      while i < |s|
        invariant old(i) + 1 <= i <= |s|
        invariant BodyEnd(s, i) == BodyEnd(s, old(i) + 1)
        invariant chars > 0 <==> i > old(i) + 1
      {
        var c := s[i];
        i := i + 1;
        if c == '\\' {
          if i >= |s| { return false, chars; }
          i := i + 1;
          chars := chars + 1;
          continue;
        }
        if c == '\"' { return true, chars; }
        if c < ' ' { return false, chars; }
        chars := chars + 1;
      }
      return false, chars;
    }

    method KeyMatches(from: nat, to: nat, lit: string) returns (same: bool)
      requires from <= to <= |s|
      ensures same == (s[from..to] == lit)
    {
      var f, k := from, 0;
      while k < |lit|
        invariant k <= |lit| && from <= f <= to && f == from + k
        invariant forall j :: 0 <= j < k ==> s[from + j] == lit[j]
      {
        if f >= to || s[f] != lit[k] {
          assert f < to ==> s[from..to][k] == s[f];
          return false;
        }
        f := f + 1;
        k := k + 1;
      }
      return f == to;
    }

    method Digits()
      requires i <= |s|
      modifies this`i
      ensures i == DigitsEnd(s, old(i))
    {
      while i < |s| && IsDigit(s[i])
        invariant old(i) <= i <= |s| && DigitsEnd(s, i) == DigitsEnd(s, old(i))
      {
        i := i + 1;
      }
    }

    method Fraction() returns (ok: bool)
      requires i <= |s|
      modifies this`i
      ensures i <= |s| && ok == FracEnd(s, old(i)).Some?
      ensures ok ==> i == FracEnd(s, old(i)).value
    {
      if i < |s| && s[i] == '.' {
        i := i + 1;
        if i >= |s| || !IsDigit(s[i]) { return false; }
        Digits();
      }
      return true;
    }

    method Exponent() returns (ok: bool)
      requires i <= |s|
      modifies this`i
      ensures i <= |s| && ok == ExpEnd(s, old(i)).Some?
      ensures ok ==> i == ExpEnd(s, old(i)).value
    {
      if i < |s| && (s[i] == 'e' || s[i] == 'E') {
        i := i + 1;
        if i < |s| && (s[i] == '+' || s[i] == '-') { i := i + 1; }
        if i >= |s| || !IsDigit(s[i]) { return false; }
        Digits();
      }
      return true;
    }

    method Number() returns (ok: bool)
      requires i <= |s|
      modifies this`i
      ensures i <= |s| && ok == NumberEnd(s, old(i)).Some?
      ensures ok ==> i == NumberEnd(s, old(i)).value
    {
      if i < |s| && s[i] == '-' { i := i + 1; }
      if i >= |s| || !IsDigit(s[i]) { return false; }
      if s[i] == '0' { i := i + 1; } else { Digits(); }
      ok := Fraction();
      if !ok { return false; }
      ok := Exponent();
    }

    /** A key with its colon. */
    method Key() returns (ok: bool, from: nat, to: nat)
      requires i <= |s|
      modifies this`i
      ensures i <= |s| && ok == KeyEnd(s, old(i)).Some?
      ensures ok ==> i == KeyEnd(s, old(i)).value && from <= to <= |s|
      ensures ok ==> forall lit :: KeyIs(s, old(i), lit) <==> s[from..to] == lit
    {
      from, to := i + 1, 0;
      if i >= |s| || s[i] != '\"' { return false, 0, 0; }
      var closed, chars := String();
      if !closed { return false, 0, 0; }
      to := i - 1;
      var more := SkipBlank();
      if !more || s[i] != ':' { return false, 0, 0; }
      i := i + 1;
      return true, from, to;
    }

    /** Past a member: true for another one; `closed` when the container ended. */
    method Next(close: char) returns (again: bool, closed: bool)
      requires i <= |s|
      modifies this`i
      ensures i <= |s|
      ensures again ==> !closed && TailAt(s, old(i), close) == Again(i)
      ensures closed ==> TailAt(s, old(i), close) == Done(i)
      ensures !again && !closed ==> TailAt(s, old(i), close) == Stop
    {
      var more := SkipBlank();
      if !more { return false, false; }
      if s[i] == ',' {
        i := i + 1;
        more := SkipBlank();
        return more, false;
      }
      if s[i] == close {
        i := i + 1;
        return false, true;
      }
      return false, false;
    }

    method Item(obj: bool) returns (ok: bool)
      requires i <= |s| && depth <= MAX_DEPTH
      modifies this
      ensures i <= |s| && ok == ItemEnd(s, old(i), old(depth), obj).Some?
      ensures ok ==> i == ItemEnd(s, old(i), old(depth), obj).value && depth == old(depth)
      decreases |s| - i, 2
    {
      if obj {
        var key, from, to := Key();
        if !key { return false; }
      }
      ok := Value();
    }

    /** The cursor is at the opening character; the depth comes back on success. */
    method Container(obj: bool) returns (ok: bool)
      requires i < |s| && depth <= MAX_DEPTH
      modifies this
      ensures i <= |s| && ok == ContainerEnd(s, old(i), old(depth), obj).Some?
      ensures ok ==> i == ContainerEnd(s, old(i), old(depth), obj).value && depth == old(depth)
      decreases |s| - i, 0
    {
      depth := depth + 1;
      if depth > MAX_DEPTH { return false; }
      i := i + 1;
      var more := SkipBlank();
      if !more { return false; }
      if s[i] == Close(obj) {
        i := i + 1;
        depth := depth - 1;
        return true;
      }
      ghost var first := i;
      while true
        invariant old(i) < first <= i < |s| && depth == old(depth) + 1 <= MAX_DEPTH
        invariant ItemsEnd(s, i, depth, obj) == ItemsEnd(s, first, depth, obj)
        decreases |s| - i
      {
        var item := Item(obj);
        if !item { return false; }
        var again, closed := Next(Close(obj));
        if again { continue; }
        if closed { depth := depth - 1; }
        return closed;
      }
    }

    method Value() returns (ok: bool)
      requires i <= |s| && depth <= MAX_DEPTH
      modifies this
      ensures i <= |s| && ok == ValueEnd(s, old(i), old(depth)).Some?
      ensures ok ==> i == ValueEnd(s, old(i), old(depth)).value && depth == old(depth)
      decreases |s| - i, 1
    {
      var more := SkipBlank();
      if !more { return false; }
      var c := s[i];
      if c == '\"' {
        var chars;
        ok, chars := String();
      }
      else if c == '{' { ok := Container(true); }
      else if c == '[' { ok := Container(false); }
      else if c == 't' { ok := Literal("true"); }
      else if c == 'f' { ok := Literal("false"); }
      else if c == 'n' { ok := Literal("null"); }
      else { ok := Number(); }
    }

    method MqttMember(saw: bool, found: bool) returns (ok: bool, isBroker: bool, found': bool)
      requires i <= |s| && depth == 2
      modifies this
      ensures i <= |s| && ok == MqttItem(s, old(i), saw, found).Scanned?
      ensures ok ==> depth == 2 && MqttItem(s, old(i), saw, found) == Scanned(i, found')
      ensures ok ==> isBroker == KeyIs(s, old(i), "broker")
    {
      var key, from, to := Key();
      if !key { return false, false, false; }
      isBroker := KeyMatches(from, to, "broker");
      found' := found;
      if isBroker {
        if saw { return false, false, false; }
        var more := SkipBlank();
        if !more || s[i] != '\"' { return false, false, false; }
        var chars;
        ok, chars := String();
        found' := chars > 0;
      } else {
        ok := Value();
      }
    }

    method Mqtt() returns (ok: bool, broker: bool)
      requires i < |s| && depth == 1
      modifies this
      ensures i <= |s| && ok == MqttObject(s, old(i)).Scanned?
      ensures ok ==> MqttObject(s, old(i)) == Scanned(i, broker) && depth == 1
    {
      depth := depth + 1;
      i := i + 1;
      var more := SkipBlank();
      if !more { return false, false; }
      if s[i] == '}' {
        i := i + 1;
        depth := depth - 1;
        return true, false;
      }
      var found, saw := false, false;
      ghost var first := i;
      while true
        invariant old(i) < first <= i < |s| && depth == 2
        invariant MqttItems(s, i, saw, found) == MqttItems(s, first, false, false)
        decreases |s| - i
      {
        var member, isBroker, found' := MqttMember(saw, found);
        if !member { return false, false; }
        saw, found := saw || isBroker, found';
        var again, closed := Next('}');
        if again { continue; }
        if closed { depth := depth - 1; }
        return closed, found;
      }
    }

    method TopMember(saw: bool, found: bool) returns (ok: bool, isMqtt: bool, found': bool)
      requires i <= |s| && depth == 1
      modifies this
      ensures i <= |s| && ok == TopItem(s, old(i), saw, found).Scanned?
      ensures ok ==> depth == 1 && TopItem(s, old(i), saw, found) == Scanned(i, found')
      ensures ok ==> isMqtt == KeyIs(s, old(i), "mqtt")
    {
      var key, from, to := Key();
      if !key { return false, false, false; }
      isMqtt := KeyMatches(from, to, "mqtt");
      found' := found;
      if isMqtt {
        if saw { return false, false, false; }
        var more := SkipBlank();
        if !more || s[i] != '{' { return false, false, false; }
        ok, found' := Mqtt();
      } else {
        ok := Value();
      }
    }

    /** The top-level object, its brace at the cursor. */
    method Top() returns (ok: bool, broker: bool)
      requires i < |s| && depth == 0
      modifies this
      ensures i <= |s| && ok == TopObject(s, old(i)).Scanned?
      ensures ok ==> TopObject(s, old(i)) == Scanned(i, broker)
    {
      depth := 1;
      i := i + 1;
      var more := SkipBlank();
      if !more { return false, false; }
      if s[i] == '}' {
        i := i + 1;
        return true, false;
      }
      broker := false;
      var sawMqtt := false;
      ghost var first := i;
      while true
        invariant old(i) < first <= i < |s| && depth == 1
        invariant TopItems(s, i, sawMqtt, broker) == TopItems(s, first, false, false)
        decreases |s| - i
      {
        var member, isMqtt, found := TopMember(sawMqtt, broker);
        if !member { return false, false; }
        sawMqtt, broker := sawMqtt || isMqtt, found;
        var again, closed := Next('}');
        if again { continue; }
        return closed, broker;
      }
    }

    method Broker() returns (ok: bool, broker: bool)
      requires i == 0 && depth == 0
      modifies this
      ensures i <= |s| && ok == ScanBroker(s).Scanned?
      ensures ok ==> broker == ScanBroker(s).broker
    {
      var more := SkipBlank();
      if !more || s[i] != '{' { return false, false; }
      ok, broker := Top();
      if !ok { return; }
      more := SkipBlank();
      ok := i == |s|;
    }
  }

  /** cmdConfigVerdict. */
  method Decide(tlsVerified: bool, payload: string) returns (v: Verdict)
    ensures v == VerdictOf(tlsVerified, payload)
  {
    if payload == "" || |payload| >= MAX_LEN { return RefuseShape; }
    if !tlsVerified { return RefuseTls; }
    var scan := new Scanner(payload);
    var ok, broker := scan.Broker();
    if !ok { return RefuseShape; }
    if !broker { return RefuseBroker; }
    return Ok;
  }
}
