/** meshtastic_frame.h: the codec over byte buffers. */
module MeshCodec {
  import opened Options
  import opened ByteStrings
  import opened Mesh

  method PutLE32(out: array<Byte>, at: nat, v: Word)
    requires at + 4 <= out.Length
    modifies out
    ensures out[at..at + 4] == LE32(v)
    ensures forall k :: 0 <= k < out.Length && !(at <= k < at + 4) ==> out[k] == old(out[k])
  {
    out[at] := v % 0x100;
    out[at + 1] := v / 0x100 % 0x100;
    out[at + 2] := v / 0x1_0000 % 0x100;
    out[at + 3] := v / 0x100_0000;
  }

  method HeaderPack(h: Header, out: array<Byte>)
    requires HEADER_LEN <= out.Length
    modifies out
    ensures out[..HEADER_LEN] == Pack(h)
    ensures out[HEADER_LEN..] == old(out[HEADER_LEN..])
  {
    PutLE32(out, 0, h.dest);
    PutLE32(out, 4, h.src);
    PutLE32(out, 8, h.packetId);
    assert out[0..4] == LE32(h.dest) && out[4..8] == LE32(h.src) && out[8..12] == LE32(h.packetId);
    out[12] := Flags(h);
    out[13] := h.channelHash;
    out[14] := h.nextHop;
    out[15] := h.relayNode;
    assert out[..16] == out[0..4] + out[4..8] + out[8..12] + [Flags(h), h.channelHash, h.nextHop, h.relayNode];
    assert out[0..4] == LE32(h.dest) && out[4..8] == LE32(h.src) && out[8..12] == LE32(h.packetId);
  }

  /** Writes v at `at`; 0 when the buffer ends first. */
  method VarintWrite(v: Word, out: array<Byte>, at: nat) returns (n: nat)
    requires at <= out.Length
    modifies out
    ensures n == (if at + |Varint(v)| <= out.Length then |Varint(v)| else 0)
    ensures n > 0 ==> out[at..at + n] == Varint(v)
    ensures forall k :: 0 <= k < at ==> out[k] == old(out[k])
    ensures n > 0 ==> forall k :: at + n <= k < out.Length ==> out[k] == old(out[k])
  {
    n := 0;
    var rest := v;
    while true
      invariant at + n <= out.Length
      invariant out[at..at + n] + Varint(rest) == Varint(v)
      invariant forall k :: 0 <= k < at || at + n <= k < out.Length ==> out[k] == old(out[k])
      decreases rest
    {
      if at + n >= out.Length {
        assert |Varint(v)| == n + |Varint(rest)|;
        return 0;
      }
      ghost var done := out[at..at + n];
      var b := rest % 128;
      var more := rest / 128;
      out[at + n] := if more > 0 then b + 128 else b;
      n := n + 1;
      assert out[at..at + n] == done + [out[at + n - 1]];
      if more == 0 { return; }
      rest := more;
    }
  }

  lemma AddReduced(acc: nat, more: nat)
    ensures (acc % WORD + more) % WORD == (acc + more) % WORD
  {}

  /** The number so far and the number read on from here make the whole one. */
  function Joined(acc: nat, scale: nat, rest: Option<Num>): Option<Num> {
    if rest.None? then None else Some(Num(acc + scale * rest.value.value, rest.value.next))
  }

  lemma JoinedTurn(p: Bytes, i: nat, n: nat, acc: nat, scale: nat)
    requires i < |p| && n < 5
    ensures var low := p[i] % 128;
            Joined(acc, scale, ReadFrom(p, i, n)) ==
              if p[i] < 128 then Some(Num(acc + scale * low, i + 1))
              else Joined(acc + scale * low, scale * 128, ReadFrom(p, i + 1, n + 1))
  {
    var low := p[i] % 128;
    var rest := ReadFrom(p, i + 1, n + 1);
    if p[i] >= 128 && rest.Some? {
      var x := rest.value.value;
      assert scale * (low + 128 * x) == scale * low + scale * 128 * x;
    }
  }

  method VarintRead(p: Bytes, from: nat) returns (v: nat, i: nat, ok: bool)
    requires from <= |p|
    ensures ok == Read(p, from).Some?
    ensures ok ==> Read(p, from) == Some(Num(v, i))
  {
    var n, scale: nat := 0, 1;
    v, i := 0, from;
    ghost var acc: nat := 0;
    while i < |p| && n < 5
      invariant from <= i <= |p| && v == acc % WORD
      invariant ReadFrom(p, from, 0) == Joined(acc, scale, ReadFrom(p, i, n))
    {
      JoinedTurn(p, i, n, acc, scale);
      var b := p[i];
      var part: nat := scale * (b % 128);
      AddReduced(acc, part);
      v := (v + part) % WORD;
      acc := acc + part;
      i := i + 1;
      if b < 128 { return v, i, true; }
      scale := scale * 128;
      n := n + 1;
    }
    return 0, i, false;
  }

  /** memcpy. */
  method Copy(out: array<Byte>, at: nat, src: Bytes)
    requires at + |src| <= out.Length
    modifies out
    ensures out[at..at + |src|] == src
    ensures forall k :: 0 <= k < at || at + |src| <= k < out.Length ==> out[k] == old(out[k])
  {
    for k := 0 to |src|
      invariant forall j :: 0 <= j < k ==> out[at + j] == src[j]
      invariant forall j :: 0 <= j < at || at + |src| <= j < out.Length ==> out[j] == old(out[j])
    {
      out[at + k] := src[k];
    }
  }

  /** A tag byte and its number at `at`; returns the offset behind them, or 0. */
  method PutTagged(tag: Byte, v: Word, out: array<Byte>, at: nat) returns (n: nat)
    requires at <= out.Length
    modifies out
    ensures n == (if at + 1 + |Varint(v)| <= out.Length then at + 1 + |Varint(v)| else 0)
    ensures n > 0 ==> out[at..n] == [tag] + Varint(v)
    ensures forall k :: 0 <= k < at ==> out[k] == old(out[k])
    ensures n > 0 ==> forall k :: n <= k < out.Length ==> out[k] == old(out[k])
  {
    if at >= out.Length { return 0; }
    out[at] := tag;
    var w := VarintWrite(v, out, at + 1);
    if w == 0 { return 0; }
    n := at + 1 + w;
    assert out[at..n] == [out[at]] + out[at + 1..n];
  }

  /** What stands before the payload. */
  function Head(port: Word, len: nat): Bytes { [0x08] + Varint(port) + [0x12] + Varint(len % WORD) }

  method PutHead(port: Word, len: nat, out: array<Byte>) returns (n: nat)
    modifies out
    ensures n == (if |Head(port, len)| <= out.Length then |Head(port, len)| else 0)
    ensures n > 0 ==> out[..n] == Head(port, len)
    ensures n > 0 ==> forall k :: n <= k < out.Length ==> out[k] == old(out[k])
  {
    n := PutTagged(0x08, port, out, 0);
    if n == 0 { return; }
    ghost var first := out[0..n];
    var m := PutTagged(0x12, len % WORD, out, n);
    if m == 0 { return 0; }
    assert out[..m] == first + out[n..m];
    n := m;
  }

  /** The Data message; 0 when the buffer ends first. */
  method DataEncode(port: Word, payload: Bytes, out: array<Byte>) returns (n: nat)
    modifies out
    ensures n == (if |EncodeData(port, payload)| <= out.Length then |EncodeData(port, payload)| else 0)
    ensures n > 0 ==> out[..n] == EncodeData(port, payload)
    ensures n > 0 ==> forall k :: n <= k < out.Length ==> out[k] == old(out[k])
  {
    n := PutHead(port, |payload|, out);
    if n == 0 || n + |payload| > out.Length { return 0; }
    ghost var head := out[..n];
    Copy(out, n, payload);
    assert out[..n + |payload|] == head + payload;
    n := n + |payload|;
  }

  /** The unknown fields, by wire type. */
  method SkipField(buf: Bytes, at: nat, wire: nat) returns (i: nat, ok: bool)
    requires at <= |buf|
    ensures ok == Skip(buf, at, wire).Some?
    ensures ok ==> Skip(buf, at, wire) == Some(i)
  {
    i := at;
    match wire
    case 0 =>
      var _, next, got := VarintRead(buf, i);
      return next, got;
    case 1 =>
      if i + 8 > |buf| { return i, false; }
      return i + 8, true;
    case 2 =>
      var l, next, got := VarintRead(buf, i);
      if !got || l > |buf| - next { return next, false; }
      return next + l, true;
    case 5 =>
      if i + 4 > |buf| { return i, false; }
      return i + 4, true;
    case _ => return i, false;
  }

  method DataDecode(buf: Bytes) returns (ok: bool, port: nat, view: View)
    ensures ok == Decode(buf).Some?
    ensures ok ==> Decode(buf) == Some(Decoded(port, view))
  {
    port, view := 0, View(0, 0);
    var i, seen := 0, false;
    while i < |buf|
      invariant i <= |buf| && (seen ==> view.start + view.len <= |buf|)
      invariant Decode(buf) == DecodeFrom(buf, Scan(i, port, if seen then Some(view) else None))
    {
      var tag := buf[i];
      i := i + 1;
      var field, wire := tag / 8, tag % 8;
      if field == 1 && wire == 0 {
        var v, next, got := VarintRead(buf, i);
        if !got { return false, port, view; }
        port, i := v, next;
      } else if field == 2 && wire == 2 {
        var l, next, got := VarintRead(buf, i);
        if !got || l > |buf| - next { return false, port, view; }
        view, seen := View(next, l), true;
        i := next + l;
      } else {
        var next, got := SkipField(buf, i, wire);
        if !got { return false, port, view; }
        i := next;
      }
    }
    ok := seen;
  }

  method FrameBuild(h: Header, body: Bytes, out: array<Byte>) returns (n: nat)
    modifies out
    ensures n == (if |Frame(h, body)| <= out.Length then |Frame(h, body)| else 0)
    ensures n > 0 ==> out[..n] == Frame(h, body)
    ensures out[n..] == old(out[n..])
  {
    if HEADER_LEN + |body| > out.Length { return 0; }
    HeaderPack(h, out);
    ghost var packed := out[..];
    Copy(out, HEADER_LEN, body);
    n := HEADER_LEN + |body|;
    assert out[..n] == packed[..HEADER_LEN] + body;
    assert out[n..] == packed[HEADER_LEN..][|body|..] == old(out[HEADER_LEN..])[|body|..] == old(out[n..]);
  }
}
