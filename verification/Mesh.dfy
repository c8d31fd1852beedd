/**
 meshtastic_frame.h: the packet header, base-128 numbers and the Data message,
 as values. Bit fields are written in arithmetic.
 */
module Mesh {
  import opened Options
  import opened ByteStrings

  const HEADER_LEN: nat := 16

  type Word = w: int | 0 <= w < 0x1_0000_0000

  /** The text stands in the buffer at i. */
  predicate Here(buf: Bytes, i: nat, t: Bytes) {
    i + |t| <= |buf| && forall k :: 0 <= k < |t| ==> buf[i + k] == t[k]
  }

  // ---- Header ----

  datatype Header = Header(
    dest: Word, src: Word, packetId: Word, hopLimit: Byte, wantAck: bool, viaMqtt: bool, hopStart: Byte,
    channelHash: Byte, nextHop: Byte, relayNode: Byte)

  function LE32(v: Word): Bytes {
    [v % 0x100, v / 0x100 % 0x100, v / 0x1_0000 % 0x100, v / 0x100_0000]
  }

  function GetLE32(b: Bytes, i: nat): Word
    requires i + 4 <= |b|
  {
    var b0: int, b1: int, b2: int, b3: int := b[i], b[i + 1], b[i + 2], b[i + 3];
    b0 + b1 * 0x100 + b2 * 0x1_0000 + b3 * 0x100_0000
  }

  function Flags(h: Header): Byte {
    h.hopLimit % 8 + (if h.wantAck then 8 else 0) + (if h.viaMqtt then 16 else 0) + h.hopStart % 8 * 32
  }

  function Pack(h: Header): Bytes {
    LE32(h.dest) + LE32(h.src) + LE32(h.packetId) + [Flags(h), h.channelHash, h.nextHop, h.relayNode]
  }

  function Parse(buf: Bytes): Option<Header> {
    if |buf| < HEADER_LEN then None
    else
      var f := buf[12];
      Some(Header(GetLE32(buf, 0), GetLE32(buf, 4), GetLE32(buf, 8), f % 8, f / 8 % 2 == 1, f / 16 % 2 == 1, f / 32,
                  buf[13], buf[14], buf[15]))
  }

  lemma WordOfBytes(v: Word)
    ensures GetLE32(LE32(v), 0) == v
  {
    var a: int, b: int, c: int := v / 0x100, v / 0x1_0000, v / 0x100_0000;
    assert b == a / 0x100 && c == b / 0x100;
  }

  lemma BytesOfWord(b: Bytes, i: nat)
    requires i + 4 <= |b|
    ensures LE32(GetLE32(b, i)) == b[i..i + 4]
  {
    var v := GetLE32(b, i);
    var b0: int, b1: int, b2: int, b3: int := b[i], b[i + 1], b[i + 2], b[i + 3];
    assert v / 0x100 == b1 + b2 * 0x100 + b3 * 0x1_0000;
    assert v / 0x1_0000 == b2 + b3 * 0x100;
  }

  lemma FlagsParts(h: Header)
    ensures var f := Flags(h);
            f % 8 == h.hopLimit % 8 && (f / 8 % 2 == 1 <==> h.wantAck) && (f / 16 % 2 == 1 <==> h.viaMqtt)
            && f / 32 == h.hopStart % 8
  {
    var low, start := h.hopLimit % 8, h.hopStart % 8;
    var ack, via := if h.wantAck then 1 else 0, if h.viaMqtt then 1 else 0;
    var f: int := low + 8 * ack + 16 * via + 32 * start;
    assert f / 32 == start && f / 16 == 2 * start + via && f / 8 == 2 * (2 * start + via) + ack;
  }

  lemma FlagsWhole(f: Byte)
    ensures f % 8 + (if f / 8 % 2 == 1 then 8 else 0) + (if f / 16 % 2 == 1 then 16 else 0) + f / 32 % 8 * 32 == f
  {}

  /** What a packed header reads back as: hop counts lose all but three bits. */
  lemma ParsePack(h: Header, body: Bytes)
    ensures Parse(Pack(h) + body) == Some(h.(hopLimit := h.hopLimit % 8, hopStart := h.hopStart % 8))
  {
    var b := Pack(h) + body;
    assert GetLE32(b, 0) == GetLE32(LE32(h.dest), 0);
    assert GetLE32(b, 4) == GetLE32(LE32(h.src), 0);
    assert GetLE32(b, 8) == GetLE32(LE32(h.packetId), 0);
    WordOfBytes(h.dest);
    WordOfBytes(h.src);
    WordOfBytes(h.packetId);
    FlagsParts(h);
  }

  /** Pack then parse is the identity exactly on headers whose hop counts fit three bits. */
  lemma ParsePackIsIdentity(h: Header)
    ensures Parse(Pack(h)) == Some(h) <==> h.hopLimit < 8 && h.hopStart < 8
  {
    assert Pack(h) + [] == Pack(h);
    ParsePack(h, []);
  }

  /** Parse then pack gives back the header bytes, all of them. */
  lemma PackParse(buf: Bytes)
    ensures Parse(buf).Some? <==> |buf| >= HEADER_LEN
    ensures Parse(buf).Some? ==>
              Pack(Parse(buf).value) == buf[..HEADER_LEN]
              && Parse(buf).value.hopLimit < 8 && Parse(buf).value.hopStart < 8
  {
    if |buf| >= HEADER_LEN {
      BytesOfWord(buf, 0);
      BytesOfWord(buf, 4);
      BytesOfWord(buf, 8);
      FlagsWhole(buf[12]);
      assert buf[..16] == buf[0..4] + buf[4..8] + buf[8..12] + [buf[12], buf[13], buf[14], buf[15]];
    }
  }

  // ---- Frames ----

  function Frame(h: Header, body: Bytes): Bytes { Pack(h) + body }

  datatype Split = Split(header: Header, body: Bytes)

  function SplitFrame(buf: Bytes): Option<Split> {
    var h := Parse(buf);
    if h.None? then None else Some(Split(h.value, buf[HEADER_LEN..]))
  }

  /** Splitting undoes building, and building undoes splitting. */
  lemma SplitOfFrame(h: Header, body: Bytes)
    requires h.hopLimit < 8 && h.hopStart < 8
    ensures SplitFrame(Frame(h, body)) == Some(Split(h, body))
  {
    ParsePack(h, body);
  }

  lemma FrameOfSplit(buf: Bytes)
    ensures SplitFrame(buf).Some? ==> Frame(SplitFrame(buf).value.header, SplitFrame(buf).value.body) == buf
  {
    PackParse(buf);
    if |buf| >= HEADER_LEN { assert buf[..HEADER_LEN] + buf[HEADER_LEN..] == buf; }
  }

  // ---- Base-128 numbers ----

  function Varint(v: nat): (t: Bytes)
    ensures t != []
  {
    if v < 128 then [v] else [128 + v % 128] + Varint(v / 128)
  }

  /** A base-128 number of any length: all bytes but the last with the high bit set. */
  predicate Base128(t: Bytes) {
    t != [] && t[|t| - 1] < 128 && forall k :: 0 <= k < |t| - 1 ==> t[k] >= 128
  }

  /** One of at most five bytes. */
  predicate VarintText(t: Bytes) { Base128(t) && |t| <= 5 }

  function Value(t: Bytes): nat {
    if t == [] then 0 else t[0] % 128 + 128 * Value(t[1..])
  }

  datatype Num = Num(value: nat, next: nat)

  /** Reads on at i with n bytes of the number read; the value is not yet reduced to 32 bits. */
  function ReadFrom(p: Bytes, i: nat, n: nat): (r: Option<Num>)
    requires i <= |p|
    ensures r.Some? ==> i < r.value.next <= |p|
    decreases |p| - i
  {
    if i == |p| || n >= 5 then None
    else if p[i] < 128 then Some(Num(p[i], i + 1))
    else
      var rest := ReadFrom(p, i + 1, n + 1);
      if rest.None? then None else Some(Num(p[i] % 128 + 128 * rest.value.value, rest.value.next))
  }

  function Read(p: Bytes, i: nat): (r: Option<Num>)
    requires i <= |p|
    ensures r.Some? ==> i < r.value.next <= |p| && r.value.value < WORD
  {
    var r := ReadFrom(p, i, 0);
    if r.None? then None else Some(Num(r.value.value % WORD, r.value.next))
  }

  /** Enough base-128 digits for v. */
  predicate Digits(v: nat, n: nat) { if n == 0 then false else v < 128 || Digits(v / 128, n - 1) }

  /** One more byte in front of a number. */
  lemma {:induction false} TextCons(b: Byte, t: Bytes)
    requires b >= 128 && VarintText(t) && |t| < 5
    ensures VarintText([b] + t) && Value([b] + t) == b % 128 + 128 * Value(t)
  {
    assert ([b] + t)[1..] == t;
  }

  lemma {:induction false} VarintIsText(v: nat, n: nat)
    requires n <= 5 && Digits(v, n)
    ensures VarintText(Varint(v)) && |Varint(v)| <= n && Value(Varint(v)) == v
    decreases n
  {
    if v >= 128 {
      VarintIsText(v / 128, n - 1);
      TextCons(128 + v % 128, Varint(v / 128));
    } else {
      assert [v][1..] == [];
    }
  }

  lemma {:induction false} WordIsText(v: Word)
    ensures VarintText(Varint(v)) && Value(Varint(v)) == v
  {
    assert v / 128 / 128 / 128 / 128 < 128;
    assert Digits(v / 128 / 128 / 128 / 128, 1);
    assert Digits(v / 128 / 128 / 128, 2);
    assert Digits(v / 128 / 128, 3);
    assert Digits(v / 128, 4);
    VarintIsText(v, 5);
  }

  lemma {:induction false} ReadHere(p: Bytes, i: nat, n: nat, t: Bytes)
    requires Base128(t) && n + |t| <= 5 && Here(p, i, t)
    ensures ReadFrom(p, i, n) == Some(Num(Value(t), i + |t|))
    decreases |t|
  {
    assert p[i] == t[0];
    if |t| > 1 {
      ReadHere(p, i + 1, n + 1, t[1..]);
    } else {
      assert t[1..] == [];
    }
  }

  /** A number that goes on past five bytes is refused. */
  lemma {:induction false} LongRefused(p: Bytes, i: nat, n: nat)
    requires n <= 5 && i + 5 - n <= |p| && forall k :: i <= k < i + 5 - n ==> p[k] >= 128
    ensures ReadFrom(p, i, n).None?
    decreases 5 - n
  {
    if n < 5 { LongRefused(p, i + 1, n + 1); }
  }

  lemma {:induction false} FoundByRead(p: Bytes, i: nat, n: nat)
    requires i <= |p| && ReadFrom(p, i, n).Some?
    ensures var r := ReadFrom(p, i, n).value;
            var t := p[i..r.next];
            && t[|t| - 1] < 128 && (forall k :: 0 <= k < |t| - 1 ==> t[k] >= 128) && n + |t| <= 5
            && Value(t) == r.value
    decreases |p| - i
  {
    var r := ReadFrom(p, i, n).value;
    var t := p[i..r.next];
    assert t[1..] == p[i + 1..r.next];
    if p[i] >= 128 { FoundByRead(p, i + 1, n + 1); }
  }

  // ---- The Data message ----

  /** A field as its bytes hold it: the number as written, then what follows. */
  datatype Field =
    | Count(number: nat, raw: Bytes)
    | Fixed64(number: nat, bytes: Bytes)
    | Block(number: nat, raw: Bytes, bytes: Bytes)
    | Fixed32(number: nat, bytes: Bytes)

  function WireType(f: Field): nat {
    if f.Count? then 0 else if f.Fixed64? then 1 else if f.Block? then 2 else 5
  }

  /** The tag fits a byte; a block is as long as its number says. */
  predicate FieldOk(f: Field) {
    f.number < 32 &&
    match f
    case Count(_, raw) => VarintText(raw)
    case Fixed64(_, bytes) => |bytes| == 8
    case Block(_, raw, bytes) => VarintText(raw) && Value(raw) % WORD == |bytes|
    case Fixed32(_, bytes) => |bytes| == 4
  }

  function BodyBytes(f: Field): Bytes {
    match f
    case Count(_, raw) => raw
    case Fixed64(_, bytes) => bytes
    case Block(_, raw, bytes) => raw + bytes
    case Fixed32(_, bytes) => bytes
  }

  function FieldBytes(f: Field): Bytes
    requires f.number < 32
  {
    [f.number * 8 + WireType(f)] + BodyBytes(f)
  }

  predicate FieldsOk(fs: seq<Field>) { forall k :: 0 <= k < |fs| ==> FieldOk(fs[k]) }

  /** Every tag fits a byte. */
  predicate TagsOk(fs: seq<Field>) { forall k :: 0 <= k < |fs| ==> fs[k].number < 32 }

  function FieldsBytes(fs: seq<Field>): Bytes
    requires TagsOk(fs)
  {
    if fs == [] then [] else FieldBytes(fs[0]) + FieldsBytes(fs[1..])
  }

  /** The port and the payload; None until a payload was seen. */
  datatype Data = Data(port: nat, payload: Option<Bytes>)

  function Apply(f: Field, d: Data): Data {
    if f.Count? && f.number == 1 then d.(port := Value(f.raw) % WORD)
    else if f.Block? && f.number == 2 then d.(payload := Some(f.bytes))
    else d
  }

  /** What the fields say: the last port and the last payload. */
  function Meaning(fs: seq<Field>, d: Data): Data {
    if fs == [] then d else Meaning(fs[1..], Apply(fs[0], d))
  }

  // ---- The decoder, offset by offset ----

  datatype View = View(start: nat, len: nat)
  datatype Scan = Scan(i: nat, port: nat, view: Option<View>)

  function Skip(buf: Bytes, i: nat, wire: nat): (r: Option<nat>)
    requires i <= |buf|
    ensures r.Some? ==> i <= r.value <= |buf|
  {
    if wire == 0 then (var v := Read(buf, i); if v.None? then None else Some(v.value.next))
    else if wire == 1 then (if i + 8 > |buf| then None else Some(i + 8))
    else if wire == 2 then
      var v := Read(buf, i);
      if v.None? || v.value.value > |buf| - v.value.next then None else Some(v.value.next + v.value.value)
    else if wire == 5 then (if i + 4 > |buf| then None else Some(i + 4))
    else None
  }

  /** One turn of the decode loop. */
  function Step(buf: Bytes, s: Scan): (r: Option<Scan>)
    requires s.i < |buf|
    ensures r.Some? ==> s.i < r.value.i <= |buf|
    ensures r.Some? && (s.view.Some? ==> s.view.value.start + s.view.value.len <= |buf|) ==>
              (r.value.view.Some? ==> r.value.view.value.start + r.value.view.value.len <= |buf|)
  {
    var field, wire := buf[s.i] / 8, buf[s.i] % 8;
    var next := Skip(buf, s.i + 1, wire);
    if next.None? then None
    else if field == 1 && wire == 0 then Some(Scan(next.value, Read(buf, s.i + 1).value.value, s.view))
    else if field == 2 && wire == 2 then
      var v := Read(buf, s.i + 1).value;
      Some(Scan(next.value, s.port, Some(View(v.next, v.value))))
    else Some(Scan(next.value, s.port, s.view))
  }

  datatype Decoded = Decoded(port: nat, view: View)

  function DecodeFrom(buf: Bytes, s: Scan): (r: Option<Decoded>)
    requires s.i <= |buf| && (s.view.Some? ==> s.view.value.start + s.view.value.len <= |buf|)
    ensures r.Some? ==> r.value.view.start + r.value.view.len <= |buf|
    decreases |buf| - s.i
  {
    if s.i == |buf| then (if s.view.None? then None else Some(Decoded(s.port, s.view.value)))
    else
      var next := Step(buf, s);
      if next.None? then None else DecodeFrom(buf, next.value)
  }

  /** The payload view lies in the buffer. */
  function Decode(buf: Bytes): (r: Option<Decoded>)
    ensures r.Some? ==> r.value.view.start + r.value.view.len <= |buf|
  {
    DecodeFrom(buf, Scan(0, 0, None))
  }

  /** What the decoder returns, the view read out. */
  function DataOf(buf: Bytes): (d: Data) {
    var r := Decode(buf);
    if r.None? then Data(0, None)
    else Data(r.value.port, Some(buf[r.value.view.start..r.value.view.start + r.value.view.len]))
  }

  // ---- The decoder reads exactly the sequences of fields ----

  /** The scan so far as data. */
  function Seen(buf: Bytes, s: Scan): Data
    requires s.view.Some? ==> s.view.value.start + s.view.value.len <= |buf|
  {
    Data(s.port, if s.view.None? then None else Some(buf[s.view.value.start..s.view.value.start + s.view.value.len]))
  }

  predicate InBuffer(buf: Bytes, s: Scan) {
    s.i <= |buf| && (s.view.Some? ==> s.view.value.start + s.view.value.len <= |buf|)
  }

  /** A text made of two stands where its parts stand. */
  lemma {:induction false} HereParts(buf: Bytes, i: nat, a: Bytes, b: Bytes)
    requires Here(buf, i, a + b)
    ensures Here(buf, i, a) && Here(buf, i + |a|, b)
  {
    forall k | 0 <= k < |a| ensures buf[i + k] == a[k] { assert (a + b)[k] == a[k]; }
    forall k | 0 <= k < |b| ensures buf[i + |a| + k] == b[k] { assert (a + b)[|a| + k] == b[k]; }
  }

  function FieldSize(f: Field): nat {
    match f
    case Count(_, raw) => 1 + |raw|
    case Fixed64(_, bytes) => 1 + |bytes|
    case Block(_, raw, bytes) => 1 + |raw| + |bytes|
    case Fixed32(_, bytes) => 1 + |bytes|
  }

  /** The field stands in the buffer at i, part by part. */
  predicate FieldHere(buf: Bytes, i: nat, f: Field) {
    && i + FieldSize(f) <= |buf| && buf[i] == f.number * 8 + WireType(f)
    && (f.Count? || f.Block? ==> Here(buf, i + 1, f.raw))
    && (f.Block? ==> Here(buf, i + 1 + |f.raw|, f.bytes))
  }

  function FieldsSize(fs: seq<Field>): nat { if fs == [] then 0 else FieldSize(fs[0]) + FieldsSize(fs[1..]) }

  predicate FieldsHere(buf: Bytes, i: nat, fs: seq<Field>)
    decreases |fs|
  {
    i <= |buf| && (fs == [] || (FieldHere(buf, i, fs[0]) && FieldsHere(buf, i + FieldSize(fs[0]), fs[1..])))
  }

  lemma {:induction false} TagStands(buf: Bytes, i: nat, tag: Byte, body: Bytes)
    requires Here(buf, i, [tag] + body)
    ensures i < |buf| && buf[i] == tag && Here(buf, i + 1, body)
  {
    assert buf[i + 0] == ([tag] + body)[0];
    HereParts(buf, i, [tag], body);
  }

  lemma {:induction false} BodyStands(buf: Bytes, i: nat, f: Field)
    requires Here(buf, i, BodyBytes(f))
    ensures |BodyBytes(f)| == FieldSize(f) - 1
    ensures f.Count? || f.Block? ==> Here(buf, i, f.raw)
    ensures f.Block? ==> Here(buf, i + |f.raw|, f.bytes)
  {
    if f.Block? { HereParts(buf, i, f.raw, f.bytes); }
  }

  lemma {:induction false} FieldStands(buf: Bytes, i: nat, f: Field)
    requires f.number < 32 && Here(buf, i, FieldBytes(f))
    ensures FieldHere(buf, i, f) && |FieldBytes(f)| == FieldSize(f)
  {
    TagStands(buf, i, f.number * 8 + WireType(f), BodyBytes(f));
    BodyStands(buf, i + 1, f);
  }

  lemma {:induction false} FieldsStand(buf: Bytes, i: nat, fs: seq<Field>)
    requires TagsOk(fs) && Here(buf, i, FieldsBytes(fs))
    ensures FieldsHere(buf, i, fs) && |FieldsBytes(fs)| == FieldsSize(fs)
    decreases |fs|
  {
    if fs != [] {
      HereParts(buf, i, FieldBytes(fs[0]), FieldsBytes(fs[1..]));
      FieldStands(buf, i, fs[0]);
      FieldsStand(buf, i + FieldSize(fs[0]), fs[1..]);
    }
  }

  lemma {:induction false} NumberHere(buf: Bytes, i: nat, raw: Bytes)
    requires VarintText(raw) && Here(buf, i, raw)
    ensures i <= |buf| && Read(buf, i) == Some(Num(Value(raw) % WORD, i + |raw|))
  {
    ReadHere(buf, i, 0, raw);
  }

  lemma {:induction false} SkipOfField(buf: Bytes, i: nat, f: Field)
    requires FieldOk(f) && FieldHere(buf, i, f)
    ensures Skip(buf, i + 1, WireType(f)) == Some(i + FieldSize(f))
    ensures f.Count? || f.Block? ==> Read(buf, i + 1) == Some(Num(Value(f.raw) % WORD, i + 1 + |f.raw|))
  {
    if f.Count? || f.Block? { NumberHere(buf, i + 1, f.raw); }
  }

  /** One turn, from what stands behind the tag. */
  lemma {:induction false} StepTurn(buf: Bytes, s: Scan, f: Field, end: nat, num: Num)
    requires s.i < |buf| && buf[s.i] / 8 == f.number && buf[s.i] % 8 == WireType(f)
    requires Skip(buf, s.i + 1, WireType(f)) == Some(end)
    requires f.Count? || f.Block? ==> Read(buf, s.i + 1) == Some(num)
    ensures Step(buf, s) == Some(
              if f.Count? && f.number == 1 then Scan(end, num.value, s.view)
              else if f.Block? && f.number == 2 then Scan(end, s.port, Some(View(num.next, num.value)))
              else Scan(end, s.port, s.view))
  {}

  /** What a turn makes of a field. */
  function ScanField(s: Scan, f: Field): Scan {
    var end := s.i + FieldSize(f);
    if f.Count? && f.number == 1 then Scan(end, Value(f.raw) % WORD, s.view)
    else if f.Block? && f.number == 2 then Scan(end, s.port, Some(View(s.i + 1 + |f.raw|, |f.bytes|)))
    else Scan(end, s.port, s.view)
  }

  lemma {:induction false} StepOfField(buf: Bytes, s: Scan, f: Field)
    requires FieldOk(f) && FieldHere(buf, s.i, f)
    ensures s.i < |buf| && Step(buf, s) == Some(ScanField(s, f))
  {
    SkipOfField(buf, s.i, f);
    var num := if f.Count? || f.Block? then Num(Value(f.raw) % WORD, s.i + 1 + |f.raw|) else Num(0, 0);
    StepTurn(buf, s, f, s.i + FieldSize(f), num);
  }

  lemma {:induction false} SeenOfField(buf: Bytes, s: Scan, f: Field)
    requires InBuffer(buf, s) && FieldHere(buf, s.i, f)
    ensures InBuffer(buf, ScanField(s, f)) && Seen(buf, ScanField(s, f)) == Apply(f, Seen(buf, s))
  {
    if f.Block? && f.number == 2 {
      var at := s.i + 1 + |f.raw|;
      assert buf[at..at + |f.bytes|] == f.bytes;
    }
  }

  /** The decoder passes over fields that stand in the buffer, taking in what they say. */
  lemma {:induction false} PassFields(buf: Bytes, s: Scan, fs: seq<Field>) returns (s': Scan)
    requires InBuffer(buf, s) && FieldsOk(fs) && FieldsHere(buf, s.i, fs)
    ensures InBuffer(buf, s') && s'.i == s.i + FieldsSize(fs)
    ensures Seen(buf, s') == Meaning(fs, Seen(buf, s)) && DecodeFrom(buf, s) == DecodeFrom(buf, s')
    decreases |fs|
  {
    s' := s;
    if fs != [] {
      var next := ScanField(s, fs[0]);
      SeenOfField(buf, s, fs[0]);
      assert DecodeFrom(buf, s) == DecodeFrom(buf, next) by { StepOfField(buf, s, fs[0]); }
      s' := PassFields(buf, next, fs[1..]);
    }
  }

  lemma {:induction false} DataAtEnd(buf: Bytes, s: Scan)
    requires InBuffer(buf, s) && s.i == |buf| && Decode(buf) == DecodeFrom(buf, s)
    ensures Decode(buf).Some? <==> Seen(buf, s).payload.Some?
    ensures Decode(buf).Some? ==> DataOf(buf) == Seen(buf, s)
  {}

  lemma {:induction false} DecodeStanding(buf: Bytes, fs: seq<Field>)
    requires FieldsOk(fs) && FieldsHere(buf, 0, fs) && FieldsSize(fs) == |buf|
    ensures var d := Meaning(fs, Data(0, None));
            && (Decode(buf).Some? <==> d.payload.Some?)
            && (d.payload.Some? ==> DataOf(buf) == d)
  {
    var s := PassFields(buf, Scan(0, 0, None), fs);
    DataAtEnd(buf, s);
  }

  /** Decoding any sequence of fields gives their meaning: unknown fields change nothing. */
  lemma {:induction false} DecodeIsMeaning(fs: seq<Field>)
    requires FieldsOk(fs)
    ensures var d := Meaning(fs, Data(0, None));
            && (Decode(FieldsBytes(fs)).Some? <==> d.payload.Some?)
            && (d.payload.Some? ==> DataOf(FieldsBytes(fs)) == d)
  {
    FieldsStand(FieldsBytes(fs), 0, fs);
    DecodeStanding(FieldsBytes(fs), fs);
  }

  lemma {:induction false} NumberFound(buf: Bytes, i: nat)
    requires i <= |buf| && Read(buf, i).Some?
    ensures var r := Read(buf, i).value; VarintText(buf[i..r.next]) && Value(buf[i..r.next]) % WORD == r.value
  {
    FoundByRead(buf, i, 0);
  }

  lemma {:induction false} BlockFound(buf: Bytes, i: nat, next: nat, end: nat) returns (f: Field)
    requires i < next <= end <= |buf| && buf[i] % 8 == 2
    requires VarintText(buf[i + 1..next]) && Value(buf[i + 1..next]) % WORD == end - next
    ensures FieldOk(f) && FieldBytes(f) == buf[i..end]
  {
    f := Block(buf[i] / 8, buf[i + 1..next], buf[next..end]);
    ThreeSlices(buf, i, next, end);
  }

  lemma ThreeSlices(buf: Bytes, i: nat, next: nat, end: nat)
    requires i < next <= end <= |buf|
    ensures buf[i..end] == [buf[i]] + (buf[i + 1..next] + buf[next..end])
  {}

  /** The field a turn of the loop read. */
  lemma {:induction false} FieldFound(buf: Bytes, i: nat, end: nat) returns (f: Field)
    requires i < |buf| && Skip(buf, i + 1, buf[i] % 8) == Some(end)
    ensures i < end <= |buf| && FieldOk(f) && FieldBytes(f) == buf[i..end]
  {
    var field, wire := buf[i] / 8, buf[i] % 8;
    if wire == 0 || wire == 2 { NumberFound(buf, i + 1); }
    if wire == 2 {
      f := BlockFound(buf, i, Read(buf, i + 1).value.next, end);
    } else {
      var rest := buf[i + 1..end];
      f := if wire == 0 then Count(field, rest) else if wire == 1 then Fixed64(field, rest) else Fixed32(field, rest);
      assert buf[i..end] == [buf[i]] + rest;
    }
  }

  lemma {:induction false} FieldsCons(f: Field, rest: seq<Field>)
    requires FieldOk(f) && FieldsOk(rest)
    ensures FieldsOk([f] + rest) && FieldsBytes([f] + rest) == FieldBytes(f) + FieldsBytes(rest)
  {
    assert ([f] + rest)[1..] == rest;
  }

  /** One turn of an accepting decode. */
  lemma {:induction false} DecodeTurn(buf: Bytes, s: Scan) returns (s': Scan)
    requires InBuffer(buf, s) && s.i < |buf| && DecodeFrom(buf, s).Some?
    ensures InBuffer(buf, s') && s.i < s'.i && DecodeFrom(buf, s').Some?
    ensures Skip(buf, s.i + 1, buf[s.i] % 8) == Some(s'.i)
  {
    s' := Step(buf, s).value;
  }

  lemma {:induction false} FieldsOfDecode(buf: Bytes, s: Scan) returns (fs: seq<Field>)
    requires InBuffer(buf, s) && DecodeFrom(buf, s).Some?
    ensures FieldsOk(fs) && FieldsBytes(fs) == buf[s.i..]
    decreases |buf| - s.i
  {
    if s.i == |buf| {
      fs := [];
    } else {
      var s' := DecodeTurn(buf, s);
      var f := FieldFound(buf, s.i, s'.i);
      var rest := FieldsOfDecode(buf, s');
      FieldsCons(f, rest);
      fs := [f] + rest;
      SliceJoin(buf, s.i, s'.i);
    }
  }

  lemma SliceJoin(buf: Bytes, i: nat, j: nat)
    requires i <= j <= |buf|
    ensures buf[i..j] + buf[j..] == buf[i..]
  {}

  ghost predicate HoldsFields(buf: Bytes, d: Data) {
    exists fs :: FieldsOk(fs) && FieldsBytes(fs) == buf && Meaning(fs, Data(0, None)) == d
  }

  /** The decoder accepts exactly the buffers that are fields with a payload among them, and returns what they say. */
  lemma {:induction false} DecodeIsExact(buf: Bytes, d: Data)
    ensures (Decode(buf).Some? && DataOf(buf) == d) <==> HoldsFields(buf, d) && d.payload.Some?
  {
    if Decode(buf).Some? {
      var fs := FieldsOfDecode(buf, Scan(0, 0, None));
      assert buf[0..] == buf;
      DecodeIsMeaning(fs);
      assert HoldsFields(buf, DataOf(buf));
    }
    if HoldsFields(buf, d) && d.payload.Some? {
      var fs :| FieldsOk(fs) && FieldsBytes(fs) == buf && Meaning(fs, Data(0, None)) == d;
      DecodeIsMeaning(fs);
    }
  }

  // ---- The encoder ----

  function EncodeData(port: Word, payload: Bytes): Bytes {
    [0x08] + Varint(port) + [0x12] + Varint(|payload| % WORD) + payload
  }

  function DataFields(port: Word, payload: Bytes): seq<Field> {
    [Count(1, Varint(port)), Block(2, Varint(|payload| % WORD), payload)]
  }

  lemma {:induction false} FieldsOfTwo(a: Field, b: Field, d: Data)
    requires FieldOk(a) && FieldOk(b)
    ensures FieldsBytes([a, b]) == FieldBytes(a) + FieldBytes(b) && Meaning([a, b], d) == Apply(b, Apply(a, d))
  {
    var fs := [a, b];
    assert fs[1..] == [b] && [b][1..] == [];
    assert FieldsBytes([b]) == FieldBytes(b);
    assert Meaning([b], Apply(a, d)) == Apply(b, Apply(a, d));
  }

  lemma {:induction false} DataFieldsOk(port: Word, payload: Bytes)
    requires |payload| < WORD
    ensures FieldsOk(DataFields(port, payload)) && Value(Varint(port)) == port
  {
    WordIsText(port);
    WordIsText(|payload|);
  }

  lemma {:induction false} EncodeIsFields(port: Word, payload: Bytes)
    requires |payload| < WORD
    ensures FieldsOk(DataFields(port, payload)) && FieldsBytes(DataFields(port, payload)) == EncodeData(port, payload)
    ensures Meaning(DataFields(port, payload), Data(0, None)) == Data(port, Some(payload))
  {
    DataFieldsOk(port, payload);
    var a, b := DataFields(port, payload)[0], DataFields(port, payload)[1];
    FieldsOfTwo(a, b, Data(0, None));
    assert FieldBytes(b) == [0x12] + (b.raw + payload);
    assert FieldBytes(a) + ([0x12] + (b.raw + payload)) == FieldBytes(a) + [0x12] + b.raw + payload;
  }

  lemma {:induction false} DecodeOfEncode(port: Word, payload: Bytes)
    requires |payload| < WORD
    ensures Decode(EncodeData(port, payload)).Some? && DataOf(EncodeData(port, payload)) == Data(port, Some(payload))
  {
    EncodeIsFields(port, payload);
    DecodeIsMeaning(DataFields(port, payload));
  }

  /** The message with extra fields before, between and after. */
  function Padded(port: Word, payload: Bytes, pre: seq<Field>, mid: seq<Field>, post: seq<Field>): seq<Field> {
    pre + ([Count(1, Varint(port))] + (mid + ([Block(2, Varint(|payload|), payload)] + post)))
  }

  lemma {:induction false} MeaningOfPadded(
    port: Word, payload: Bytes, pre: seq<Field>, mid: seq<Field>, post: seq<Field>)
    requires |payload| < WORD && Others(pre) && Others(mid) && Others(post)
    ensures Meaning(Padded(port, payload, pre, mid, post), Data(0, None)) == Data(port, Some(payload))
  {
    assert Value(Varint(port)) == port by { WordIsText(port); }
    var b := [Block(2, Varint(|payload|), payload)] + post;
    var a := [Count(1, Varint(port))] + (mid + b);
    MeaningOfOthers(pre, a, Data(0, None));
    assert a[1..] == mid + b;
    MeaningOfOthers(mid, b, Data(port, None));
    assert b[1..] == post && post + [] == post;
    MeaningOfOthers(post, [], Data(port, Some(payload)));
  }

  /** Extra fields with other numbers change nothing. */
  lemma {:induction false} RoundTrip(port: Word, payload: Bytes, pre: seq<Field>, mid: seq<Field>, post: seq<Field>)
    requires |payload| < WORD && Others(pre) && Others(mid) && Others(post)
    ensures var fs := Padded(port, payload, pre, mid, post);
            FieldsOk(fs) && DataOf(FieldsBytes(fs)) == Data(port, Some(payload))
  {
    MeaningOfPadded(port, payload, pre, mid, post);
    assert FieldsOk(Padded(port, payload, pre, mid, post)) by {
      WordIsText(port);
      WordIsText(|payload|);
    }
    DecodeIsMeaning(Padded(port, payload, pre, mid, post));
  }

  predicate Others(fs: seq<Field>) {
    forall k :: 0 <= k < |fs| ==> FieldOk(fs[k]) && fs[k].number != 1 && fs[k].number != 2
  }

  lemma {:induction false} MeaningOfOthers(fs: seq<Field>, more: seq<Field>, d: Data)
    requires Others(fs)
    ensures Meaning(fs + more, d) == Meaning(more, d)
    decreases |fs|
  {
    if fs == [] {
      assert fs + more == more;
    } else {
      assert (fs + more)[1..] == fs[1..] + more;
      MeaningOfOthers(fs[1..], more, d);
    }
  }
}
