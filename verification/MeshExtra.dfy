/**
 Extra number fields behind a message, as protobuf writes them: tags and numbers
 in base 128, of any length. When the decoder skips them, and when it does not.
 */
module MeshExtra {
  import opened Options
  import opened ByteStrings
  import opened Mesh

  lemma {:induction false} FieldsAppend(fs: seq<Field>, more: seq<Field>)
    requires FieldsOk(fs) && FieldsOk(more)
    ensures FieldsOk(fs + more) && FieldsBytes(fs + more) == FieldsBytes(fs) + FieldsBytes(more)
    decreases |fs|
  {
    if fs == [] {
      assert fs + more == more;
    } else {
      var rest := fs[1..] + more;
      assert fs + more == [fs[0]] + rest;
      FieldsAppend(fs[1..], more);
      FieldsCons(fs[0], rest);
      AppendLast(FieldBytes(fs[0]), FieldsBytes(fs[1..]), FieldsBytes(more));
    }
  }

  lemma AppendLast(a: Bytes, b: Bytes, c: Bytes)
    ensures a + (b + c) == a + b + c
  {}

  /** The message followed by a number field: its tag, the field number times eight, in base 128, then the number. */
  function WithNumber(port: Word, payload: Bytes, n: nat, raw: Bytes): Bytes {
    EncodeData(port, payload) + (Varint(8 * n) + raw)
  }

  predicate Skipped(port: Word, payload: Bytes, n: nat, raw: Bytes) {
    DataOf(WithNumber(port, payload, n, raw)) == Data(port, Some(payload))
  }

  ghost predicate IsFields(t: Bytes) {
    exists fs :: FieldsOk(fs) && FieldsBytes(fs) == t
  }

  /** Behind fields that hold a message the decoder goes on with what follows, from its own offset. */
  lemma {:induction false} PassMessage(fs: seq<Field>, rest: Bytes) returns (s: Scan)
    requires FieldsOk(fs)
    ensures var buf := FieldsBytes(fs) + rest;
            && InBuffer(buf, s) && s.i == |FieldsBytes(fs)| && Decode(buf) == DecodeFrom(buf, s)
  {
    var buf := FieldsBytes(fs) + rest;
    FieldsStand(buf, 0, fs);
    s := PassFields(buf, Scan(0, 0, None), fs);
  }

  /** What follows a message must be fields for the whole to be accepted, and is enough. */
  lemma {:induction false} AcceptedIffFields(fs: seq<Field>, rest: Bytes)
    requires FieldsOk(fs) && Decode(FieldsBytes(fs)).Some?
    ensures Decode(FieldsBytes(fs) + rest).Some? <==> IsFields(rest)
  {
    var buf := FieldsBytes(fs) + rest;
    if Decode(buf).Some? {
      var s := PassMessage(fs, rest);
      var more := FieldsOfDecode(buf, s);
      assert buf[s.i..] == rest;
    }
    if IsFields(rest) {
      var more :| FieldsOk(more) && FieldsBytes(more) == rest;
      FieldsAppend(fs, more);
      DecodeIsMeaning(fs);
      DecodeIsMeaning(fs + more);
      PayloadStays(fs, more, Data(0, None));
    }
  }

  lemma {:induction false} PayloadStays(fs: seq<Field>, more: seq<Field>, d: Data)
    requires Meaning(fs, d).payload.Some?
    ensures Meaning(fs + more, d) == Meaning(more, Meaning(fs, d)) && Meaning(fs + more, d).payload.Some?
    decreases |fs|
  {
    if fs == [] {
      assert fs + more == more;
      PayloadKept(more, d);
    } else {
      assert (fs + more)[1..] == fs[1..] + more;
      PayloadStays(fs[1..], more, Apply(fs[0], d));
    }
  }

  lemma {:induction false} PayloadKept(fs: seq<Field>, d: Data)
    requires d.payload.Some?
    ensures Meaning(fs, d).payload.Some?
    decreases |fs|
  {
    if fs != [] { PayloadKept(fs[1..], Apply(fs[0], d)); }
  }

  /** Fields with other numbers behind the message leave it as it is. */
  lemma {:induction false} OthersBehind(port: Word, payload: Bytes, more: seq<Field>)
    requires |payload| < WORD && Others(more)
    ensures DataOf(EncodeData(port, payload) + FieldsBytes(more)) == Data(port, Some(payload))
  {
    var fs := DataFields(port, payload);
    EncodeIsFields(port, payload);
    FieldsAppend(fs, more);
    PayloadStays(fs, more, Data(0, None));
    assert more + [] == more;
    MeaningOfOthers(more, [], Data(port, Some(payload)));
    DecodeIsMeaning(fs + more);
  }

  lemma {:induction false} NarrowTagIsField(n: nat, raw: Bytes)
    requires n < 16 && VarintText(raw)
    ensures FieldOk(Count(n, raw)) && FieldsBytes([Count(n, raw)]) == Varint(8 * n) + raw
  {
    var f := Count(n, raw);
    FieldsCons(f, []);
    assert [f] + [] == [f] && FieldsBytes([]) == [];
    assert FieldBytes(f) + [] == FieldBytes(f);
  }

  lemma {:induction false} NarrowSkipped(port: Word, payload: Bytes, n: nat, raw: Bytes)
    requires |payload| < WORD && 3 <= n < 16 && VarintText(raw)
    ensures Skipped(port, payload, n, raw)
  {
    NarrowTagIsField(n, raw);
    OthersBehind(port, payload, [Count(n, raw)]);
  }

  lemma {:induction false} LongFieldRefused(buf: Bytes, s: Scan, n: nat)
    requires InBuffer(buf, s) && n < 16 && s.i + 6 <= |buf| && buf[s.i] == 8 * n
    requires forall k :: s.i + 1 <= k < s.i + 6 ==> buf[k] >= 128
    ensures DecodeFrom(buf, s).None?
  {
    LongRefused(buf, s.i + 1, 0);
    assert Skip(buf, s.i + 1, 0).None?;
  }

  /** Where the parts of a text stand behind another. */
  lemma {:induction false} StandsBehind(a: Bytes, b: Bytes, c: Bytes)
    ensures Here(a + (b + c), |a|, b) && Here(a + (b + c), |a| + |b|, c)
  {
    var buf := a + (b + c);
    HereParts(buf, 0, a, b + c);
    HereParts(buf, |a|, b, c);
  }

  lemma {:induction false} LongNumberRefused(port: Word, payload: Bytes, n: nat, raw: Bytes)
    requires |payload| < WORD && 3 <= n < 16 && Base128(raw) && |raw| > 5
    ensures Decode(WithNumber(port, payload, n, raw)).None?
  {
    EncodeIsFields(port, payload);
    var s := PassMessage(DataFields(port, payload), Varint(8 * n) + raw);
    StandsBehind(EncodeData(port, payload), Varint(8 * n), raw);
    LongFieldBehind(WithNumber(port, payload, n, raw), s, n, raw);
  }

  lemma {:induction false} LongFieldBehind(buf: Bytes, s: Scan, n: nat, raw: Bytes)
    requires InBuffer(buf, s) && n < 16 && Base128(raw) && |raw| > 5
    requires Here(buf, s.i, Varint(8 * n)) && Here(buf, s.i + |Varint(8 * n)|, raw)
    ensures DecodeFrom(buf, s).None?
  {
    assert Varint(8 * n) == [8 * n];
    assert buf[s.i + 0] == Varint(8 * n)[0];
    forall k | s.i + 1 <= k < s.i + 6 ensures buf[k] >= 128 { assert buf[s.i + 1 + (k - s.i - 1)] == raw[k - s.i - 1]; }
    LongFieldRefused(buf, s, n);
  }

  /** The first byte of a longer tag reads as a field of its own, whose number is the rest of the tag. */
  lemma {:induction false} WideTagIsField(n: nat)
    requires 16 <= n < 0x2000_0000
    ensures FieldOk(WideField(n)) && WideField(n).number >= 16 && FieldsBytes([WideField(n)]) == Varint(8 * n)
  {
    WordIsText(n / 16);
    WideTagBytes(n);
    var f := WideField(n);
    FieldsCons(f, []);
    assert [f] + [] == [f] && FieldsBytes([]) == [];
    assert FieldBytes(f) + [] == FieldBytes(f);
  }

  lemma WideTagBytes(n: nat)
    requires 16 <= n
    ensures Varint(8 * n) == [(16 + n % 16) * 8] + Varint(n / 16)
  {
    assert 8 * n / 128 == n / 16 && 8 * n % 128 == 8 * (n % 16);
  }

  /** A field has at least two bytes. */
  lemma {:induction false} FieldHasBody(f: Field)
    requires FieldOk(f)
    ensures |FieldBytes(f)| >= 2 && FieldBytes(f)[0] == f.number * 8 + WireType(f) && FieldBytes(f)[0] % 8 != 3
  {
    TagWire(f.number, WireType(f));
  }

  lemma TagWire(n: nat, w: nat)
    requires w < 8
    ensures (n * 8 + w) % 8 == w
  {}

  /** Inside a base-128 number every byte read as a tag has its high bit set. */
  lemma {:induction false} TagsAreHigh(fs: seq<Field>, t: Bytes)
    requires FieldsOk(fs) && FieldsBytes(fs) == t && forall k :: 0 <= k < |t| - 1 ==> t[k] >= 128
    ensures Others(fs)
    decreases |fs|
  {
    if fs != [] {
      FieldHasBody(fs[0]);
      var m := |FieldBytes(fs[0])|;
      assert t[0] == FieldBytes(fs[0])[0];
      var rest := FieldsBytes(fs[1..]);
      assert t[m..] == rest;
      forall k | 0 <= k < |rest| - 1 ensures rest[k] >= 128 { assert rest[k] == t[m + k]; }
      TagsAreHigh(fs[1..], rest);
    }
  }

  function WideField(n: nat): Field { Count(16 + n % 16, Varint(n / 16)) }

  lemma {:induction false} WideMessage(port: Word, payload: Bytes, n: nat)
    requires |payload| < WORD && 16 <= n < 0x2000_0000
    ensures var fs := DataFields(port, payload) + [WideField(n)];
            FieldsOk(fs) && FieldsBytes(fs) == EncodeData(port, payload) + Varint(8 * n)
                && Decode(FieldsBytes(fs)).Some?
  {
    var fs := DataFields(port, payload);
    EncodeIsFields(port, payload);
    WideTagIsField(n);
    FieldsAppend(fs, [WideField(n)]);
    PayloadStays(fs, [WideField(n)], Data(0, None));
    DecodeIsMeaning(fs + [WideField(n)]);
  }

  lemma {:induction false} WideAccepted(port: Word, payload: Bytes, n: nat, raw: Bytes)
    requires |payload| < WORD && 16 <= n < 0x2000_0000 && Base128(raw) && IsFields(raw)
    ensures Skipped(port, payload, n, raw)
  {
    var more :| FieldsOk(more) && FieldsBytes(more) == raw;
    TagsAreHigh(more, raw);
    WideTagIsField(n);
    FieldsAppend([WideField(n)], more);
    OthersBehind(port, payload, [WideField(n)] + more);
  }

  lemma {:induction false} SkippedIsAccepted(port: Word, payload: Bytes, n: nat, raw: Bytes)
    requires Skipped(port, payload, n, raw)
    ensures Decode(WithNumber(port, payload, n, raw)).Some?
  {}

  /** Behind a longer tag the number itself is read as fields. */
  lemma {:induction false} WideSkippedIff(port: Word, payload: Bytes, n: nat, raw: Bytes)
    requires |payload| < WORD && 16 <= n < 0x2000_0000 && Base128(raw)
    ensures Skipped(port, payload, n, raw) <==> IsFields(raw)
  {
    if IsFields(raw) { WideAccepted(port, payload, n, raw); }
    if Skipped(port, payload, n, raw) {
      SkippedIsAccepted(port, payload, n, raw);
      WideMessage(port, payload, n);
      AppendLast(EncodeData(port, payload), Varint(8 * n), raw);
      AcceptedIffFields(DataFields(port, payload) + [WideField(n)], raw);
    }
  }

  /** For every number field behind a message: when the decoder skips it. */
  lemma {:induction false} SkippedExactly(port: Word, payload: Bytes, n: nat, raw: Bytes)
    requires |payload| < WORD && 3 <= n < 0x2000_0000 && Base128(raw)
    ensures Skipped(port, payload, n, raw) <==> if n < 16 then |raw| <= 5 else IsFields(raw)
  {
    if n >= 16 { WideSkippedIff(port, payload, n, raw); }
    else if |raw| <= 5 { NarrowSkipped(port, payload, n, raw); }
    else { LongNumberRefused(port, payload, n, raw); }
  }

  /** A number whose first byte is the tag of a group. */
  function GroupNumber(len: nat): Bytes
    requires len > 0
  {
    if len == 1 then [0x03] else [0x83] + seq(len - 2, _ => 0x80) + [0x00]
  }

  lemma {:induction false} FirstTag(fs: seq<Field>)
    requires FieldsOk(fs) && fs != []
    ensures FieldsBytes(fs) != [] && FieldsBytes(fs)[0] % 8 != 3
  {
    FieldHasBody(fs[0]);
    FirstByte(FieldBytes(fs[0]), FieldsBytes(fs[1..]));
  }

  lemma FirstByte(a: Bytes, b: Bytes)
    requires a != []
    ensures (a + b)[0] == a[0]
  {}

  lemma {:induction false} GroupIsNoField(len: nat)
    requires len > 0
    ensures Base128(GroupNumber(len)) && |GroupNumber(len)| == len && !IsFields(GroupNumber(len))
  {
    var t := GroupNumber(len);
    assert t[0] == 0x03 || t[0] == 0x83;
    forall fs | FieldsOk(fs) ensures FieldsBytes(fs) != t {
      if fs != [] { FirstTag(fs); }
    }
  }

  /** All numbers of a length are skipped exactly when the field number is below 16 and the length at most five. */
  lemma {:induction false} SkippedIffNarrow(port: Word, payload: Bytes, n: nat, len: nat)
    requires |payload| < WORD && 3 <= n < 0x2000_0000 && len > 0
    ensures (forall raw :: Base128(raw) && |raw| == len ==> Skipped(port, payload, n, raw)) <==> n < 16 && len <= 5
  {
    if n < 16 && len <= 5 {
      forall raw | Base128(raw) && |raw| == len ensures Skipped(port, payload, n, raw) {
        SkippedExactly(port, payload, n, raw);
      }
    } else {
      GroupIsNoField(len);
      SkippedExactly(port, payload, n, GroupNumber(len));
    }
  }
}
