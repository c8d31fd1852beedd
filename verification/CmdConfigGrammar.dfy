/**
 The texts a config push may be: JSON values as trees that count their
 whitespace, and where in a text a tree stands. Numbers follow section 6 and
 whitespace section 2 of RFC 8259; any character may follow a backslash.
 */
module CmdConfigGrammar {
  import opened ByteStrings
  import opened Options
  import opened CmdConfig

  datatype Exp = Exp(mark: char, sign: string, digits: string)

  datatype Num = Num(negative: bool, whole: string, frac: Option<string>, exp: Option<Exp>)

  function Open(obj: bool): char { if obj then '{' else '[' }

  function Sign(negative: bool): string { if negative then "-" else "" }

  // ---- Strings, numbers and words ----

  predicate AllDigits(t: string) { t != "" && forall c :: c in t ==> IsDigit(c) }

  /** From character k on: no bare quote, no control character, and something after each backslash. */
  predicate BodyOkFrom(b: string, k: nat)
    decreases |b| - k
  {
    k < |b| ==>
      if b[k] == '\\' then k + 1 < |b| && BodyOkFrom(b, k + 2)
      else b[k] != '\"' && b[k] >= ' ' && BodyOkFrom(b, k + 1)
  }

  predicate BodyOk(b: string) { BodyOkFrom(b, 0) }

  predicate WholeOk(t: string) { AllDigits(t) && (t[0] == '0' ==> t == "0") }

  predicate FracOk(f: Option<string>) { f.Some? ==> AllDigits(f.value) }

  predicate ExpOk(e: Option<Exp>) {
    e.Some? ==>
      && (e.value.mark == 'e' || e.value.mark == 'E')
      && (e.value.sign == "" || e.value.sign == "+" || e.value.sign == "-") && AllDigits(e.value.digits)
  }

  predicate NumOk(n: Num) { WholeOk(n.whole) && FracOk(n.frac) && ExpOk(n.exp) }

  predicate IsWord(w: string) { w == "true" || w == "false" || w == "null" }

  // ---- Trees ----

  datatype Json =
    | Text(body: string)
    | Number(num: Num)
    | Word(word: string)
    | Empty(obj: bool, pad: nat)
    | Full(obj: bool, pad: nat, items: Items)

  datatype Items = Last(item: Item) | More(item: Item, pad: nat, rest: Items)

  /** pad, mid, gap and post count whitespace. In an array a member has no key, mid or gap. */
  datatype Item = Item(key: string, mid: nat, gap: nat, value: Json, post: nat)

  predicate WellFormed(v: Json)
    decreases v
  {
    match v
    case Text(body) => BodyOk(body)
    case Number(n) => NumOk(n)
    case Word(w) => IsWord(w)
    case Empty(_, _) => true
    case Full(obj, _, items) => WellFormedItems(obj, items)
  }

  predicate WellFormedItems(obj: bool, items: Items)
    decreases items
  {
    && (obj ==> BodyOk(items.item.key)) && WellFormed(items.item.value)
    && (items.More? ==> WellFormedItems(obj, items.rest))
  }

  function Max(a: nat, b: nat): nat { if a < b then b else a }

  /** How deep containers nest. */
  function Depth(v: Json): nat {
    match v
    case Empty(_, _) => 1
    case Full(_, _, items) => 1 + DepthItems(items)
    case _ => 0
  }

  function DepthItems(items: Items): nat {
    match items
    case Last(it) => Depth(it.value)
    case More(it, _, rest) => Max(Depth(it.value), DepthItems(rest))
  }

  // ---- Where a tree stands in a text ----

  /** The text t stands in s from offset i on; its first k characters are known to. */
  predicate AtFrom(s: string, i: nat, t: string, k: nat)
    requires i + |t| <= |s|
    decreases |t| - k
  {
    k < |t| ==> s[i + k] == t[k] && AtFrom(s, i, t, k + 1)
  }

  predicate At(s: string, i: nat, t: string) { i + |t| <= |s| && AtFrom(s, i, t, 0) }

  /** n whitespace characters stand in s from offset i on. */
  predicate WsAt(s: string, i: nat, n: nat)
    decreases n
  {
    i + n <= |s| && (n > 0 ==> IsWs(s[i]) && WsAt(s, i + 1, n - 1))
  }

  predicate CharAt(s: string, i: nat, c: char) { i < |s| && s[i] == c }

  function LenFrac(f: Option<string>): nat { if f.None? then 0 else 1 + |f.value| }

  function LenExp(e: Option<Exp>): nat { if e.None? then 0 else 1 + |e.value.sign| + |e.value.digits| }

  function LenNum(n: Num): nat { |Sign(n.negative)| + |n.whole| + LenFrac(n.frac) + LenExp(n.exp) }

  function LenKey(obj: bool, it: Item): nat {
    if obj then 2 + |it.key| + it.mid + 1 + it.gap else 0
  }

  function Len(v: Json): nat
    decreases v
  {
    match v
    case Text(body) => 2 + |body|
    case Number(n) => LenNum(n)
    case Word(w) => |w|
    case Empty(_, pad) => 2 + pad
    case Full(obj, pad, items) => 2 + pad + LenItems(obj, items)
  }

  function LenItem(obj: bool, it: Item): nat
    decreases it
  {
    LenKey(obj, it) + Len(it.value) + it.post
  }

  function LenItems(obj: bool, items: Items): nat
    decreases items
  {
    match items
    case Last(it) => LenItem(obj, it)
    case More(it, pad, rest) => LenItem(obj, it) + 1 + pad + LenItems(obj, rest)
  }

  predicate QuoteStands(s: string, i: nat, body: string) {
    CharAt(s, i, '\"') && At(s, i + 1, body) && CharAt(s, i + 1 + |body|, '\"')
  }

  predicate FracStands(s: string, i: nat, f: Option<string>) {
    f.Some? ==> CharAt(s, i, '.') && At(s, i + 1, f.value)
  }

  predicate ExpStands(s: string, i: nat, e: Option<Exp>) {
    e.Some? ==>
      CharAt(s, i, e.value.mark) && At(s, i + 1, e.value.sign) && At(s, i + 1 + |e.value.sign|, e.value.digits)
  }

  predicate TailStands(s: string, i: nat, n: Num) {
    && i + LenFrac(n.frac) + LenExp(n.exp) <= |s|
    && FracStands(s, i, n.frac) && ExpStands(s, i + LenFrac(n.frac), n.exp)
  }

  predicate NumStands(s: string, i: nat, n: Num) {
    var a := i + |Sign(n.negative)|;
    (n.negative ==> CharAt(s, i, '-')) && At(s, a, n.whole) && TailStands(s, a + |n.whole|, n)
  }

  predicate KeyStands(s: string, i: nat, it: Item) {
    var j := i + 2 + |it.key|;
    QuoteStands(s, i, it.key) && WsAt(s, j, it.mid) && CharAt(s, j + it.mid, ':') && WsAt(s, j + it.mid + 1, it.gap)
  }

  predicate Stands(s: string, i: nat, v: Json)
    decreases v
  {
    match v
    case Text(body) => QuoteStands(s, i, body)
    case Number(n) => NumStands(s, i, n)
    case Word(w) => At(s, i, w)
    case Empty(obj, pad) => CharAt(s, i, Open(obj)) && WsAt(s, i + 1, pad) && CharAt(s, i + 1 + pad, Close(obj))
    case Full(obj, pad, items) =>
      CharAt(s, i, Open(obj)) && WsAt(s, i + 1, pad) && ItemsStand(s, i + 1 + pad, obj, items)
      && CharAt(s, i + 1 + pad + LenItems(obj, items), Close(obj))
  }

  predicate ItemStands(s: string, i: nat, obj: bool, it: Item)
    decreases it
  {
    var k := LenKey(obj, it);
    (obj ==> KeyStands(s, i, it)) && Stands(s, i + k, it.value) && WsAt(s, i + k + Len(it.value), it.post)
  }

  predicate ItemsStand(s: string, i: nat, obj: bool, items: Items)
    decreases items
  {
    match items
    case Last(it) => ItemStands(s, i, obj, it)
    case More(it, pad, rest) =>
      var e := i + LenItem(obj, it);
      ItemStands(s, i, obj, it) && CharAt(s, e, ',') && WsAt(s, e + 1, pad) && ItemsStand(s, e + 1 + pad, obj, rest)
  }

  // ---- Texts and whitespace ----

  lemma {:induction false} AtFromIsEqual(s: string, i: nat, t: string, k: nat)
    requires i + |t| <= |s| && k <= |t|
    ensures AtFrom(s, i, t, k) <==> s[i + k..i + |t|] == t[k..]
    decreases |t| - k
  {
    if k < |t| {
      AtFromIsEqual(s, i, t, k + 1);
      assert s[i + k..i + |t|] == [s[i + k]] + s[i + k + 1..i + |t|];
      assert t[k..] == [t[k]] + t[k + 1..];
    }
  }

  lemma {:induction false} AtIsEqual(s: string, i: nat, t: string)
    ensures At(s, i, t) <==> i + |t| <= |s| && s[i..i + |t|] == t
  {
    if i + |t| <= |s| { AtFromIsEqual(s, i, t, 0); }
  }

  lemma {:induction false} AtFirst(s: string, i: nat, t: string)
    requires At(s, i, t) && t != ""
    ensures i < |s| && s[i] == t[0] && At(s, i + 1, t[1..])
  {
    AtIsEqual(s, i, t);
    AtIsEqual(s, i + 1, t[1..]);
    assert s[i + 1..i + |t|] == s[i..i + |t|][1..];
  }

  lemma {:induction false} AtPrefixed(s: string, i: nat, t: string)
    requires i < |s| && At(s, i + 1, t)
    ensures At(s, i, [s[i]] + t)
  {
    AtIsEqual(s, i + 1, t);
    AtIsEqual(s, i, [s[i]] + t);
    assert s[i..i + 1 + |t|] == [s[i]] + s[i + 1..i + 1 + |t|];
  }

  lemma {:induction false} WsFound(s: string, i: nat)
    requires i <= |s|
    ensures WsAt(s, i, SkipWs(s, i) - i)
    decreases |s| - i
  {
    if i < |s| && IsWs(s[i]) { WsFound(s, i + 1); }
  }

  lemma {:induction false} WsSkipped(s: string, i: nat, n: nat)
    requires WsAt(s, i, n) && (i + n < |s| ==> !IsWs(s[i + n]))
    ensures SkipWs(s, i) == i + n
    decreases n
  {
    if n > 0 { WsSkipped(s, i + 1, n - 1); }
  }

  // ---- Strings and words ----

  /** A body scanned from offset i, of which the scan has reached offset j. */
  lemma {:induction false} BodyScanned(s: string, i: nat, j: nat)
    requires i <= j <= |s| && BodyEnd(s, j).Some?
    ensures var e := BodyEnd(s, j).value - 1; j <= e < |s| && s[e] == '\"' && BodyOkFrom(s[i..e], j - i)
    decreases |s| - j
  {
    if s[j] == '\\' {
      BodyScanned(s, i, j + 2);
    } else if s[j] != '\"' {
      BodyScanned(s, i, j + 1);
    }
  }

  lemma {:induction false} BodyEnds(s: string, i: nat, body: string, k: nat)
    requires i + |body| < |s| && s[i..i + |body|] == body && s[i + |body|] == '\"' && k <= |body| && BodyOkFrom(body, k)
    ensures BodyEnd(s, i + k) == Some(i + |body| + 1)
    decreases |body| - k
  {
    if k < |body| {
      assert s[i + k] == body[k];
      BodyEnds(s, i, body, if body[k] == '\\' then k + 2 else k + 1);
    }
  }

  lemma {:induction false} StringFound(s: string, i: nat) returns (body: string)
    requires i <= |s| && StringEnd(s, i).Some?
    ensures BodyOk(body) && QuoteStands(s, i, body) && StringEnd(s, i).value == i + 2 + |body|
    ensures s[i + 1..StringEnd(s, i).value - 1] == body
  {
    BodyScanned(s, i + 1, i + 1);
    body := s[i + 1..StringEnd(s, i).value - 1];
    AtIsEqual(s, i + 1, body);
  }

  lemma {:induction false} StringEnds(s: string, i: nat, body: string)
    requires BodyOk(body) && QuoteStands(s, i, body)
    ensures StringEnd(s, i) == Some(i + 2 + |body|) && s[i + 1..i + 1 + |body|] == body
  {
    AtIsEqual(s, i + 1, body);
    BodyEnds(s, i + 1, body, 0);
  }

  lemma {:induction false} LiteralFound(s: string, i: nat, lit: string)
    requires i <= |s|
    ensures LiteralEnd(s, i, lit).Some? <==> At(s, i, lit)
    decreases |lit|
  {
    if lit != "" && i < |s| {
      if At(s, i, lit) { AtFirst(s, i, lit); }
      if s[i] == lit[0] && At(s, i + 1, lit[1..]) {
        AtPrefixed(s, i, lit[1..]);
        assert [s[i]] + lit[1..] == lit;
      }
      LiteralFound(s, i + 1, lit[1..]);
    }
  }

  // ---- Numbers ----

  lemma {:induction false} DigitsFound(s: string, i: nat) returns (t: string)
    requires i < |s| && IsDigit(s[i])
    ensures AllDigits(t) && At(s, i, t) && DigitsEnd(s, i) == i + |t|
    decreases |s| - i
  {
    if i + 1 < |s| && IsDigit(s[i + 1]) {
      var rest := DigitsFound(s, i + 1);
      t := [s[i]] + rest;
      AtPrefixed(s, i, rest);
    } else {
      t := [s[i]];
    }
  }

  lemma {:induction false} DigitsEnds(s: string, i: nat, t: string)
    requires (forall c :: c in t ==> IsDigit(c)) && At(s, i, t) && (i + |t| < |s| ==> !IsDigit(s[i + |t|]))
    ensures DigitsEnd(s, i) == i + |t|
    decreases |t|
  {
    if t != "" {
      AtFirst(s, i, t);
      DigitsEnds(s, i + 1, t[1..]);
    }
  }

  lemma {:induction false} SomeDigitsEnds(s: string, i: nat, t: string)
    requires AllDigits(t) && At(s, i, t) && (i + |t| < |s| ==> !IsDigit(s[i + |t|]))
    ensures SomeDigitsEnd(s, i) == Some(i + |t|) && i < |s| && IsDigit(s[i]) && s[i] == t[0]
  {
    AtFirst(s, i, t);
    DigitsEnds(s, i, t);
  }

  lemma {:induction false} WholeFound(s: string, i: nat) returns (t: string)
    requires i <= |s| && WholeEnd(s, i).Some?
    ensures WholeOk(t) && At(s, i, t) && WholeEnd(s, i).value == i + |t|
  {
    if s[i] == '0' {
      t := "0";
    } else {
      t := DigitsFound(s, i);
      AtFirst(s, i, t);
    }
  }

  lemma {:induction false} FracFound(s: string, i: nat) returns (f: Option<string>)
    requires i <= |s| && FracEnd(s, i).Some?
    ensures FracOk(f) && FracStands(s, i, f) && FracEnd(s, i).value == i + LenFrac(f)
  {
    if i < |s| && s[i] == '.' {
      var t := DigitsFound(s, i + 1);
      f := Some(t);
    } else {
      f := None;
    }
  }

  lemma {:induction false} ExpFound(s: string, i: nat) returns (e: Option<Exp>)
    requires i <= |s| && ExpEnd(s, i).Some?
    ensures ExpOk(e) && ExpStands(s, i, e) && ExpEnd(s, i).value == i + LenExp(e)
  {
    if i < |s| && (s[i] == 'e' || s[i] == 'E') {
      var signed := i + 1 < |s| && (s[i + 1] == '+' || s[i + 1] == '-');
      var sign := if signed then [s[i + 1]] else "";
      var t := DigitsFound(s, i + 1 + |sign|);
      e := Some(Exp(s[i], sign, t));
    } else {
      e := None;
    }
  }

  lemma {:induction false} TailFound(s: string, i: nat) returns (n: Num)
    requires i <= |s| && TailEnd(s, i).Some?
    ensures NumOk(n) && TailStands(s, i, n) && TailEnd(s, i).value == i + LenFrac(n.frac) + LenExp(n.exp)
  {
    var frac := FracFound(s, i);
    var exp := ExpFound(s, i + LenFrac(frac));
    n := Num(false, "0", frac, exp);
  }

  lemma {:induction false} NumberFound(s: string, i: nat) returns (n: Num)
    requires i <= |s| && NumberEnd(s, i).Some?
    ensures NumOk(n) && NumStands(s, i, n) && NumberEnd(s, i).value == i + LenNum(n)
  {
    var negative := i < |s| && s[i] == '-';
    var a := i + |Sign(negative)|;
    var whole := WholeFound(s, a);
    var tail := TailFound(s, a + |whole|);
    n := tail.(negative := negative, whole := whole);
  }

  /** What may follow a value in a valid text. */
  predicate Stops(s: string, e: nat) {
    e < |s| ==> IsWs(s[e]) || s[e] == ',' || s[e] == ']' || s[e] == '}'
  }

  lemma {:induction false} ExpEnds(s: string, i: nat, n: Num)
    requires NumOk(n) && i + LenExp(n.exp) <= |s| && ExpStands(s, i, n.exp) && Stops(s, i + LenExp(n.exp))
    ensures ExpEnd(s, i) == Some(i + LenExp(n.exp))
    ensures i < |s| ==> !IsDigit(s[i]) && s[i] != '.'
  {
    if n.exp.Some? {
      var x := n.exp.value;
      if x.sign != "" { AtFirst(s, i + 1, x.sign); }
      SomeDigitsEnds(s, i + 1 + |x.sign|, x.digits);
    }
  }

  lemma {:induction false} TailEnds(s: string, i: nat, n: Num)
    requires NumOk(n) && TailStands(s, i, n) && Stops(s, i + LenFrac(n.frac) + LenExp(n.exp))
    ensures TailEnd(s, i) == Some(i + LenFrac(n.frac) + LenExp(n.exp))
    ensures i < |s| ==> !IsDigit(s[i])
  {
    ExpEnds(s, i + LenFrac(n.frac), n);
    if n.frac.Some? { SomeDigitsEnds(s, i + 1, n.frac.value); }
  }

  lemma {:induction false} WholeEnds(s: string, i: nat, t: string)
    requires WholeOk(t) && At(s, i, t) && (i + |t| < |s| ==> !IsDigit(s[i + |t|]))
    ensures WholeEnd(s, i) == Some(i + |t|) && i < |s| && IsDigit(s[i])
  {
    SomeDigitsEnds(s, i, t);
  }

  lemma {:induction false} NumberEnds(s: string, i: nat, n: Num)
    requires NumOk(n) && NumStands(s, i, n) && Stops(s, i + LenNum(n))
    ensures NumberEnd(s, i) == Some(i + LenNum(n))
    ensures i < |s| && (s[i] == '-' || IsDigit(s[i]))
  {
    var a := i + |Sign(n.negative)|;
    TailEnds(s, a + |n.whole|, n);
    WholeEnds(s, a, n.whole);
  }
}
