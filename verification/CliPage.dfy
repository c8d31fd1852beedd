/**
 cli_page_policy.h: how much of an output line a reply page holds. Lines and
 pieces are byte sequences; a C string holds no NUL.
 */
module CliPage {
  import opened ByteStrings

  const CONT_COST: nat := 12
  const STR_OVERHEAD: nat := 3
  const PAGE_MARGIN: nat := 160

  function PageLimit(replyCap: nat): nat {
    if replyCap > PAGE_MARGIN then replyCap - PAGE_MARGIN else replyCap / 2
  }

  predicate NulFree(s: Bytes) { forall i :: 0 <= i < |s| ==> s[i] != 0 }

  // ---- Escaped size ----

  /** What the serializer writes for a byte inside a JSON string. */
  function Escaped(c: Byte): string {
    if c == 0x22 then "\\\""
    else if c == 0x5C then "\\\\"
    else if c == 8 then "\\b"
    else if c == 12 then "\\f"
    else if c == 10 then "\\n"
    else if c == 13 then "\\r"
    else if c == 9 then "\\t"
    else if c == 0 then "\\u0000"
    else [c as char]
  }

  function EscapedText(s: Bytes): string {
    if s == [] then "" else EscapedText(s[..|s| - 1]) + Escaped(s[|s| - 1])
  }

  function StrLen(s: Bytes): nat {
    if s == [] then 0 else StrLen(s[..|s| - 1]) + EscapeCost(s[|s| - 1])
  }

  lemma {:induction false} StrLenIsEscapedLength(s: Bytes)
    ensures StrLen(s) == |EscapedText(s)|
  {
    if s != [] { StrLenIsEscapedLength(s[..|s| - 1]); }
  }

  lemma {:induction false} StrLenNext(s: Bytes, m: nat)
    requires m < |s|
    ensures StrLen(s[..m + 1]) == StrLen(s[..m]) + EscapeCost(s[m])
  {
    assert s[..m + 1][..m] == s[..m];
  }

  lemma {:induction false} StrLenGrows(s: Bytes, m: nat, k: nat)
    requires m <= k <= |s|
    ensures StrLen(s[..m]) + (k - m) <= StrLen(s[..k])
    decreases k
  {
    if m < k {
      StrLenGrows(s, m, k - 1);
      StrLenNext(s, k - 1);
    }
  }

  method JsonStrLen(s: Bytes) returns (total: nat)
    ensures total == |EscapedText(s)| == StrLen(s)
  {
    total := 0;
    for i := 0 to |s|
      invariant total == StrLen(s[..i])
    {
      StrLenNext(s, i);
      total := total + EscapeCost(s[i]);
    }
    assert s[..|s|] == s;
    StrLenIsEscapedLength(s);
  }

  // ---- Cutting on a character boundary ----

  predicate IsTail(c: Byte) { 0x80 <= c < 0xC0 }

  /** The length a lead byte announces. */
  function Announced(c: Byte): nat {
    if 0xC0 <= c < 0xE0 then 2 else if 0xE0 <= c < 0xF0 then 3 else if 0xF0 <= c < 0xF8 then 4 else 1
  }

  /** The cut of s[..n], once the last `back` bytes are known to be tail bytes. */
  function CutFrom(s: Bytes, n: nat, back: nat): (m: nat)
    requires n <= |s| && back <= n && back <= 4
    ensures m <= n
    decreases 4 - back
  {
    if back == 4 || back == n then n
    else if IsTail(s[n - 1 - back]) then CutFrom(s, n, back + 1)
    else if Announced(s[n - 1 - back]) > back + 1 then n - 1 - back
    else n
  }

  method Utf8Cut(s: Bytes, n: nat) returns (m: nat)
    requires n <= |s|
    ensures m == CutFrom(s, n, 0)
  {
    var back := 0;
    while back < 4 && back < n
      invariant back <= 4 && back <= n && CutFrom(s, n, back) == CutFrom(s, n, 0)
    {
      var c := s[n - 1 - back];
      if IsTail(c) { back := back + 1; continue; }
      return if Announced(c) > back + 1 then n - 1 - back else n;
    }
    return n;
  }

  /** At most three bytes go, and only the start of a longer sequence. */
  lemma {:induction false} CutDrops(s: Bytes, n: nat, back: nat)
    requires n <= |s| && back <= n && back <= 4
    requires forall i :: n - back <= i < n ==> IsTail(s[i])
    ensures var m := CutFrom(s, n, back);
            m < n ==> n - m <= 3 && Announced(s[m]) > n - m && forall i :: m < i < n ==> IsTail(s[i])
    decreases 4 - back
  {
    if back < 4 && back < n && IsTail(s[n - 1 - back]) { CutDrops(s, n, back + 1); }
  }

  // ---- UTF-8, section 4 of RFC 3629 ----

  /** The length of the character that starts at i and ends by b, or 0. */
  function CharLen(s: Bytes, i: nat, b: nat): (k: nat)
    requires i < b <= |s|
    ensures k <= 4 && i + k <= b
  {
    var c := s[i];
    if c < 0x80 then 1
    else if 0xC2 <= c <= 0xDF && i + 1 < b && IsTail(s[i + 1]) then 2
    else if 0xE0 <= c <= 0xEF && i + 2 < b && IsTail(s[i + 1]) && IsTail(s[i + 2])
            && (c == 0xE0 ==> 0xA0 <= s[i + 1]) && (c == 0xED ==> s[i + 1] <= 0x9F) then 3
    else if 0xF0 <= c <= 0xF4 && i + 3 < b && IsTail(s[i + 1]) && IsTail(s[i + 2]) && IsTail(s[i + 3])
            && (c == 0xF0 ==> 0x90 <= s[i + 1]) && (c == 0xF4 ==> s[i + 1] <= 0x8F) then 4
    else 0
  }

  /** s[i..b] is a sequence of whole characters. */
  predicate Chars(s: Bytes, i: nat, b: nat)
    requires i <= b <= |s|
    decreases b - i
  {
    i == b || (CharLen(s, i, b) > 0 && Chars(s, i + CharLen(s, i, b), b))
  }

  predicate Utf8(s: Bytes) { Chars(s, 0, |s|) }

  lemma {:induction false} CharsOfSlice(s: Bytes, t: Bytes, i: nat, b: nat, from: nat)
    requires from <= i <= b <= |s| && b - from <= |t|
    requires forall k :: i <= k < b ==> t[k - from] == s[k]
    ensures Chars(s, i, b) <==> Chars(t, i - from, b - from)
    decreases b - i
  {
    if i < b {
      var k := CharLen(s, i, b);
      assert k == CharLen(t, i - from, b - from);
      if k > 0 { CharsOfSlice(s, t, i + k, b, from); }
    }
  }

  /** A cut at the end of a character stays, a cut inside goes back to its start. */
  lemma {:induction false} CutInChar(s: Bytes, i: nat, n: nat, b: nat)
    requires i < b <= |s| && CharLen(s, i, b) > 0 && i < n <= i + CharLen(s, i, b)
    ensures CutFrom(s, n, 0) == if n == i + CharLen(s, i, b) then n else i
  {
    var back := n - 1 - i;
    assert forall k :: i < k < n ==> IsTail(s[k]);
    BackOver(s, n, 0, back);
  }

  lemma {:induction false} BackOver(s: Bytes, n: nat, back: nat, to: nat)
    requires n <= |s| && back <= to < n && to <= 3
    requires forall k :: n - 1 - to < k < n ==> IsTail(s[k])
    ensures CutFrom(s, n, back) == CutFrom(s, n, to)
    decreases n - back
  {
    if back < to { BackOver(s, n, back + 1, to); }
  }

  /** In whole characters, the cut is the last boundary at or before n. */
  lemma {:induction false} CutIsBoundary(s: Bytes, i: nat, n: nat, b: nat)
    requires i < n <= b <= |s| && Chars(s, i, b)
    ensures var c := CutFrom(s, n, 0);
            && i <= c && Chars(s, i, c) && Chars(s, c, b)
            && forall m :: c < m <= n ==> !Chars(s, i, m)
    decreases b - i
  {
    var k := CharLen(s, i, b);
    var c := CutFrom(s, n, 0);
    if n <= i + k {
      CutInChar(s, i, n, b);
      if n == i + k { assert CharLen(s, i, n) == k; }
    } else {
      CutIsBoundary(s, i + k, n, b);
      assert c > i ==> CharLen(s, i, c) == k;
      forall m | c < m <= n ensures !Chars(s, i, m) {
        assert CharLen(s, i, m) == k;
      }
    }
  }

  /** Cutting a valid string leaves two valid strings, and no later cut would. */
  lemma {:induction false} CutKeepsUtf8(s: Bytes, n: nat)
    requires Utf8(s) && n <= |s|
    ensures var c := CutFrom(s, n, 0);
            Utf8(s[..c]) && Utf8(s[c..]) && forall m :: c < m <= n ==> !Utf8(s[..m])
  {
    var c := CutFrom(s, n, 0);
    assert Chars(s, 0, c) && Chars(s, c, |s|) && forall m :: c < m <= n ==> !Chars(s, 0, m) by {
      if n > 0 { CutIsBoundary(s, 0, n, |s|); }
    }
    SlicesUtf8(s, c);
    forall m | c < m <= n ensures !Utf8(s[..m]) { SlicesUtf8(s, m); }
  }

  lemma {:induction false} SlicesUtf8(s: Bytes, c: nat)
    requires c <= |s|
    ensures Utf8(s[..c]) <==> Chars(s, 0, c)
    ensures Utf8(s[c..]) <==> Chars(s, c, |s|)
  {
    CharsOfSlice(s, s[..c], 0, c, 0);
    CharsOfSlice(s, s[c..], c, |s|, c);
  }

  // ---- The piece that fits ----

  /** The longest prefix whose escaped size fits, counted on from m. */
  function FitFrom(s: Bytes, budget: nat, m: nat): (k: nat)
    requires m <= |s| && StrLen(s[..m]) <= budget
    ensures m <= k <= |s|
    decreases |s| - m
  {
    if m < |s| && StrLen(s[..m]) + EscapeCost(s[m]) <= budget then
      StrLenNext(s, m);
      FitFrom(s, budget, m + 1)
    else m
  }

  function FitLen(s: Bytes, budget: nat): (k: nat)
    ensures k <= |s|
  {
    FitFrom(s, budget, 0)
  }

  lemma {:induction false} FitFromIsLongest(s: Bytes, budget: nat, m: nat)
    requires m <= |s| && StrLen(s[..m]) <= budget
    ensures var k := FitFrom(s, budget, m);
            StrLen(s[..k]) <= budget && (k < |s| ==> StrLen(s[..k]) + EscapeCost(s[k]) > budget)
    decreases |s| - m
  {
    if m < |s| && StrLen(s[..m]) + EscapeCost(s[m]) <= budget {
      StrLenNext(s, m);
      FitFromIsLongest(s, budget, m + 1);
    }
  }

  /** A prefix fits exactly when it is no longer than FitLen. */
  lemma {:induction false} FitLenIsLongest(s: Bytes, budget: nat, m: nat)
    requires m <= |s|
    ensures StrLen(s[..m]) <= budget <==> m <= FitLen(s, budget)
  {
    var k := FitLen(s, budget);
    FitFromIsLongest(s, budget, 0);
    if m <= k { StrLenGrows(s, m, k); }
    else {
      StrLenNext(s, k);
      StrLenGrows(s, k + 1, m);
    }
  }

  function PieceLen(s: Bytes, budget: nat): (m: nat)
    ensures m <= |s|
  {
    var k := FitLen(s, budget);
    if k == |s| then k else CutFrom(s, k, 0)
  }

  method JsonFit(s: Bytes, budget: nat) returns (n: nat)
    ensures n == PieceLen(s, budget)
  {
    var used, m := 0, 0;
    while m < |s|
      invariant m <= |s| && used == StrLen(s[..m]) <= budget && FitFrom(s, budget, m) == FitLen(s, budget)
    {
      var c := EscapeCost(s[m]);
      if used + c > budget { break; }
      StrLenNext(s, m);
      used := used + c;
      m := m + 1;
    }
    if m == |s| { return m; }
    n := Utf8Cut(s, m);
  }

  datatype Piece = Piece(len: nat, split: bool)

  function NextPieceOf(s: Bytes, pageUsed: nat, limit: nat): (p: Piece)
    ensures p.len <= |s|
  {
    var used := pageUsed + STR_OVERHEAD;
    var room := if used < limit then limit - used else 0;
    if used <= limit && StrLen(s) <= room then Piece(|s|, false)
    else Piece(if room > CONT_COST then PieceLen(s, room - CONT_COST) else 0, true)
  }

  method NextPiece(s: Bytes, pageUsed: nat, limit: nat) returns (p: Piece)
    ensures p == NextPieceOf(s, pageUsed, limit)
  {
    var used := pageUsed + STR_OVERHEAD;
    var room := if used < limit then limit - used else 0;
    var size := JsonStrLen(s);
    if used <= limit && size <= room { return Piece(|s|, false); }
    var n := 0;
    if room > CONT_COST { n := JsonFit(s, room - CONT_COST); }
    p := Piece(n, true);
  }

  /** The piece fits, with the cont member when it is split. */
  lemma {:induction false} PieceFits(s: Bytes, pageUsed: nat, limit: nat)
    ensures var p := NextPieceOf(s, pageUsed, limit);
            && (!p.split ==> p.len == |s|)
            && (!p.split || p.len > 0 ==>
                  pageUsed + STR_OVERHEAD + StrLen(s[..p.len]) + (if p.split then CONT_COST else 0) <= limit)
  {
    var p := NextPieceOf(s, pageUsed, limit);
    assert s[..|s|] == s;
    if p.split && p.len > 0 { FitLenIsLongest(s, limit - pageUsed - STR_OVERHEAD - CONT_COST, p.len); }
  }

  lemma {:induction false} PieceKeepsUtf8(s: Bytes, pageUsed: nat, limit: nat)
    requires Utf8(s)
    ensures var p := NextPieceOf(s, pageUsed, limit); Utf8(s[..p.len]) && Utf8(s[p.len..])
  {
    var p := NextPieceOf(s, pageUsed, limit);
    if p.len == 0 || p.len == |s| {
      assert s[..|s|] == s;
    } else {
      CutKeepsUtf8(s, FitLen(s, limit - pageUsed - STR_OVERHEAD - CONT_COST));
    }
  }

  /** Of a valid string, the longest whole-character prefix that fits. */
  lemma {:induction false} PieceIsLongest(s: Bytes, budget: nat, m: nat)
    requires Utf8(s) && m <= |s| && Utf8(s[..m]) && StrLen(s[..m]) <= budget
    ensures m <= PieceLen(s, budget) && StrLen(s[..PieceLen(s, budget)]) <= budget
  {
    FitLenIsLongest(s, budget, m);
    FitLenIsLongest(s, budget, PieceLen(s, budget));
    CutKeepsUtf8(s, FitLen(s, budget));
  }

  /** Of any string, at most three bytes fewer than fit. */
  lemma {:induction false} PieceIsNearlyLongest(s: Bytes, budget: nat, m: nat)
    requires m <= |s| && StrLen(s[..m]) <= budget
    ensures m <= PieceLen(s, budget) + 3 && (StrLen(s) <= budget ==> PieceLen(s, budget) == |s|)
  {
    FitLenIsLongest(s, budget, m);
    CutDrops(s, FitLen(s, budget), 0);
    assert s[..|s|] == s;
    FitLenIsLongest(s, budget, |s|);
  }

  // ---- How much room a page must have ----

  lemma {:induction false} FiveIsEnough(s: Bytes, budget: nat)
    requires NulFree(s) && s != [] && budget >= 5
    ensures PieceLen(s, budget) > 0
  {
    var k := FitLen(s, budget);
    FitFromIsLongest(s, budget, 0);
    if k < |s| {
      CutDrops(s, k, 0);
      if k > 0 && CutFrom(s, k, 0) == 0 {
        OneByteEach(s, k);
        assert false;
      }
    }
  }

  /** A lead byte and its tail bytes take one byte each. */
  lemma {:induction false} OneByteEach(s: Bytes, k: nat)
    requires k <= |s| && forall i :: 0 <= i < k ==> s[i] >= 0x80
    ensures StrLen(s[..k]) == k
    decreases k
  {
    if k > 0 {
      StrLenNext(s, k - 1);
      OneByteEach(s, k - 1);
    }
  }

  lemma {:induction false} FourIsEnoughForUtf8(s: Bytes, budget: nat)
    requires NulFree(s) && s != [] && Utf8(s) && budget >= 4
    ensures PieceLen(s, budget) > 0
  {
    var k := FitLen(s, budget);
    var first := CharLen(s, 0, |s|);
    FitFromIsLongest(s, budget, 0);
    if k < |s| {
      if first > 1 { OneByteEach(s, first); } else { StrLenNext(s, 0); }
      FitLenIsLongest(s, budget, first);
      CutIsBoundary(s, 0, k, |s|);
      if CutFrom(s, k, 0) == 0 {
        assert CharLen(s, 0, first) == first;
        assert Chars(s, 0, first);
        assert false;
      }
    }
  }

  /** The start of a four-byte character, then bytes that take two each. */
  function Stuck(): Bytes { [0xF0, 0x80, 0x80] + seq(20, _ => 0x22) }

  /** One four-byte character over and over. */
  function Smileys(): Bytes { seq(80, i => [0xF0, 0x9F, 0x98, 0x80][i % 4]) }

  lemma {:induction false} StuckIsStuck(budget: nat)
    requires budget <= 4
    ensures PieceLen(Stuck(), budget) == 0
  {
    var s := Stuck();
    OneByteEach(s, if budget < 3 then budget else 3);
    FitLenIsLongest(s, budget, if budget < 3 then budget else 3);
    if budget < 3 { OneByteEach(s, budget + 1); } else { StrLenNext(s, 3); }
    FitLenIsLongest(s, budget, if budget < 3 then budget + 1 else 4);
    if budget > 0 { BackOver(s, FitLen(s, budget), 0, FitLen(s, budget) - 1); }
  }

  lemma {:induction false} SmileysAreChars(i: nat)
    requires i <= 80 && i % 4 == 0
    ensures Chars(Smileys(), i, 80)
    decreases 80 - i
  {
    if i < 80 { SmileysAreChars(i + 4); }
  }

  lemma {:induction false} SmileysAreStuck(budget: nat)
    requires budget <= 3
    ensures PieceLen(Smileys(), budget) == 0
  {
    var s := Smileys();
    OneByteEach(s, budget);
    FitLenIsLongest(s, budget, budget);
    OneByteEach(s, budget + 1);
    FitLenIsLongest(s, budget, budget + 1);
    if budget > 0 { BackOver(s, budget, 0, budget - 1); }
  }

  /** No piece of the line goes on a page of this size, and the line does not fit it. */
  predicate Drops(s: Bytes, pageUsed: nat, limit: nat) {
    NextPieceOf(s, pageUsed, limit) == Piece(0, true)
  }

  lemma {:induction false} LongDrops(s: Bytes, pageUsed: nat, limit: nat)
    requires |s| >= 20 && limit <= pageUsed + 19
    requires pageUsed + STR_OVERHEAD + CONT_COST < limit ==>
               PieceLen(s, limit - pageUsed - STR_OVERHEAD - CONT_COST) == 0
    ensures Drops(s, pageUsed, limit)
  {
    assert s[..|s|] == s && s[..0] == [];
    StrLenGrows(s, 0, |s|);
  }

  lemma {:induction false} StuckDrops(pageUsed: nat, limit: nat)
    requires limit < pageUsed + 20
    ensures NulFree(Stuck()) && Drops(Stuck(), pageUsed, limit)
  {
    if pageUsed + STR_OVERHEAD + CONT_COST < limit {
      StuckIsStuck(limit - pageUsed - STR_OVERHEAD - CONT_COST);
    }
    LongDrops(Stuck(), pageUsed, limit);
  }

  lemma {:induction false} SmileysDrop(pageUsed: nat, limit: nat)
    requires limit < pageUsed + 19
    ensures NulFree(Smileys()) && Drops(Smileys(), pageUsed, limit)
  {
    if pageUsed + STR_OVERHEAD + CONT_COST < limit {
      SmileysAreStuck(limit - pageUsed - STR_OVERHEAD - CONT_COST);
    }
    LongDrops(Smileys(), pageUsed, limit);
  }

  /** Every line makes progress on a page exactly when it has 20 bytes left. */
  lemma {:induction false} TwentyIsExact(pageUsed: nat, limit: nat)
    ensures (forall s: Bytes :: NulFree(s) ==> !Drops(s, pageUsed, limit)) <==> pageUsed + 20 <= limit
  {
    if pageUsed + 20 <= limit {
      forall s: Bytes | NulFree(s) ensures !Drops(s, pageUsed, limit) {
        if s != [] { FiveIsEnough(s, limit - pageUsed - STR_OVERHEAD - CONT_COST); }
      }
    } else {
      StuckDrops(pageUsed, limit);
    }
  }

  /** For valid UTF-8 it is 19. */
  lemma {:induction false} NineteenIsExactForUtf8(pageUsed: nat, limit: nat)
    ensures (forall s: Bytes :: NulFree(s) && Utf8(s) ==> !Drops(s, pageUsed, limit)) <==> pageUsed + 19 <= limit
  {
    if pageUsed + 19 <= limit {
      forall s: Bytes | NulFree(s) && Utf8(s) ensures !Drops(s, pageUsed, limit) {
        if s != [] { FourIsEnoughForUtf8(s, limit - pageUsed - STR_OVERHEAD - CONT_COST); }
      }
    } else {
      SmileysDrop(pageUsed, limit);
      SmileysAreChars(0);
    }
  }
}
