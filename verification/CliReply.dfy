/**
 The paging loop of MQTTClient::runCli: output lines go out on numbered pages,
 a line no page holds in pieces, and the reader puts the pieces back together.
 */
module CliReply {
  import opened Options
  import opened ByteStrings
  import opened CliPage

  datatype Page = Page(number: nat, ok: bool, output: seq<Bytes>, cont: bool, more: Option<bool>)

  // ---- The text of a page ----

  function Decimal(n: nat): string {
    (if n < 10 then "" else Decimal(n / 10)) + [(48 + n % 10) as char]
  }

  function Bool(b: bool): string { if b then "true" else "false" }

  function Items(output: seq<Bytes>): string {
    if output == [] then ""
    else
      var last := "\"" + EscapedText(output[|output| - 1]) + "\"";
      if |output| == 1 then last else Items(output[..|output| - 1]) + "," + last
  }

  /** The page as it is serialized; intro is its text up to the ok member. */
  function Text(intro: string, p: Page): string {
    intro + ",\"ok\":" + Bool(p.ok) + ",\"page\":" + Decimal(p.number) + ",\"output\":[" + Items(p.output) + "]"
    + (if p.cont then ",\"cont\":true" else "")
    + (if p.more.Some? then ",\"more\":" + Bool(p.more.value) else "") + "}"
  }

  // ---- Its size ----

  function ItemsSize(output: seq<Bytes>): nat {
    if output == [] then 0
    else ItemsSize(output[..|output| - 1]) + StrLen(output[|output| - 1]) + (if |output| == 1 then 2 else 3)
  }

  function EmptySize(intro: string, number: nat): nat { |intro| + |Decimal(number)| + 31 }

  function Size(intro: string, p: Page): nat {
    EmptySize(intro, p.number) + ItemsSize(p.output) + (if p.ok then 0 else 1) + (if p.cont then CONT_COST else 0)
    + (if p.more == Some(true) then 12 else if p.more == Some(false) then 13 else 0)
  }

  lemma {:induction false} ItemsSizeIsLength(output: seq<Bytes>)
    ensures ItemsSize(output) == |Items(output)|
  {
    if output != [] {
      ItemsSizeIsLength(output[..|output| - 1]);
      StrLenIsEscapedLength(output[|output| - 1]);
    }
  }

  lemma {:induction false} SizeIsLength(intro: string, p: Page)
    ensures Size(intro, p) == |Text(intro, p)|
  {
    ItemsSizeIsLength(p.output);
  }

  // ---- The reader ----

  /** What a reader holds: the lines that are whole, and the start of one that continues. */
  datatype Inbox = Inbox(lines: seq<Bytes>, part: Bytes)

  function TakeString(box: Inbox, s: Bytes, cont: bool): Inbox {
    if cont then Inbox(box.lines, box.part + s) else Inbox(box.lines + [box.part + s], [])
  }

  /** The strings of a page in order; with cont, the last one continues. */
  function TakeOutput(box: Inbox, output: seq<Bytes>, cont: bool): Inbox {
    if output == [] then box
    else TakeString(TakeOutput(box, output[..|output| - 1], false), output[|output| - 1], cont)
  }

  function TakePages(pages: seq<Page>): Inbox {
    if pages == [] then Inbox([], [])
    else TakeOutput(TakePages(pages[..|pages| - 1]), pages[|pages| - 1].output, pages[|pages| - 1].cont)
  }

  lemma TakeAnother(pages: seq<Page>, p: Page)
    ensures TakePages(pages + [p]) == TakeOutput(TakePages(pages), p.output, p.cont)
  {
    assert (pages + [p])[..|pages|] == pages;
  }

  lemma TakeAnotherString(box: Inbox, output: seq<Bytes>, s: Bytes, cont: bool)
    ensures TakeOutput(box, output + [s], cont) == TakeString(TakeOutput(box, output, false), s, cont)
    ensures ItemsSize(output + [s]) <= ItemsSize(output) + StrLen(s) + STR_OVERHEAD
  {
    assert (output + [s])[..|output|] == output;
  }

  lemma AddNothing(box: Inbox)
    ensures TakeString(box, [], true) == box
  {
    assert box.part + [] == box.part;
  }

  lemma Further(box: Inbox, line: Bytes, k: nat, n: nat, cont: bool)
    requires k + n <= |line|
    ensures TakeString(TakeString(box, line[..k], true), line[k..][..n], cont) == TakeString(box, line[..k + n], cont)
    ensures line[k..][n..] == line[k + n..]
  {
    assert line[..k + n] == line[..k] + line[k..][..n];
    assert box.part + line[..k] + line[k..][..n] == box.part + line[..k + n];
  }

  // ---- The loop ----

  /** Every page is numbered in order and its text is below the cap. */
  ghost predicate Fit(intro: string, cap: nat, pages: seq<Page>) {
    forall k :: 0 <= k < |pages| ==> pages[k].number == k && |Text(intro, pages[k])| < cap
  }

  lemma SizesFit(intro: string, cap: nat, pages: seq<Page>)
    requires Numbered(intro, cap, pages)
    ensures Fit(intro, cap, pages)
  {
    forall k | 0 <= k < |pages| ensures |Text(intro, pages[k])| < cap { SizeIsLength(intro, pages[k]); }
  }

  predicate AllUtf8(pages: seq<Page>) {
    forall k, j :: 0 <= k < |pages| && 0 <= j < |pages[k].output| ==> Utf8(pages[k].output[j])
  }

  /** Pages up to number n have 20 bytes to spare while they are empty. */
  predicate Roomy(intro: string, cap: nat, n: nat) {
    forall k :: 0 <= k <= n ==> EmptySize(intro, k) + 20 <= PageLimit(cap)
  }

  /** All pages but the last say ok and more; the last says how the command ended. */
  predicate Closed(pages: seq<Page>, ok: bool) {
    && pages != [] && pages[|pages| - 1].ok == ok && pages[|pages| - 1].more == Some(false)
    && forall k :: 0 <= k < |pages| - 1 ==> pages[k].ok && pages[k].more == Some(true)
  }

  datatype Turned = Flushed | NoRoom | Took(n: nat, split: bool)
  {
    predicate Whole() { Took? && !split }
    predicate Goes() { Flushed? || (Took? && split) }
  }

  predicate Numbered(intro: string, cap: nat, pages: seq<Page>) {
    forall k :: 0 <= k < |pages| ==> pages[k].number == k && Size(intro, pages[k]) < cap
  }

  /** A last page behind pages that all say more. */
  lemma CloseWith(intro: string, cap: nat, pages: seq<Page>, p: Page)
    requires Numbered(intro, cap, pages) && forall k :: 0 <= k < |pages| ==> pages[k].ok && pages[k].more == Some(true)
    requires p.number == |pages| && p.more == Some(false)
    ensures Closed(pages + [p], p.ok) && (Size(intro, p) < cap ==> Numbered(intro, cap, pages + [p]))
    ensures AllUtf8(pages) && (forall j :: 0 <= j < |p.output| ==> Utf8(p.output[j])) ==> AllUtf8(pages + [p])
  {}

  class Pager {
    const intro: string
    const cap: nat
    var sent: seq<Page>
    var number: nat
    var output: seq<Bytes>
    var dropped: bool

    constructor (intro: string, cap: nat)
      ensures this.intro == intro && this.cap == cap && !dropped && Valid() && Received() == Inbox([], [])
      ensures sent == [] && output == [] && number == 0 && ValidUtf8()
    {
      this.intro, this.cap := intro, cap;
      sent, number, output, dropped := [], 0, [], false;
    }

    ghost function Received(): Inbox
      reads this`sent, this`output
    {
      TakeOutput(TakePages(sent), output, false)
    }

    function Draft(): Page
      reads this`number, this`output
    {
      Page(number, true, output, false, None)
    }

    ghost predicate Valid()
      reads this`sent, this`number, this`output
    {
      && |sent| == number
      && Numbered(intro, cap, sent)
      && (forall k :: 0 <= k < |sent| ==> sent[k].ok && sent[k].more == Some(true) && sent[k].output != [])
      && (output != [] ==> Size(intro, Draft()) <= PageLimit(cap))
    }

    /** 1 when the page under construction holds something. */
    function Begun(): nat
      reads this`output
    {
      if output == [] then 0 else 1
    }

    /** The page under construction has room for the whole text. */
    predicate Holds(s: Bytes)
      reads this`number, this`output
    {
      Size(intro, Draft()) + STR_OVERHEAD + StrLen(s) <= PageLimit(cap)
    }

    ghost predicate ValidUtf8()
      reads this`sent, this`output
    {
      AllUtf8(sent) && forall j :: 0 <= j < |output| ==> Utf8(output[j])
    }

    /** A page that holds output and was measured against the limit is below the cap. */
    lemma NeverRefused(p: Page)
      requires Size(intro, p.(ok := true, more := None)) <= PageLimit(cap) && p.more.Some?
      ensures Size(intro, p) < cap
    {}

    /** Ships a page if it is below the cap. */
    method Publish(p: Page)
      modifies this`sent
      ensures sent == if Size(intro, p) < cap then old(sent) + [p] else old(sent)
    {
      if Size(intro, p) < cap { sent := sent + [p]; }
    }

    /** Ships the page with more to come and starts the next one. */
    method Flush(cont: bool)
      requires Valid() && output != []
      requires cont ==> Size(intro, Draft()) + CONT_COST <= PageLimit(cap)
      modifies this`sent, this`number, this`output
      ensures Valid() && number == old(number) + 1 && output == []
      ensures Received() == TakeOutput(TakePages(old(sent)), old(output), cont)
      ensures old(ValidUtf8()) ==> ValidUtf8()
    {
      var page := Page(number, true, output, cont, Some(true));
      NeverRefused(page);
      TakeAnother(sent, page);
      Publish(page);
      number, output := number + 1, [];
    }

    /** Puts a string on the page; one that continues ends its page. */
    method Add(s: Bytes, cont: bool)
      requires Valid()
      requires Size(intro, Draft()) + STR_OVERHEAD + StrLen(s) + (if cont then CONT_COST else 0) <= PageLimit(cap)
      modifies this`sent, this`number, this`output
      ensures Valid() && number == old(number) + (if cont then 1 else 0)
      ensures Received() == TakeString(old(Received()), s, cont)
      ensures !cont ==> sent == old(sent) && output == old(output) + [s]
      ensures old(ValidUtf8()) && Utf8(s) ==> ValidUtf8()
    {
      TakeAnotherString(TakePages(sent), output, s, cont);
      output := output + [s];
      if cont { Flush(true); }
    }

    /** How much of the text goes on this page. */
    method Cut(rest: Bytes) returns (piece: Piece)
      requires NulFree(rest)
      ensures piece.len <= |rest| && (!piece.split ==> piece.len == |rest|)
      ensures !piece.split || piece.len > 0 ==>
                Size(intro, Draft()) + STR_OVERHEAD + StrLen(rest[..piece.len])
                + (if piece.split then CONT_COST else 0) <= PageLimit(cap)
      ensures piece == Piece(0, true) && output == [] ==> !Roomy(intro, cap, number)
      ensures piece.split <==> !Holds(rest)
      ensures Utf8(rest) ==> Utf8(rest[..piece.len]) && Utf8(rest[piece.len..])
    {
      var used := Size(intro, Draft());
      piece := NextPiece(rest, used, PageLimit(cap));
      PieceFits(rest, used, PageLimit(cap));
      TwentyIsExact(used, PageLimit(cap));
      if Utf8(rest) { PieceKeepsUtf8(rest, used, PageLimit(cap)); }
    }

    /** One turn of the loop: a page went out, nothing fits, or a piece was taken. */
    method Turn(rest: Bytes) returns (t: Turned)
      requires Valid() && NulFree(rest)
      modifies this`sent, this`number, this`output
      ensures Valid() && (t.Took? ==> t.n <= |rest|)
      ensures Received() == if t.Took? then TakeString(old(Received()), rest[..t.n], t.split) else old(Received())
      ensures t.Flushed? ==> old(output) != [] && output == [] && number == old(number) + 1
      ensures t.NoRoom? ==> number == old(number) && !Roomy(intro, cap, number)
      ensures t.Took? && t.split ==> t.n > 0 && old(output) == [] && output == [] && number == old(number) + 1
      ensures t.Took? && !t.split ==> t.n == |rest| && number == old(number) && sent == old(sent)
      ensures t.Took? && !t.split ==> output == old(output) + [rest]
      ensures old(Holds(rest)) ==> t.Took? && !t.split
      ensures old(ValidUtf8()) && Utf8(rest) ==> ValidUtf8() && (t.Took? ==> Utf8(rest[t.n..]))
    {
      var piece := Cut(rest);
      if piece.split && |output| > 0 {
        Flush(false);
        return Flushed;
      }
      if piece.split && piece.len == 0 { return NoRoom; }
      assert !piece.split ==> rest[..piece.len] == rest;
      Add(rest[..piece.len], piece.split);
      return Took(piece.len, piece.split);
    }

    /** The turn that starts k bytes into the line, with those read already. */
    method Onward(line: Bytes, k: nat, ghost was: Inbox) returns (t: Turned, next: nat)
      requires Valid() && NulFree(line) && k <= |line| && Received() == TakeString(was, line[..k], true)
      modifies this`sent, this`number, this`output
      ensures Valid() && k <= next <= |line| && number >= old(number)
      ensures Received() == TakeString(was, line[..next], !t.Whole())
      ensures number + |line| - next + (if t.Goes() then Begun() else 0) <= old(number) + |line| - k + old(Begun())
      ensures t.NoRoom? ==> !Roomy(intro, cap, number)
      ensures t.Whole() ==> next == |line|
      ensures t.Goes() ==> next > k || Begun() < old(Begun())
      ensures k == 0 && old(Holds(line)) ==>
                t.Whole() && number == old(number) && sent == old(sent) && output == old(output) + [line]
      ensures old(ValidUtf8()) && Utf8(line[k..]) ==> ValidUtf8() && Utf8(line[next..])
    {
      t := Turn(line[k..]);
      next := k;
      if t.Took? {
        Further(was, line, k, t.n, t.split);
        next := k + t.n;
      }
      assert k == 0 ==> line[k..] == line;
    }

    /** One output line. It is read back whole, or dropped on a page without room for any more of it. */
    method Line(line: Bytes) returns (ghost kept: bool, ghost got: Bytes)
      requires Valid() && NulFree(line)
      modifies this`sent, this`number, this`output, this`dropped
      ensures Valid() && dropped == (old(dropped) || !kept) && old(number) <= number <= old(number) + |line| + 1
      ensures got <= line && Received() == TakeString(old(Received()), got, !kept)
      ensures if kept then got == line else !Roomy(intro, cap, number)
      ensures old(Holds(line)) ==> number == old(number) && sent == old(sent) && output == old(output) + [line]
      ensures old(ValidUtf8()) && Utf8(line) ==> ValidUtf8()
    {
      ghost var was, utf8, fits := Received(), ValidUtf8() && Utf8(line), Holds(line);
      AddNothing(was);
      var t, k := Onward(line, 0, was);
      while t.Goes()
        invariant Valid() && k <= |line| && number >= old(number) && dropped == old(dropped)
        invariant Received() == TakeString(was, line[..k], !t.Whole())
        invariant number + |line| - k + (if t.Goes() then Begun() else 0) <= old(number) + |line| + 1
        invariant t.NoRoom? ==> !Roomy(intro, cap, number)
        invariant t.Whole() ==> k == |line|
        invariant fits ==> t.Whole() && number == old(number) && sent == old(sent) && output == old(output) + [line]
        invariant utf8 ==> ValidUtf8() && Utf8(line[k..])
        decreases t.Goes(), |line| - k, Begun()
      {
        t, k := Onward(line, k, was);
      }
      if t.NoRoom? { dropped := true; }
      return t.Whole(), line[..k];
    }

    /** The last page. Only one without output can be refused. */
    method Finish(ok: bool)
      requires Valid()
      modifies this`sent
      ensures Numbered(intro, cap, sent)
      ensures number <= |sent| <= number + 1 && TakePages(sent) == old(Received())
      ensures || (sent == old(sent) && output == [] && !Roomy(intro, cap, number))
              || (Closed(sent, ok && !dropped)
                  && sent == old(sent) + [Page(number, ok && !dropped, output, false, Some(false))])
      ensures old(ValidUtf8()) ==> AllUtf8(sent)
    {
      var page := Page(number, ok && !dropped, output, false, Some(false));
      if output != [] || Roomy(intro, cap, number) { NeverRefused(page); }
      TakeAnother(sent, page);
      CloseWith(intro, cap, sent, page);
      Publish(page);
    }
  }

  /** A page for each line and each of its bytes, and a last one: no reply has more. */
  function MostPages(lines: seq<Bytes>): nat {
    if lines == [] then 1 else MostPages(lines[..|lines| - 1]) + |lines[|lines| - 1]| + 1
  }

  predicate LinesNulFree(lines: seq<Bytes>) { forall i :: 0 <= i < |lines| ==> NulFree(lines[i]) }

  predicate LinesUtf8(lines: seq<Bytes>) { forall i :: 0 <= i < |lines| ==> Utf8(lines[i]) }

  /** The lines with quotes and commas. */
  function LinesSize(lines: seq<Bytes>): nat {
    if lines == [] then 0 else LinesSize(lines[..|lines| - 1]) + StrLen(lines[|lines| - 1]) + STR_OVERHEAD
  }

  lemma {:induction false} LinesSizeNext(lines: seq<Bytes>, i: nat)
    requires i < |lines|
    ensures LinesSize(lines[..i + 1]) == LinesSize(lines[..i]) + StrLen(lines[i]) + STR_OVERHEAD
  {
    assert lines[..i + 1][..i] == lines[..i];
  }

  lemma {:induction false} LinesSizeGrows(lines: seq<Bytes>, i: nat, j: nat)
    requires i <= j <= |lines|
    ensures LinesSize(lines[..i]) <= LinesSize(lines[..j])
    decreases j
  {
    if i < j {
      LinesSizeNext(lines, j - 1);
      LinesSizeGrows(lines, i, j - 1);
    }
  }

  lemma {:induction false} ItemsWithin(lines: seq<Bytes>)
    ensures ItemsSize(lines) <= LinesSize(lines)
  {
    if lines != [] { ItemsWithin(lines[..|lines| - 1]); }
  }

  /** All lines fit the first page. */
  predicate OnePage(intro: string, cap: nat, lines: seq<Bytes>) {
    EmptySize(intro, 0) + LinesSize(lines) <= PageLimit(cap)
  }

  lemma {:induction false} HoldsNext(intro: string, cap: nat, lines: seq<Bytes>, i: nat)
    requires i < |lines| && OnePage(intro, cap, lines)
    ensures EmptySize(intro, 0) + ItemsSize(lines[..i]) + STR_OVERHEAD + StrLen(lines[i]) <= PageLimit(cap)
  {
    ItemsWithin(lines[..i]);
    LinesSizeNext(lines, i);
    LinesSizeGrows(lines, i + 1, |lines|);
    assert lines[..|lines|] == lines;
  }

  lemma TakeWhole(lines: seq<Bytes>, line: Bytes)
    ensures TakeString(Inbox(lines, []), line, false) == Inbox(lines + [line], [])
  {
    var nothing: Bytes := [];
    assert nothing + line == line;
  }

  lemma FirstPageHolds(pager: Pager, lines: seq<Bytes>, i: nat)
    requires i < |lines| && OnePage(pager.intro, pager.cap, lines) && pager.number == 0 && pager.output == lines[..i]
    ensures pager.Holds(lines[i])
  {
    HoldsNext(pager.intro, pager.cap, lines, i);
  }

  /** The lines so far are read back, or one was dropped. */
  ghost predicate Ran(pager: Pager, done: seq<Bytes>)
    reads pager
  {
    && pager.Valid() && pager.number < MostPages(done)
    && if pager.dropped then !Roomy(pager.intro, pager.cap, pager.number) else pager.Received() == Inbox(done, [])
  }

  /** One more line of a command. */
  method RunLine(pager: Pager, ghost done: seq<Bytes>, line: Bytes)
    requires Ran(pager, done) && NulFree(line)
    modifies pager
    ensures Ran(pager, done + [line])
    ensures old(pager.Holds(line)) ==> pager.number == old(pager.number) && pager.output == old(pager.output) + [line]
    ensures old(pager.ValidUtf8()) && Utf8(line) ==> pager.ValidUtf8()
  {
    assert (done + [line])[..|done|] == done;
    TakeWhole(done, line);
    var kept, got := pager.Line(line);
  }

  /** The lines of a command, one after the other. */
  method RunLines(pager: Pager, lines: seq<Bytes>)
    requires Ran(pager, []) && pager.number == 0 && pager.output == [] && LinesNulFree(lines)
    modifies pager
    ensures Ran(pager, lines)
    ensures OnePage(pager.intro, pager.cap, lines) ==> pager.number == 0 && pager.output == lines
    ensures old(pager.ValidUtf8()) && LinesUtf8(lines) ==> pager.ValidUtf8()
  {
    ghost var onePage, utf8 := OnePage(pager.intro, pager.cap, lines), pager.ValidUtf8() && LinesUtf8(lines);
    for i := 0 to |lines|
      invariant Ran(pager, lines[..i])
      invariant onePage ==> pager.number == 0 && pager.output == lines[..i]
      invariant utf8 ==> pager.ValidUtf8()
    {
      if onePage { FirstPageHolds(pager, lines, i); }
      RunLine(pager, lines[..i], lines[i]);
      assert lines[..i + 1] == lines[..i] + [lines[i]];
    }
    assert lines[..|lines|] == lines;
  }

  /** A complete reply, closed with the command's result. */
  predicate Complete(pages: seq<Page>, lines: seq<Bytes>, ok: bool) {
    TakePages(pages) == Inbox(lines, []) && Closed(pages, ok)
  }

  lemma RoomyShrinks(intro: string, cap: nat, m: nat, n: nat)
    requires m <= n && Roomy(intro, cap, n)
    ensures Roomy(intro, cap, m)
  {}

  /** How a reply ends: the pages before, the last one, and what was dropped. */
  predicate Ends(intro: string, cap: nat, pages: seq<Page>, before: seq<Page>, ok: bool, output: seq<Bytes>) {
    || (pages == before && output == [] && !Roomy(intro, cap, |before|))
    || (Closed(pages, ok) && pages == before + [Page(|before|, ok, output, false, Some(false))])
  }

  predicate AllMore(pages: seq<Page>) { forall k :: 0 <= k < |pages| ==> pages[k].more == Some(true) }

  lemma EndsSaying(intro: string, cap: nat, pages: seq<Page>, before: seq<Page>, ok: bool, output: seq<Bytes>)
    requires Ends(intro, cap, pages, before, ok, output) && AllMore(before)
    ensures |before| <= |pages| <= |before| + 1
    ensures Roomy(intro, cap, |before|) ==> Closed(pages, ok)
    ensures Closed(pages, true) ==> ok
    ensures before == [] ==> forall k :: 0 <= k < |pages| ==> pages[k].output == output
  {
    assert Closed(pages, true) ==> pages[|pages| - 1].ok && pages[|pages| - 1].more == Some(false);
  }

  method Paged(intro: string, cap: nat, lines: seq<Bytes>, ok: bool)
    returns (pages: seq<Page>, ghost before: seq<Page>, ghost dropped: bool, ghost output: seq<Bytes>)
    requires LinesNulFree(lines)
    ensures Numbered(intro, cap, pages) && Ends(intro, cap, pages, before, ok && !dropped, output) && AllMore(before)
    ensures |before| < MostPages(lines)
    ensures if dropped then !Roomy(intro, cap, |before|) else TakePages(pages) == Inbox(lines, [])
    ensures OnePage(intro, cap, lines) ==> before == [] && output == lines
    ensures LinesUtf8(lines) ==> AllUtf8(pages)
  {
    var pager := new Pager(intro, cap);
    RunLines(pager, lines);
    before, dropped, output := pager.sent, pager.dropped, pager.output;
    pager.Finish(ok);
    pages := pager.sent;
  }

  /** A whole reply: nothing is lost when every page it can have has 20 bytes to spare while it is empty. */
  method Reply(intro: string, cap: nat, lines: seq<Bytes>, ok: bool) returns (pages: seq<Page>)
    requires LinesNulFree(lines)
    ensures Fit(intro, cap, pages) && |pages| <= MostPages(lines)
    ensures Roomy(intro, cap, MostPages(lines)) || Roomy(intro, cap, |pages|) ==> Complete(pages, lines, ok)
    ensures Closed(pages, true) ==> TakePages(pages) == Inbox(lines, [])
    ensures OnePage(intro, cap, lines) ==> |pages| <= 1 && forall k :: 0 <= k < |pages| ==> pages[k].output == lines
    ensures LinesUtf8(lines) ==> AllUtf8(pages)
  {
    ghost var before, dropped, output;
    pages, before, dropped, output := Paged(intro, cap, lines, ok);
    EndsSaying(intro, cap, pages, before, ok && !dropped, output);
    if Roomy(intro, cap, MostPages(lines)) { RoomyShrinks(intro, cap, |before|, MostPages(lines)); }
    if Roomy(intro, cap, |pages|) { RoomyShrinks(intro, cap, |before|, |pages|); }
    SizesFit(intro, cap, pages);
  }
}
