/**
 The verdict on a config push, in terms of the document it holds: which trees
 name a broker, and that the scanner answers exactly by that.
 */
module CmdConfigVerdict {
  import opened ByteStrings
  import opened Options
  import opened CmdConfig
  import opened CmdConfigGrammar
  import opened CmdConfigProof

  // ---- What a document says ----

  /** The values of all members with this key, in order. */
  function Values(items: Items, key: string): seq<Json> {
    var own := if items.item.key == key then [items.item.value] else [];
    match items
    case Last(_) => own
    case More(_, _, rest) => own + Values(rest, key)
  }

  predicate IsObject(v: Json) { (v.Empty? || v.Full?) && v.obj }

  function MembersOf(v: Json, key: string): seq<Json> {
    if v.Full? then Values(v.items, key) else []
  }

  /** At most one broker, and it is a string. */
  predicate MqttOk(v: Json) {
    IsObject(v) && |MembersOf(v, "broker")| <= 1 && forall b :: b in MembersOf(v, "broker") ==> b.Text?
  }

  predicate MqttNames(v: Json) {
    MqttOk(v) && |MembersOf(v, "broker")| == 1 && MembersOf(v, "broker")[0].body != ""
  }

  /** At most one mqtt, and it is an object with at most one broker. */
  predicate TopOk(v: Json) {
    IsObject(v) && |MembersOf(v, "mqtt")| <= 1 && forall m :: m in MembersOf(v, "mqtt") ==> MqttOk(m)
  }

  /** Exactly one mqtt object with exactly one broker that is not empty. */
  predicate NamesBroker(v: Json) {
    TopOk(v) && |MembersOf(v, "mqtt")| == 1 && MqttNames(MembersOf(v, "mqtt")[0])
  }

  /** The text is this tree with whitespace around it. */
  predicate Document(s: string, lead: nat, v: Json, trail: nat) {
    && WellFormed(v) && Depth(v) <= 8 && |s| == lead + Len(v) + trail
    && WsAt(s, 0, lead) && Stands(s, lead, v) && WsAt(s, lead + Len(v), trail)
  }

  // ---- The mqtt object ----

  /** What the scan of a member makes of it. */
  function MqttItemOf(it: Item, e: nat, saw: bool, found: bool): Scanned {
    if it.key != "broker" then Scanned(e, found)
    else if saw || !it.value.Text? then Bad
    else Scanned(e, it.value.body != "")
  }

  predicate MemberStands(s: string, i: nat, depth: nat, it: Item) {
    && BodyOk(it.key) && WellFormed(it.value) && depth + Depth(it.value) <= MAX_DEPTH
    && ItemStands(s, i, true, it) && Stops(s, i + LenItem(true, it) - it.post)
  }

  /** The scan reaches the value of a member with its key and whitespace read. */
  lemma {:induction false} MemberValue(s: string, i: nat, depth: nat, it: Item)
    requires MemberStands(s, i, depth, it)
    ensures var q := i + LenKey(true, it);
            && i <= |s| && q < |s| && KeyEnd(s, i) == Some(q - it.gap) && SkipWs(s, q - it.gap) == q
            && (forall lit :: KeyIs(s, i, lit) <==> it.key == lit)
            && ValueEnd(s, q - it.gap, depth) == Some(q + Len(it.value))
  {
    var q := i + LenKey(true, it);
    ValueStart(s, q, it.value);
    ValueEnds(s, q, depth, it.value);
    KeyEnds(s, i, it);
    GapSkipped(s, q - it.gap, it.gap, depth);
  }

  /** Only a string starts with a quote, only an object with a brace. */
  lemma {:induction false} FirstCharTells(s: string, q: nat, v: Json)
    requires WellFormed(v) && Stands(s, q, v) && q < |s|
    ensures s[q] == '\"' <==> v.Text?
    ensures s[q] == '{' <==> IsObject(v)
  {
    match v
    case Number(n) =>
      if !n.negative {
        AtFirst(s, q, n.whole);
        assert IsDigit(n.whole[0]);
      }
    case Word(w) => AtFirst(s, q, w);
    case _ =>
  }

  lemma {:induction false} MqttItemJoin(s: string, i: nat, saw: bool, found: bool, it: Item, v: nat, q: nat, e: nat)
    requires i <= |s| && KeyEnd(s, i) == Some(v) && v <= |s| && SkipWs(s, v) == q < |s|
    requires KeyIs(s, i, "broker") <==> it.key == "broker"
    requires ValueEnd(s, v, 2) == Some(e) && StringEnd(s, q) == if it.value.Text? then Some(e) else None
    requires it.value.Text? ==> e == q + 2 + |it.value.body|
    ensures MqttItem(s, i, saw, found) == MqttItemOf(it, e, saw, found)
  {}

  lemma {:induction false} TextMember(s: string, i: nat, it: Item)
    requires MemberStands(s, i, 2, it)
    ensures var q := i + LenKey(true, it);
            && q < |s| && StringEnd(s, q) == (if it.value.Text? then Some(q + Len(it.value)) else None)
            && (it.value.Text? ==> Len(it.value) == 2 + |it.value.body|)
  {
    var q := i + LenKey(true, it);
    ValueStart(s, q, it.value);
    FirstCharTells(s, q, it.value);
    ValueEnds(s, q, 2, it.value);
  }

  lemma {:induction false} MqttItemRead(s: string, i: nat, saw: bool, found: bool, it: Item)
    requires MemberStands(s, i, 2, it)
    ensures i <= |s| && MqttItem(s, i, saw, found) == MqttItemOf(it, i + LenItem(true, it) - it.post, saw, found)
    ensures KeyIs(s, i, "broker") <==> it.key == "broker"
  {
    var q := i + LenKey(true, it);
    MemberValue(s, i, 2, it);
    TextMember(s, i, it);
    MqttItemJoin(s, i, saw, found, it, q - it.gap, q, q + Len(it.value));
  }

  /** Reading a list of members, as the broker members decide it. */
  function MqttListOf(vs: seq<Json>, end: nat, saw: bool, found: bool): Scanned {
    if vs == [] then Scanned(end, found)
    else if saw || |vs| > 1 || !vs[0].Text? then Bad
    else Scanned(end, vs[0].body != "")
  }

  lemma {:induction false} ListParts(s: string, i: nat, depth: nat, items: Items, end: nat)
    requires ListStands(s, i, depth, true, items, end)
    ensures MemberStands(s, i, depth, items.item) && i <= |s|
    ensures var it := items.item;
            var e := i + LenItem(true, it) - it.post;
            var next := i + LenItem(true, it) + 1;
            && e <= |s|
            && (items.Last? ==> end == next && TailAt(s, e, '}') == Done(end))
            && (items.More? ==>
                  && TailAt(s, e, '}') == Again(next + items.pad)
                  && ListStands(s, next + items.pad, depth, true, items.rest, end))
  {
    ItemsStart(s, i, true, items);
    TailOfItems(s, i, true, items);
  }

  /** One more member in front of a list. */
  lemma {:induction false} MqttListStep(items: Items, e: nat, end: nat, saw: bool, found: bool)
    ensures var it := items.item;
            var m := MqttItemOf(it, e, saw, found);
            MqttListOf(Values(items, "broker"), end, saw, found) ==
              if m.Bad? then Bad
              else if items.Last? then Scanned(end, m.broker)
              else MqttListOf(Values(items.rest, "broker"), end, saw || it.key == "broker", m.broker)
  {
    if items.More? && items.item.key == "broker" {
      var rest := Values(items.rest, "broker");
      assert Values(items, "broker") == [items.item.value] + rest;
    }
  }

  lemma {:induction false} MqttTurn(s: string, i: nat, saw: bool, found: bool)
    requires i <= |s|
    ensures var m := MqttItem(s, i, saw, found);
            if m.Bad? then MqttItems(s, i, saw, found) == Bad
            else match TailAt(s, m.end, '}')
              case Stop => MqttItems(s, i, saw, found) == Bad
              case Again(next) =>
                MqttItems(s, i, saw, found) == MqttItems(s, next, saw || KeyIs(s, i, "broker"), m.broker)
              case Done(next) => MqttItems(s, i, saw, found) == Scanned(next, m.broker)
  {}

  lemma {:induction false} MqttListRead(s: string, i: nat, saw: bool, found: bool, items: Items, end: nat)
    requires ListStands(s, i, 2, true, items, end)
    ensures i <= |s| && MqttItems(s, i, saw, found) == MqttListOf(Values(items, "broker"), end, saw, found)
    decreases items
  {
    var it := items.item;
    var e := i + LenItem(true, it) - it.post;
    var next := e + it.post + 1 + if items.More? then items.pad else 0;
    var m := MqttItemOf(it, e, saw, found);
    ListParts(s, i, 2, items, end);
    MqttItemRead(s, i, saw, found, it);
    if items.More? && m.Scanned? {
      MqttListRead(s, next, saw || it.key == "broker", m.broker, items.rest, end);
    }
    MqttListJoin(s, i, saw, found, items, e, next, end);
  }

  lemma {:induction false} MqttListJoin(
    s: string, i: nat, saw: bool, found: bool, items: Items, e: nat, next: nat, end: nat)
    requires i <= |s| && e <= |s| && MqttItem(s, i, saw, found) == MqttItemOf(items.item, e, saw, found)
    requires KeyIs(s, i, "broker") <==> items.item.key == "broker"
    requires items.Last? ==> TailAt(s, e, '}') == Done(end)
    requires items.More? ==>
               TailAt(s, e, '}') == Again(next) && next <= |s| &&
               var m := MqttItemOf(items.item, e, saw, found);
               var seen := saw || items.item.key == "broker";
               (m.Scanned? ==>
                  MqttItems(s, next, seen, m.broker) == MqttListOf(Values(items.rest, "broker"), end, seen, m.broker))
    ensures MqttItems(s, i, saw, found) == MqttListOf(Values(items, "broker"), end, saw, found)
  {
    MqttTurn(s, i, saw, found);
    MqttListStep(items, e, end, saw, found);
  }

  lemma {:induction false} MqttItemIsItem(s: string, i: nat, saw: bool, found: bool)
    requires i <= |s| && MqttItem(s, i, saw, found).Scanned?
    ensures ItemEnd(s, i, 2, true) == Some(MqttItem(s, i, saw, found).end)
  {
    var q := SkipWs(s, KeyEnd(s, i).value);
    if KeyIs(s, i, "broker") { assert ValueAt(s, q, 2) == StringEnd(s, q); }
  }

  /** Whatever the mqtt scan accepts is a list of members. */
  lemma {:induction false} MqttIsList(s: string, i: nat, saw: bool, found: bool)
    requires i <= |s| && MqttItems(s, i, saw, found).Scanned?
    ensures ItemsEnd(s, i, 2, true) == Some(MqttItems(s, i, saw, found).end)
    decreases |s| - i
  {
    var m := MqttItem(s, i, saw, found);
    MqttItemIsItem(s, i, saw, found);
    ItemsTurn(s, i, 2, true, m.end);
    MqttTurn(s, i, saw, found);
    match TailAt(s, m.end, '}')
    case Again(next) => MqttIsList(s, next, saw || KeyIs(s, i, "broker"), m.broker);
    case _ =>
  }

  function MqttOf(v: Json, end: nat): Scanned {
    if !MqttOk(v) then Bad else Scanned(end, MqttNames(v))
  }

  lemma {:induction false} MqttOfList(v: Json, end: nat)
    requires v.Full? && v.obj
    ensures MqttOf(v, end) == MqttListOf(Values(v.items, "broker"), end, false, false)
  {}

  /** Where the members of an object start, and where it ends. */
  lemma {:induction false} ObjectParts(s: string, q: nat, depth: nat, v: Json)
    requires WellFormed(v) && depth + Depth(v) <= MAX_DEPTH && Stands(s, q, v) && IsObject(v)
    ensures q < |s| && SkipWs(s, q + 1) == q + 1 + v.pad && q + 1 + v.pad < |s|
    ensures v.Empty? ==> s[q + 1 + v.pad] == '}' && Len(v) == 2 + v.pad
    ensures v.Full? ==> s[q + 1 + v.pad] != '}' && ListStands(s, q + 1 + v.pad, depth + 1, true, v.items, q + Len(v))
  {
    if v.Full? { ItemsStart(s, q + 1 + v.pad, true, v.items); }
    WsSkipped(s, q + 1, v.pad);
  }

  lemma {:induction false} MqttRead(s: string, q: nat, v: Json)
    requires WellFormed(v) && 1 + Depth(v) <= MAX_DEPTH && Stands(s, q, v) && IsObject(v)
    ensures q < |s| && MqttObject(s, q) == MqttOf(v, q + Len(v))
  {
    ObjectParts(s, q, 1, v);
    if v.Full? { MqttFullRead(s, q, v, q + Len(v)); }
  }

  lemma {:induction false} MqttFullRead(s: string, q: nat, v: Json, end: nat)
    requires v.Full? && v.obj && q < |s| && SkipWs(s, q + 1) == q + 1 + v.pad < |s| && s[q + 1 + v.pad] != '}'
    requires ListStands(s, q + 1 + v.pad, 2, true, v.items, end)
    ensures MqttObject(s, q) == MqttOf(v, end)
  {
    MqttListRead(s, q + 1 + v.pad, false, false, v.items, end);
    MqttOfList(v, end);
  }

  // ---- The whole document ----

  function TopItemOf(it: Item, e: nat, saw: bool, found: bool): Scanned {
    if it.key != "mqtt" then Scanned(e, found)
    else if saw || !IsObject(it.value) then Bad
    else MqttOf(it.value, e)
  }

  /** The scan of a member, from what it finds behind the key. */
  lemma {:induction false} TopItemJoin(s: string, i: nat, saw: bool, found: bool, it: Item, v: nat, q: nat, e: nat)
    requires i <= |s| && KeyEnd(s, i) == Some(v) && v <= |s| && SkipWs(s, v) == q < |s|
    requires KeyIs(s, i, "mqtt") <==> it.key == "mqtt"
    requires ValueEnd(s, v, 1) == Some(e)
    requires s[q] == '{' <==> IsObject(it.value)
    requires IsObject(it.value) ==> MqttObject(s, q) == MqttOf(it.value, e)
    ensures TopItem(s, i, saw, found) == TopItemOf(it, e, saw, found)
  {}

  lemma {:induction false} ObjectMember(s: string, i: nat, it: Item)
    requires MemberStands(s, i, 1, it)
    ensures var q := i + LenKey(true, it);
            && q < |s| && (s[q] == '{' <==> IsObject(it.value))
            && (IsObject(it.value) ==> MqttObject(s, q) == MqttOf(it.value, q + Len(it.value)))
  {
    var q := i + LenKey(true, it);
    ValueStart(s, q, it.value);
    FirstCharTells(s, q, it.value);
    if IsObject(it.value) { MqttRead(s, q, it.value); }
  }

  lemma {:induction false} TopItemRead(s: string, i: nat, saw: bool, found: bool, it: Item)
    requires MemberStands(s, i, 1, it)
    ensures i <= |s| && TopItem(s, i, saw, found) == TopItemOf(it, i + LenItem(true, it) - it.post, saw, found)
    ensures KeyIs(s, i, "mqtt") <==> it.key == "mqtt"
  {
    var q := i + LenKey(true, it);
    MemberValue(s, i, 1, it);
    ObjectMember(s, i, it);
    TopItemJoin(s, i, saw, found, it, q - it.gap, q, q + Len(it.value));
  }

  function TopListOf(vs: seq<Json>, end: nat, saw: bool, found: bool): Scanned {
    if vs == [] then Scanned(end, found)
    else if saw || |vs| > 1 || !MqttOk(vs[0]) then Bad
    else Scanned(end, MqttNames(vs[0]))
  }

  lemma {:induction false} TopListStep(items: Items, e: nat, end: nat, saw: bool, found: bool)
    ensures var it := items.item;
            var m := TopItemOf(it, e, saw, found);
            TopListOf(Values(items, "mqtt"), end, saw, found) ==
              if m.Bad? then Bad
              else if items.Last? then Scanned(end, m.broker)
              else TopListOf(Values(items.rest, "mqtt"), end, saw || it.key == "mqtt", m.broker)
  {
    if items.More? && items.item.key == "mqtt" {
      var rest := Values(items.rest, "mqtt");
      assert Values(items, "mqtt") == [items.item.value] + rest;
    }
  }

  lemma {:induction false} TopTurn(s: string, i: nat, saw: bool, found: bool)
    requires i <= |s|
    ensures var m := TopItem(s, i, saw, found);
            if m.Bad? then TopItems(s, i, saw, found) == Bad
            else match TailAt(s, m.end, '}')
              case Stop => TopItems(s, i, saw, found) == Bad
              case Again(next) =>
                TopItems(s, i, saw, found) == TopItems(s, next, saw || KeyIs(s, i, "mqtt"), m.broker)
              case Done(next) => TopItems(s, i, saw, found) == Scanned(next, m.broker)
  {}

  lemma {:induction false} TopListRead(s: string, i: nat, saw: bool, found: bool, items: Items, end: nat)
    requires ListStands(s, i, 1, true, items, end)
    ensures i <= |s| && TopItems(s, i, saw, found) == TopListOf(Values(items, "mqtt"), end, saw, found)
    decreases items
  {
    var it := items.item;
    var e := i + LenItem(true, it) - it.post;
    var next := e + it.post + 1 + if items.More? then items.pad else 0;
    var m := TopItemOf(it, e, saw, found);
    ListParts(s, i, 1, items, end);
    TopItemRead(s, i, saw, found, it);
    if items.More? && m.Scanned? {
      TopListRead(s, next, saw || it.key == "mqtt", m.broker, items.rest, end);
    }
    TopListJoin(s, i, saw, found, items, e, next, end);
  }

  lemma {:induction false} TopListJoin(
    s: string, i: nat, saw: bool, found: bool, items: Items, e: nat, next: nat, end: nat)
    requires i <= |s| && e <= |s| && TopItem(s, i, saw, found) == TopItemOf(items.item, e, saw, found)
    requires KeyIs(s, i, "mqtt") <==> items.item.key == "mqtt"
    requires items.Last? ==> TailAt(s, e, '}') == Done(end)
    requires items.More? ==>
               TailAt(s, e, '}') == Again(next) && next <= |s| &&
               var m := TopItemOf(items.item, e, saw, found);
               var seen := saw || items.item.key == "mqtt";
               (m.Scanned? ==>
                  TopItems(s, next, seen, m.broker) == TopListOf(Values(items.rest, "mqtt"), end, seen, m.broker))
    ensures TopItems(s, i, saw, found) == TopListOf(Values(items, "mqtt"), end, saw, found)
  {
    TopTurn(s, i, saw, found);
    TopListStep(items, e, end, saw, found);
  }

  lemma {:induction false} MqttObjectIsValue(s: string, q: nat)
    requires q < |s| && s[q] == '{' && MqttObject(s, q).Scanned?
    ensures ValueAt(s, q, 1) == Some(MqttObject(s, q).end)
  {
    var j := SkipWs(s, q + 1);
    if s[j] != '}' { MqttIsList(s, j, false, false); }
    assert ContainerEnd(s, q, 1, true) == Some(MqttObject(s, q).end);
  }

  lemma {:induction false} TopItemIsItem(s: string, i: nat, saw: bool, found: bool)
    requires i <= |s| && TopItem(s, i, saw, found).Scanned?
    ensures ItemEnd(s, i, 1, true) == Some(TopItem(s, i, saw, found).end)
  {
    var q := SkipWs(s, KeyEnd(s, i).value);
    if KeyIs(s, i, "mqtt") {
      MqttObjectIsValue(s, q);
      assert ValueEnd(s, KeyEnd(s, i).value, 1) == ValueAt(s, q, 1);
    }
  }

  lemma {:induction false} TopIsList(s: string, i: nat, saw: bool, found: bool)
    requires i <= |s| && TopItems(s, i, saw, found).Scanned?
    ensures ItemsEnd(s, i, 1, true) == Some(TopItems(s, i, saw, found).end)
    decreases |s| - i
  {
    var m := TopItem(s, i, saw, found);
    TopItemIsItem(s, i, saw, found);
    ItemsTurn(s, i, 1, true, m.end);
    TopTurn(s, i, saw, found);
    match TailAt(s, m.end, '}')
    case Again(next) => TopIsList(s, next, saw || KeyIs(s, i, "mqtt"), m.broker);
    case _ =>
  }

  function TopOf(v: Json, end: nat): Scanned {
    if !TopOk(v) then Bad else Scanned(end, NamesBroker(v))
  }

  lemma {:induction false} TopOfList(v: Json, end: nat)
    requires v.Full? && v.obj
    ensures TopOf(v, end) == TopListOf(Values(v.items, "mqtt"), end, false, false)
  {}

  lemma {:induction false} TopRead(s: string, q: nat, v: Json)
    requires WellFormed(v) && Depth(v) <= MAX_DEPTH && Stands(s, q, v) && IsObject(v)
    ensures q < |s| && TopObject(s, q) == TopOf(v, q + Len(v))
  {
    ObjectParts(s, q, 0, v);
    if v.Full? {
      TopListRead(s, q + 1 + v.pad, false, false, v.items, q + Len(v));
      TopOfList(v, q + Len(v));
    }
  }

  lemma {:induction false} TopObjectIsContainer(s: string, q: nat)
    requires q < |s| && s[q] == '{' && TopObject(s, q).Scanned?
    ensures ContainerEnd(s, q, 0, true) == Some(TopObject(s, q).end)
  {
    var j := SkipWs(s, q + 1);
    if s[j] != '}' { TopIsList(s, j, false, false); }
  }

  /** Reading a document. */
  lemma {:induction false} DocumentRead(s: string, lead: nat, v: Json, trail: nat)
    requires Document(s, lead, v, trail)
    ensures ScanBroker(s) == TopOf(v, lead + Len(v))
  {
    assert lead < |s| && !IsWs(s[lead]) by { ValueStart(s, lead, v); }
    assert SkipWs(s, 0) == lead by { WsSkipped(s, 0, lead); }
    assert s[lead] == '{' <==> IsObject(v) by { FirstCharTells(s, lead, v); }
    assert SkipWs(s, lead + Len(v)) == |s| by { WsSkipped(s, lead + Len(v), trail); }
    if IsObject(v) {
      assert TopObject(s, lead) == TopOf(v, lead + Len(v)) by { TopRead(s, lead, v); }
    }
  }

  /** Every accepted text is a document. */
  lemma {:induction false} DocumentFound(s: string) returns (lead: nat, v: Json, trail: nat)
    requires ScanBroker(s).Scanned?
    ensures Document(s, lead, v, trail)
  {
    lead := SkipWs(s, 0);
    assert WsAt(s, 0, lead) by { WsFound(s, 0); }
    TopObjectIsContainer(s, lead);
    v := ContainerFound(s, lead, 0, true);
    var end := lead + Len(v);
    assert WsAt(s, end, |s| - end) by { WsFound(s, end); }
    trail := |s| - end;
  }

  ghost predicate HoldsDocument(s: string, names: bool) {
    exists lead, v, trail :: Document(s, lead, v, trail) && TopOk(v) && NamesBroker(v) == names
  }

  lemma {:induction false} ScanOfDocument(s: string, names: bool)
    requires HoldsDocument(s, names)
    ensures ScanBroker(s).Scanned? && ScanBroker(s).broker == names
  {
    var lead, v, trail :| Document(s, lead, v, trail) && TopOk(v) && NamesBroker(v) == names;
    DocumentRead(s, lead, v, trail);
  }

  lemma {:induction false} DocumentOfScan(s: string)
    requires ScanBroker(s).Scanned?
    ensures HoldsDocument(s, ScanBroker(s).broker)
  {
    var lead, v, trail := DocumentFound(s);
    DocumentRead(s, lead, v, trail);
  }

  /** The scanner accepts exactly the documents, and says of each what it holds. */
  lemma {:induction false} ScanIsExact(s: string, names: bool)
    ensures (ScanBroker(s).Scanned? && ScanBroker(s).broker == names) <==> HoldsDocument(s, names)
  {
    if HoldsDocument(s, names) { ScanOfDocument(s, names); }
    if ScanBroker(s).Scanned? { DocumentOfScan(s); }
  }

  /** OK exactly for a document that names a broker, below the size cap, on a verified session. */
  lemma VerdictIsExact(tlsVerified: bool, payload: string)
    ensures VerdictOf(tlsVerified, payload) == Ok
            <==> tlsVerified && 0 < |payload| < 4096 && HoldsDocument(payload, true)
    ensures VerdictOf(tlsVerified, payload) == RefuseBroker
            <==> tlsVerified && 0 < |payload| < 4096 && HoldsDocument(payload, false)
    ensures VerdictOf(tlsVerified, payload) == RefuseTls <==> !tlsVerified && 0 < |payload| < 4096
  {
    ScanIsExact(payload, true);
    ScanIsExact(payload, false);
  }
}
