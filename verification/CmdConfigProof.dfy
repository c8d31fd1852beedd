/**
 The scanner and the grammar agree on values: from every accepted stretch of
 text a tree is built back, and every tree that stands in a text is accepted.
 */
module CmdConfigProof {
  import opened ByteStrings
  import opened Options
  import opened CmdConfig
  import opened CmdConfigGrammar

  // ---- From an accepted text to a tree ----

  lemma {:induction false} KeyFound(s: string, i: nat) returns (key: string, mid: nat)
    requires i <= |s| && KeyEnd(s, i).Some?
    ensures BodyOk(key)
    ensures QuoteStands(s, i, key) && WsAt(s, i + 2 + |key|, mid) && CharAt(s, i + 2 + |key| + mid, ':')
    ensures KeyEnd(s, i).value == i + 2 + |key| + mid + 1
    ensures forall lit :: KeyIs(s, i, lit) <==> key == lit
  {
    key := StringFound(s, i);
    var j := i + 2 + |key|;
    WsFound(s, j);
    mid := SkipWs(s, j) - j;
  }

  lemma {:induction false} ValueFound(s: string, i: nat, depth: nat) returns (gap: nat, v: Json)
    requires i <= |s| && depth <= MAX_DEPTH && ValueEnd(s, i, depth).Some?
    ensures WellFormed(v) && depth + Depth(v) <= MAX_DEPTH
    ensures WsAt(s, i, gap) && Stands(s, i + gap, v) && ValueEnd(s, i, depth).value == i + gap + Len(v)
    decreases |s| - i, 1
  {
    var j := SkipWs(s, i);
    WsFound(s, i);
    gap := j - i;
    if s[j] == '{' {
      v := ContainerFound(s, j, depth, true);
    } else if s[j] == '[' {
      v := ContainerFound(s, j, depth, false);
    } else {
      v := LeafFound(s, j, depth);
    }
  }

  lemma {:induction false} LeafFound(s: string, i: nat, depth: nat) returns (v: Json)
    requires i < |s| && s[i] != '{' && s[i] != '[' && ValueAt(s, i, depth).Some?
    ensures (v.Text? || v.Number? || v.Word?) && WellFormed(v) && Stands(s, i, v)
    ensures ValueAt(s, i, depth).value == i + Len(v)
  {
    if s[i] == '\"' {
      var body := StringFound(s, i);
      v := Text(body);
    } else if s[i] == 't' || s[i] == 'f' || s[i] == 'n' {
      v := Word(if s[i] == 't' then "true" else if s[i] == 'f' then "false" else "null");
      LiteralFound(s, i, v.word);
    } else {
      var n := NumberFound(s, i);
      v := Number(n);
    }
  }

  lemma {:induction false} ContainerFound(s: string, i: nat, depth: nat, obj: bool) returns (v: Json)
    requires i < |s| && s[i] == Open(obj) && depth <= MAX_DEPTH && ContainerEnd(s, i, depth, obj).Some?
    ensures WellFormed(v) && depth + Depth(v) <= MAX_DEPTH
    ensures Stands(s, i, v) && ContainerEnd(s, i, depth, obj).value == i + Len(v)
    decreases |s| - i, 0
  {
    var j := SkipWs(s, i + 1);
    WsFound(s, i + 1);
    var pad := j - (i + 1);
    if s[j] == Close(obj) {
      v := Empty(obj, pad);
    } else {
      var items := ItemsFound(s, j, depth + 1, obj);
      v := Full(obj, pad, items);
    }
  }

  /** One member without the whitespace after it. */
  lemma {:induction false} ItemFound(s: string, i: nat, depth: nat, obj: bool) returns (it: Item)
    requires i < |s| && !IsWs(s[i]) && depth <= MAX_DEPTH && ItemEnd(s, i, depth, obj).Some?
    ensures (obj ==> BodyOk(it.key)) && WellFormed(it.value) && it.post == 0 && depth + Depth(it.value) <= MAX_DEPTH
    ensures ItemStands(s, i, obj, it) && ItemEnd(s, i, depth, obj).value == i + LenItem(obj, it)
    decreases |s| - i, 2
  {
    if obj {
      var key, mid := KeyFound(s, i);
      var gap, v := ValueFound(s, KeyEnd(s, i).value, depth);
      it := Item(key, mid, gap, v, 0);
    } else {
      var gap, v := ValueFound(s, i, depth);
      assert gap == 0;
      it := Item("", 0, 0, v, 0);
    }
  }

  /** The member that ended at e, with the whitespace after it. */
  lemma {:induction false} AddPost(s: string, i: nat, obj: bool, bare: Item, post: nat)
    requires bare.post == 0 && ItemStands(s, i, obj, bare)
    requires WsAt(s, i + LenItem(obj, bare), post)
    ensures var it := bare.(post := post);
            && ItemStands(s, i, obj, it) && LenItem(obj, it) == LenItem(obj, bare) + post
            && (obj ==> it.key == bare.key)
  {
    var it := bare.(post := post);
    assert LenKey(obj, it) == LenKey(obj, bare);
    if obj { assert KeyStands(s, i, it) == KeyStands(s, i, bare); }
  }

  /** What follows a member, up to the next member or past the close. */
  lemma {:induction false} TailFoundAt(s: string, e: nat, close: char) returns (post: nat, pad: nat)
    requires e <= |s| && !TailAt(s, e, close).Stop?
    ensures WsAt(s, e, post)
    ensures TailAt(s, e, close).Done? ==>
              CharAt(s, e + post, close) && TailAt(s, e, close).next == e + post + 1
    ensures TailAt(s, e, close).Again? ==>
              && CharAt(s, e + post, ',') && WsAt(s, e + post + 1, pad)
              && TailAt(s, e, close).next == e + post + 1 + pad && !IsWs(s[TailAt(s, e, close).next])
  {
    var j := SkipWs(s, e);
    WsFound(s, e);
    post, pad := j - e, 0;
    if TailAt(s, e, close).Again? {
      WsFound(s, j + 1);
      pad := SkipWs(s, j + 1) - (j + 1);
    }
  }

  /** The first member of a list, with all that belongs to it. */
  lemma {:induction false} FirstFound(s: string, i: nat, depth: nat, obj: bool) returns (it: Item, pad: nat)
    requires i < |s| && !IsWs(s[i]) && depth <= MAX_DEPTH && ItemEnd(s, i, depth, obj).Some?
    requires !TailAt(s, ItemEnd(s, i, depth, obj).value, Close(obj)).Stop?
    ensures (obj ==> BodyOk(it.key)) && WellFormed(it.value) && depth + Depth(it.value) <= MAX_DEPTH
            && ItemStands(s, i, obj, it)
    ensures var t := TailAt(s, ItemEnd(s, i, depth, obj).value, Close(obj));
            var e := i + LenItem(obj, it);
            && (t.Done? ==> CharAt(s, e, Close(obj)) && t.next == e + 1)
            && (t.Again? ==>
                  CharAt(s, e, ',') && WsAt(s, e + 1, pad) && t.next == e + 1 + pad && !IsWs(s[t.next]))
    decreases |s| - i, 3
  {
    var bare := ItemFound(s, i, depth, obj);
    var e := i + LenItem(obj, bare);
    var post;
    post, pad := TailFoundAt(s, e, Close(obj));
    it := bare.(post := post);
    AddPost(s, i, obj, bare, post);
  }

  /** One turn of the loop over the members. */
  lemma {:induction false} ItemsTurn(s: string, i: nat, depth: nat, obj: bool, e: nat)
    requires i <= |s| && e <= |s| && ItemEnd(s, i, depth, obj) == Some(e)
    ensures match TailAt(s, e, Close(obj))
            case Stop => ItemsEnd(s, i, depth, obj).None?
            case Again(next) => ItemsEnd(s, i, depth, obj) == ItemsEnd(s, next, depth, obj)
            case Done(next) => ItemsEnd(s, i, depth, obj) == Some(next)
  {}

  /** All that is said about a list of members that ends with the close at `end`. */
  predicate ListStands(s: string, i: nat, depth: nat, obj: bool, items: Items, end: nat) {
    && WellFormedItems(obj, items) && depth + DepthItems(items) <= MAX_DEPTH && ItemsStand(s, i, obj, items)
    && end == i + LenItems(obj, items) + 1 && CharAt(s, end - 1, Close(obj))
  }

  lemma {:induction false} LastStands(s: string, i: nat, depth: nat, obj: bool, it: Item)
    requires (obj ==> BodyOk(it.key)) && WellFormed(it.value) && depth + Depth(it.value) <= MAX_DEPTH
             && ItemStands(s, i, obj, it)
    requires CharAt(s, i + LenItem(obj, it), Close(obj))
    ensures ListStands(s, i, depth, obj, Last(it), i + LenItem(obj, it) + 1)
  {}

  lemma {:induction false} MoreStands(
    s: string, i: nat, depth: nat, obj: bool, it: Item, pad: nat, rest: Items, end: nat)
    requires (obj ==> BodyOk(it.key)) && WellFormed(it.value) && depth + Depth(it.value) <= MAX_DEPTH
             && ItemStands(s, i, obj, it)
    requires CharAt(s, i + LenItem(obj, it), ',') && WsAt(s, i + LenItem(obj, it) + 1, pad)
    requires ListStands(s, i + LenItem(obj, it) + 1 + pad, depth, obj, rest, end)
    ensures ListStands(s, i, depth, obj, More(it, pad, rest), end)
  {}

  lemma {:induction false} ItemsFound(s: string, i: nat, depth: nat, obj: bool) returns (items: Items)
    requires i < |s| && !IsWs(s[i]) && depth <= MAX_DEPTH && ItemsEnd(s, i, depth, obj).Some?
    ensures ListStands(s, i, depth, obj, items, ItemsEnd(s, i, depth, obj).value)
    decreases |s| - i, 4
  {
    var it, pad := FirstFound(s, i, depth, obj);
    var e := ItemEnd(s, i, depth, obj).value;
    ItemsTurn(s, i, depth, obj, e);
    var t := TailAt(s, e, Close(obj));
    if t.Done? {
      items := Last(it);
      LastStands(s, i, depth, obj, it);
    } else {
      var rest := ItemsFound(s, t.next, depth, obj);
      items := More(it, pad, rest);
      MoreStands(s, i, depth, obj, it, pad, rest, ItemsEnd(s, t.next, depth, obj).value);
    }
  }

  // ---- From a tree to an accepted text ----

  /** No value starts with whitespace, a separator or a close. */
  lemma {:induction false} ValueStart(s: string, i: nat, v: Json)
    requires WellFormed(v) && Stands(s, i, v)
    ensures i < |s| && !IsWs(s[i]) && s[i] !in {',', ']', '}', ':'}
  {
    match v
    case Number(n) =>
      if !n.negative {
        AtFirst(s, i, n.whole);
        assert IsDigit(n.whole[0]);
      }
    case Word(w) => AtFirst(s, i, w);
    case _ =>
  }

  lemma {:induction false} ItemsStart(s: string, i: nat, obj: bool, items: Items)
    requires WellFormedItems(obj, items) && ItemsStand(s, i, obj, items)
    ensures ItemStands(s, i, obj, items.item) && i < |s| && !IsWs(s[i]) && s[i] != Close(obj)
  {
    if !obj { ValueStart(s, i, items.item.value); }
  }

  /** The key of a member, and where the whitespace before its value starts. */
  lemma {:induction false} KeyEnds(s: string, i: nat, it: Item)
    requires BodyOk(it.key) && KeyStands(s, i, it)
    ensures KeyEnd(s, i) == Some(i + LenKey(true, it) - it.gap)
    ensures forall lit :: KeyIs(s, i, lit) <==> it.key == lit
  {
    StringEnds(s, i, it.key);
    WsSkipped(s, i + 2 + |it.key|, it.mid);
  }

  /** Whitespace in front of a value changes nothing. */
  lemma {:induction false} GapSkipped(s: string, i: nat, gap: nat, depth: nat)
    requires WsAt(s, i, gap) && i + gap < |s| && !IsWs(s[i + gap])
    ensures SkipWs(s, i) == i + gap && ValueEnd(s, i, depth) == ValueEnd(s, i + gap, depth)
  {
    WsSkipped(s, i, gap);
  }

  lemma {:induction false} DoneEnds(s: string, e: nat, post: nat, close: char)
    requires WsAt(s, e, post) && CharAt(s, e + post, close) && (close == '}' || close == ']')
    ensures TailAt(s, e, close) == Done(e + post + 1) && Stops(s, e)
  {
    WsSkipped(s, e, post);
  }

  lemma {:induction false} AgainEnds(s: string, e: nat, post: nat, pad: nat, close: char)
    requires WsAt(s, e, post) && CharAt(s, e + post, ',') && WsAt(s, e + post + 1, pad)
    requires e + post + 1 + pad < |s| && !IsWs(s[e + post + 1 + pad])
    ensures TailAt(s, e, close) == Again(e + post + 1 + pad) && Stops(s, e)
  {
    WsSkipped(s, e, post);
    WsSkipped(s, e + post + 1, pad);
  }

  lemma {:induction false} TextEnds(s: string, i: nat, depth: nat, body: string)
    requires BodyOk(body) && QuoteStands(s, i, body)
    ensures i < |s| && ValueAt(s, i, depth) == Some(i + 2 + |body|)
  {
    StringEnds(s, i, body);
  }

  lemma {:induction false} NumEnds(s: string, i: nat, depth: nat, n: Num)
    requires NumOk(n) && NumStands(s, i, n) && Stops(s, i + LenNum(n))
    ensures i < |s| && ValueAt(s, i, depth) == Some(i + LenNum(n))
  {
    NumberEnds(s, i, n);
  }

  lemma {:induction false} WordEnds(s: string, i: nat, depth: nat, w: string)
    requires IsWord(w) && At(s, i, w)
    ensures i < |s| && ValueAt(s, i, depth) == Some(i + |w|)
  {
    LiteralFound(s, i, w);
    AtFirst(s, i, w);
  }

  lemma {:induction false} EmptyEnds(s: string, i: nat, depth: nat, obj: bool, pad: nat)
    requires depth < MAX_DEPTH
    requires CharAt(s, i, Open(obj)) && WsAt(s, i + 1, pad) && CharAt(s, i + 1 + pad, Close(obj))
    ensures ValueAt(s, i, depth) == Some(i + 2 + pad)
  {
    WsSkipped(s, i + 1, pad);
    assert ContainerEnd(s, i, depth, obj) == Some(i + 2 + pad);
  }

  lemma {:induction false} FullEnds(s: string, i: nat, depth: nat, obj: bool, pad: nat, items: Items)
    requires depth < MAX_DEPTH && WellFormedItems(obj, items)
    requires CharAt(s, i, Open(obj)) && WsAt(s, i + 1, pad) && ItemsStand(s, i + 1 + pad, obj, items)
    ensures ValueAt(s, i, depth) == ItemsEnd(s, i + 1 + pad, depth + 1, obj)
  {
    ItemsStart(s, i + 1 + pad, obj, items);
    WsSkipped(s, i + 1, pad);
    assert ContainerEnd(s, i, depth, obj) == ItemsEnd(s, i + 1 + pad, depth + 1, obj);
  }

  lemma {:induction false} LeafEnds(s: string, i: nat, depth: nat, v: Json)
    requires (v.Text? || v.Number? || v.Word?) && WellFormed(v) && Stands(s, i, v) && Stops(s, i + Len(v))
    ensures i < |s| && ValueAt(s, i, depth) == Some(i + Len(v))
  {
    match v
    case Text(body) => TextEnds(s, i, depth, body);
    case Number(n) => NumEnds(s, i, depth, n);
    case Word(w) => WordEnds(s, i, depth, w);
  }

  lemma {:induction false} ValueEnds(s: string, i: nat, depth: nat, v: Json)
    requires WellFormed(v) && depth + Depth(v) <= MAX_DEPTH && Stands(s, i, v) && Stops(s, i + Len(v))
    ensures i < |s| && ValueAt(s, i, depth) == Some(i + Len(v))
    decreases v
  {
    if v.Full? {
      FullEnds(s, i, depth, v.obj, v.pad, v.items);
      ItemsEnds(s, i + 1 + v.pad, depth + 1, v.obj, v.items);
    } else if v.Empty? {
      EmptyEnds(s, i, depth, v.obj, v.pad);
    } else {
      LeafEnds(s, i, depth, v);
    }
  }

  /** A member ends where its value does. */
  lemma {:induction false} MemberEnds(s: string, i: nat, depth: nat, it: Item)
    requires BodyOk(it.key) && WellFormed(it.value) && ItemStands(s, i, true, it)
    ensures ItemEnd(s, i, depth, true) == ValueEnd(s, i + LenKey(true, it), depth)
  {
    var q := i + LenKey(true, it);
    ValueStart(s, q, it.value);
    KeyEnds(s, i, it);
    GapSkipped(s, q - it.gap, it.gap, depth);
  }

  lemma {:induction false} ItemEnds(s: string, i: nat, depth: nat, obj: bool, it: Item)
    requires (obj ==> BodyOk(it.key)) && WellFormed(it.value) && depth + Depth(it.value) <= MAX_DEPTH
    requires ItemStands(s, i, obj, it) && Stops(s, i + LenItem(obj, it) - it.post)
    ensures ItemEnd(s, i, depth, obj) == Some(i + LenItem(obj, it) - it.post)
    decreases it
  {
    var q := i + LenKey(obj, it);
    assert ValueEnd(s, q, depth) == Some(q + Len(it.value)) by {
      ValueStart(s, q, it.value);
      ValueEnds(s, q, depth, it.value);
    }
    if obj { MemberEnds(s, i, depth, it); }
  }

  /** What the scanner meets after the first member of a list. */
  lemma {:induction false} TailOfItems(s: string, i: nat, obj: bool, items: Items)
    requires WellFormedItems(obj, items) && ItemsStand(s, i, obj, items)
    requires CharAt(s, i + LenItems(obj, items), Close(obj))
    ensures var it := items.item;
            var e := i + LenItem(obj, it) - it.post;
            && e <= |s| && Stops(s, e)
            && TailAt(s, e, Close(obj)) ==
                 if items.Last? then Done(i + LenItem(obj, it) + 1) else Again(i + LenItem(obj, it) + 1 + items.pad)
  {
    var it := items.item;
    var e := i + LenItem(obj, it) - it.post;
    if items.Last? {
      DoneEnds(s, e, it.post, Close(obj));
    } else {
      ItemsStart(s, i + LenItem(obj, it) + 1 + items.pad, obj, items.rest);
      AgainEnds(s, e, it.post, items.pad, Close(obj));
    }
  }

  /** A list is accepted once its first member and the rest of it are. */
  lemma {:induction false} ItemsStep(s: string, i: nat, depth: nat, obj: bool, items: Items)
    requires WellFormedItems(obj, items) && ItemsStand(s, i, obj, items)
    requires CharAt(s, i + LenItems(obj, items), Close(obj))
    requires i <= |s| && ItemEnd(s, i, depth, obj) == Some(i + LenItem(obj, items.item) - items.item.post)
    requires var next := i + LenItem(obj, items.item) + 1 + (if items.More? then items.pad else 0);
             items.More? ==> next <= |s| && ItemsEnd(s, next, depth, obj) == Some(i + LenItems(obj, items) + 1)
    ensures ItemsEnd(s, i, depth, obj) == Some(i + LenItems(obj, items) + 1)
  {
    TailOfItems(s, i, obj, items);
    ItemsTurn(s, i, depth, obj, i + LenItem(obj, items.item) - items.item.post);
  }

  lemma {:induction false} ItemsEnds(s: string, i: nat, depth: nat, obj: bool, items: Items)
    requires WellFormedItems(obj, items) && depth + DepthItems(items) <= MAX_DEPTH
    requires ItemsStand(s, i, obj, items) && CharAt(s, i + LenItems(obj, items), Close(obj))
    ensures i <= |s| && ItemsEnd(s, i, depth, obj) == Some(i + LenItems(obj, items) + 1)
    decreases items
  {
    ItemsStart(s, i, obj, items);
    TailOfItems(s, i, obj, items);
    ItemEnds(s, i, depth, obj, items.item);
    if items.More? {
      ItemsEnds(s, i + LenItem(obj, items.item) + 1 + items.pad, depth, obj, items.rest);
    }
    ItemsStep(s, i, depth, obj, items);
  }
}
