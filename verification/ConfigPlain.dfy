/**
 The store under its overlay against the same store without one: everything but
 the live prefix is as if pushes, saves, writes and edits simply replaced what
 they name.
 */
module ConfigPlain {
  import opened Options
  import opened ConfigStore
  import opened ConfigRuns

  // ---- What single operations store ----

  /** A push is applied exactly when it names a broker, its prefix and the live one fit, and the write lands. */
  lemma PushAppliedIff(s: Store, json: Parsed, brokerOk: bool, lands: bool, r: Read)
    requires Sound(s)
    ensures PushOf(s, json, brokerOk, lands, r).ok <==>
              && json.Good? && HasSection(json.doc) && brokerOk && lands && |LivePrefix(s.doc)| < 128
              && !PrefixOf(json.doc).Other? && |LivePrefix(json.doc)| + 11 < 128
  {}

  /** An applied push stores its own document, all of it, and the live one differs in the prefix alone. */
  lemma PushStoresDocument(s: Store, json: Parsed, brokerOk: bool, lands: bool, r: Read)
    requires PushOf(s, json, brokerOk, lands, r).ok
    ensures var out := PushOf(s, json, brokerOk, lands, r).store;
            && out.file == json.doc && DiskDoc(out) == json.doc && LivePrefix(out.doc) == LivePrefix(s.doc)
            && out.doc == (if out.held then SetPrefix(json.doc, LivePrefix(s.doc)) else json.doc)
            && (out.held <==> LivePrefix(json.doc) != LivePrefix(s.doc))
  {}

  /** A replace that lands has the whole document live and in the file, with nothing held. */
  lemma ReplaceStoresDocument(s: Store, json: Parsed, lands: bool, r: Read)
    requires ReplaceOf(s, json, lands, r).ok
    ensures ReplaceOf(s, json, lands, r).store == Store(json.doc, json.doc, false, false, "")
  {}

  /** A shell write that lands puts the edited document in the file and takes it up. */
  lemma ShellWriteStores(s: Store, edited: Doc, prefixKey: bool, r: Read)
    requires Sound(s)
    ensures var out := ShellWriteOf(s, edited, prefixKey, true, r);
            && out.ok && out.store.file == edited
            && (r == Reads ==> Body(out.store.doc) == Body(edited))
            && (r == Reads && (prefixKey || !s.held) ==> out.store == Store(edited, edited, false, false, ""))
    ensures !ShellWriteOf(s, edited, prefixKey, false, r).ok && ShellWriteOf(s, edited, prefixKey, false, r).store == s
  {}

  /** config.save writes the document without the overlay, or nothing. */
  lemma ShellSaveStores(s: Store, fits: bool, lands: bool)
    ensures var out := ShellSaveOf(s, fits, lands);
            && (out.ok <==> fits && lands && s.doc.Obj?)
            && out.store == if out.ok then s.(file := DiskDoc(s)) else s
  {}

  // ---- The store without an overlay ----

  /** All members but the prefix. */
  function Body(d: Doc): (string, string) {
    (if HasSection(d) then d.mqtt.value.others else "", if d.Obj? then d.rest else "")
  }

  function WithPrefix(d: Doc, p: Prefix): Doc {
    match p
    case Absent => RemovePrefix(d)
    case Str(text) => SetPrefix(d, text)
    case Other => Obj(Some(Section(Other, Body(d).0)), Body(d).1)
  }

  lemma WithPrefixIs(d: Doc, p: Prefix)
    ensures PrefixOf(WithPrefix(d, p)) == p && Body(WithPrefix(d, p)) == Body(d)
  {}

  /** Document, file, and the prefix of this boot. */
  datatype Plain = Plain(doc: Doc, file: Doc, boot: string)

  predicate Reaches(p: Plain, json: Parsed, brokerOk: bool) {
    NamesBroker(json, brokerOk) && |p.boot| < TOPIC_PREFIX_CAP && PushFits(json.doc)
  }

  /** ok says whether the write happened. */
  function PlainNext(p: Plain, ev: Event, ok: bool): Plain {
    match ev
    case Push(json, brokerOk, _, _) =>
      if !Reaches(p, json, brokerOk) then p
      else if ok then p.(doc := json.doc, file := json.doc)
      else p.(doc := p.file)
    case Save(_) => if ok then p.(file := p.doc) else p
    case ShellSave(_, _) => if ok then p.(file := p.doc) else p
    case ShellWrite(edited, _, _) => if ok then p.(doc := edited, file := edited) else p
    case FileWritten(edited, _) => if ok then p.(file := edited) else p
    case EditLive(edited) => p.(doc := WithPrefix(edited, PrefixOf(p.doc)))
    case Reload(_) => p.(doc := p.file)
  }

  function PlainRun(s: Store, p: Plain, run: seq<Event>): Plain
    decreases run
  {
    if run == [] then p else PlainRun(Next(s, run[0]).store, PlainNext(p, run[0], Next(s, run[0]).ok), run[1..])
  }

  /** The file agrees in prefix and body, the document in body, and in the prefix a save would write. */
  predicate Matches(s: Store, p: Plain) {
    && Body(s.file) == Body(p.file) && PrefixOf(s.file) == PrefixOf(p.file)
    && Body(s.doc) == Body(p.doc) && PrefixOf(DiskDoc(s)) == PrefixOf(p.doc)
    && p.boot == LivePrefix(s.doc)
  }

  lemma {:induction false} PushMatches(s: Store, p: Plain, ev: Event)
    requires Sound(s) && OtherKey(s, ev) && Matches(s, p) && ev.Push?
    ensures Matches(Next(s, ev).store, PlainNext(p, ev, Next(s, ev).ok))
  {
    PushKeepsPrefix(s, ev);
    if Next(s, ev).ok { PushStoresDocument(s, ev.json, ev.brokerOk, ev.lands, ev.r); }
  }

  lemma {:induction false} EditMatches(s: Store, p: Plain, edited: Doc)
    requires Sound(s) && Matches(s, p) && PrefixOf(edited) == PrefixOf(s.doc)
    ensures Matches(s.(doc := edited), p.(doc := WithPrefix(edited, PrefixOf(p.doc))))
  {
    WithPrefixIs(edited, PrefixOf(p.doc));
  }

  lemma {:induction false} OthersMatch(s: Store, p: Plain, ev: Event)
    requires Sound(s) && OtherKey(s, ev) && Matches(s, p) && !ev.Push?
    ensures Matches(Next(s, ev).store, PlainNext(p, ev, Next(s, ev).ok))
  {
    OthersKeepPrefix(s, ev);
    if ev.EditLive? { EditMatches(s, p, ev.edited); }
    else if ev.Save? { SaveWritesDiskDoc(s, ev.lands); }
  }

  /** In every run everything but the live prefix is as the store without an overlay has it. */
  lemma {:induction false} OverlayRefinesPlain(s: Store, p: Plain, run: seq<Event>)
    requires Sound(s) && OtherKeys(s, run) && Matches(s, p)
    ensures Matches(Run(s, run), PlainRun(s, p, run))
    decreases run
  {
    if run != [] {
      if run[0].Push? {
        PushKeepsPrefix(s, run[0]);
        PushMatches(s, p, run[0]);
      } else {
        OthersKeepPrefix(s, run[0]);
        OthersMatch(s, p, run[0]);
      }
      OverlayRefinesPlain(Next(s, run[0]).store, PlainNext(p, run[0], Next(s, run[0]).ok), run[1..]);
    }
  }

  /** From any boot. */
  lemma BootRefinesPlain(file: Doc, run: seq<Event>)
    requires OtherKeys(Booted(file), run)
    ensures Matches(Run(Booted(file), run), PlainRun(Booted(file), Plain(file, file, LivePrefix(file)), run))
  {
    OverlayRefinesPlain(Booted(file), Plain(file, file, LivePrefix(file)), run);
  }
}
