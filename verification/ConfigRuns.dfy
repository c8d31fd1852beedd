/** What the overlay keeps over every run. */
module ConfigRuns {
  import opened Options
  import opened ConfigStore

  datatype Event =
    | Push(json: Parsed, brokerOk: bool, lands: bool, r: Read)
    | Save(lands: bool)
    | ShellSave(fits: bool, lands: bool)
    | ShellWrite(edited: Doc, lands: bool, r: Read)
    | FileWritten(edited: Doc, lands: bool)
    | EditLive(edited: Doc)
    | Reload(r: Read)

  /**
   Writes and edits of keys other than the prefix, with a file that reads. The
   web interface and the probe discovery write the file alone. A reload gives
   up the overlay and counts only while there is none.
   */
  predicate OtherKey(s: Store, ev: Event) {
    match ev
    case Push(_, _, _, r) => r == Reads
    case ShellWrite(edited, _, r) => PrefixOf(edited) == PrefixOf(s.file) && r == Reads
    case FileWritten(edited, _) => PrefixOf(edited) == PrefixOf(s.file)
    case EditLive(edited) => PrefixOf(edited) == PrefixOf(s.doc)
    case Reload(r) => !s.held && r == Reads
    case _ => true
  }

  function Next(s: Store, ev: Event): Outcome {
    match ev
    case Push(json, brokerOk, lands, r) => PushOf(s, json, brokerOk, lands, r)
    case Save(lands) => SaveOf(s, lands)
    case ShellSave(fits, lands) => ShellSaveOf(s, fits, lands)
    case ShellWrite(edited, lands, r) => ShellWriteOf(s, edited, false, lands, r)
    case FileWritten(edited, lands) => WriteOf(s, edited, lands)
    case EditLive(edited) => Outcome(s.(doc := edited), true)
    case Reload(r) => Outcome(LoadOf(s, r), true)
  }

  /** Held: the live prefix is a string and the remembered one is the file's. Not held: both prefixes are one. */
  predicate Sound(s: Store) {
    if s.held then
      && PrefixOf(s.doc).Str? && |PrefixOf(s.doc).text| < TOPIC_PREFIX_CAP && |s.diskPrefix| < TOPIC_PREFIX_CAP
      && PrefixOf(s.file) == if s.diskPresent then Str(s.diskPrefix) else Absent
    else PrefixOf(s.doc) == PrefixOf(s.file)
  }

  predicate OtherKeys(s: Store, run: seq<Event>)
    decreases run
  {
    run == [] || (OtherKey(s, run[0]) && OtherKeys(Next(s, run[0]).store, run[1..]))
  }

  function Run(s: Store, run: seq<Event>): Store
    decreases run
  {
    if run == [] then s else Run(Next(s, run[0]).store, run[1..])
  }

  /** The prefix of the last accepted push, or the one the file had. */
  function LastPushed(s: Store, run: seq<Event>, sofar: Prefix): Prefix
    decreases run
  {
    if run == [] then sofar
    else
      var out := Next(s, run[0]);
      LastPushed(out.store, run[1..], if run[0].Push? && out.ok then PrefixOf(run[0].json.doc) else sofar)
  }

  lemma {:induction false} PushKeepsPrefix(s: Store, ev: Event)
    requires Sound(s) && OtherKey(s, ev) && ev.Push?
    ensures var out := Next(s, ev);
            && Sound(out.store) && LivePrefix(out.store.doc) == LivePrefix(s.doc)
            && PrefixOf(out.store.file) == if out.ok then PrefixOf(ev.json.doc) else PrefixOf(s.file)
  {}

  lemma {:induction false} OthersKeepPrefix(s: Store, ev: Event)
    requires Sound(s) && OtherKey(s, ev) && !ev.Push?
    ensures var s' := Next(s, ev).store;
            Sound(s') && LivePrefix(s'.doc) == LivePrefix(s.doc) && PrefixOf(s'.file) == PrefixOf(s.file)
  {}

  /** The live prefix stays the boot value and the file holds the last pushed one. */
  lemma {:induction false} PrefixIsHeld(s: Store, run: seq<Event>)
    requires Sound(s) && OtherKeys(s, run)
    ensures Sound(Run(s, run)) && LivePrefix(Run(s, run).doc) == LivePrefix(s.doc)
    ensures PrefixOf(Run(s, run).file) == LastPushed(s, run, PrefixOf(s.file))
    decreases run
  {
    if run != [] {
      if run[0].Push? { PushKeepsPrefix(s, run[0]); } else { OthersKeepPrefix(s, run[0]); }
      PrefixIsHeld(Next(s, run[0]).store, run[1..]);
    }
  }

  /** The device after a boot. */
  function Booted(file: Doc): Store { Store(file, file, false, false, "") }

  /** From any boot: a restart takes up the prefix that was pushed last. */
  lemma {:induction false} PushTakesEffectAtBoot(file: Doc, run: seq<Event>)
    requires OtherKeys(Booted(file), run)
    ensures var s := Booted(file);
            && LivePrefix(Run(s, run).doc) == LivePrefix(file)
            && LivePrefix(LoadOf(Run(s, run), Reads).doc) == TextOr(LastPushed(s, run, PrefixOf(file)), DEFAULT_PREFIX)
  {
    PrefixIsHeld(Booted(file), run);
  }

  /** A save that lands writes what copyDiskDoc shows, and no save changes the live document. */
  lemma SaveWritesDiskDoc(s: Store, lands: bool)
    requires Sound(s)
    ensures var out := SaveOf(s, lands);
            && out.ok == lands && out.store.file == (if lands then DiskDoc(s) else s.file)
            && out.store.doc == s.doc && out.store.held == s.held && DiskDoc(out.store) == DiskDoc(s)
            && (DiskCopy(s, true).Some? ==> DiskCopy(s, true) == Some(DiskDoc(s)))
  {}

  /**
   A replace that fails leaves the file. When the file reads, overlay and live
   prefix stay, and a later save writes the same file back exactly when nothing
   is held or the file has an mqtt section.
   */
  lemma FailedReplaceKeepsFile(s: Store, json: Parsed, lands: bool, r: Read)
    requires Sound(s) && !ReplaceOf(s, json, lands, r).ok
    ensures var s' := ReplaceOf(s, json, lands, r).store;
            && s'.file == s.file
            && (r == Reads ==>
                  && s'.held == s.held && LivePrefix(s'.doc) == LivePrefix(s.doc)
                  && (DiskDoc(s') == s.file <==> !s.held || HasSection(s.file)))
  {}

  /** When it does not read: the overlay stays exactly when what is left has no prefix or one that fits. */
  lemma UnreadReplace(s: Store, json: Parsed, lands: bool, r: Read)
    requires Sound(s) && s.held && !ReplaceOf(s, json, lands, r).ok
    ensures var s' := ReplaceOf(s, json, lands, r).store;
            var left := PrefixOf(Loaded(s.(doc := json.doc), r));
            && (s'.held <==> !left.Other? && |TextOr(left, "")| < TOPIC_PREFIX_CAP)
            && (s'.held ==> LivePrefix(s'.doc) == LivePrefix(s.doc))
  {}

  /** A reload that cannot open the file keeps the boot prefix live but forgets the hold: the next save stores it. */
  lemma UnopenedReloadForgets(s: Store)
    requires Sound(s) && s.held
    ensures var u := LoadOf(s, Unopened);
            && !u.held && u.doc == s.doc && u.file == s.file && LivePrefix(u.doc) == LivePrefix(s.doc)
            && PrefixOf(SaveOf(u, true).store.file) == Str(LivePrefix(s.doc))
  {}

  /** One that breaks off leaves nothing, so the default prefix. */
  lemma MalformedReloadClears(s: Store)
    ensures LoadOf(s, Malformed).doc == Null && LivePrefix(LoadOf(s, Malformed).doc) == "thesada/node"
  {}

  const Own := Obj(Some(Section(Str("a"), "")), "")
  const Pushed := Obj(Some(Section(Absent, "")), "")
  const Bare := Obj(None, "")
  const ToBare: seq<Event> :=
    [Push(Good(Pushed), true, true, Reads), FileWritten(Bare, true), Push(Good(Pushed), true, false, Reads)]

  /**
   A push, the file written without the section, a push that does not land: a save
   would now write an empty section.
   */
  lemma EmptySectionAppears()
    ensures OtherKeys(Booted(Own), ToBare)
    ensures var s := Run(Booted(Own), ToBare); s.held && s.file == Bare && DiskDoc(s) == Pushed
  {
    var s0 := Booted(Own);
    var s1 := Next(s0, ToBare[0]).store;
    assert s1 == Store(Own, Pushed, true, false, "");
    var s2 := Next(s1, ToBare[1]).store;
    var s3 := Next(s2, ToBare[2]).store;
    var r1 := ToBare[1..];
    var r2 := r1[1..];
    assert r1[0] == ToBare[1] && r2[0] == ToBare[2] && r2[1..] == [];
    assert Run(s2, r2) == s3 && OtherKeys(s2, r2);
    assert Run(s1, r1) == s3 && OtherKeys(s1, r1);
  }

  /** A shell write keeps the overlay exactly when what is loaded after it has no prefix or one that fits. */
  lemma OverlayKeptIff(s: Store, edited: Doc, r: Read)
    requires Sound(s) && s.held
    ensures var s' := ShellWriteOf(s, edited, false, true, r).store;
            var left := PrefixOf(Loaded(s.(file := edited), r));
            && (s'.held <==> !left.Other? && |TextOr(left, "")| < TOPIC_PREFIX_CAP)
            && (s'.held ==> LivePrefix(s'.doc) == LivePrefix(s.doc))
  {}
}
