/**
 Config.cpp, with its callers in MQTTClient.cpp and Shell.cpp: the live config
 document, the file behind it, and the topic prefix that stays at its boot
 value while the file already holds a pushed one. Every file read and write may
 fail.
 */
module ConfigStore {
  import opened Options

  const TOPIC_PREFIX_CAP: nat := 128
  const DEFAULT_PREFIX: string := "thesada/node"

  /** mqtt.topic_prefix: missing, a string, or some other value. */
  datatype Prefix = Absent | Str(text: string) | Other

  /** The other members stand as text. */
  datatype Section = Section(prefix: Prefix, others: string)

  /** Null is the empty document a failed read leaves. */
  datatype Doc = Null | Obj(mqtt: Option<Section>, rest: string)

  datatype Store = Store(doc: Doc, file: Doc, held: bool, diskPresent: bool, diskPrefix: string)

  datatype Outcome = Outcome(store: Store, ok: bool)

  /** How a read of the file ends: its document, no file to open, or an error in the middle. */
  datatype Read = Reads | Unopened | Malformed

  /** A text that parses, or what a failed parse leaves behind. */
  datatype Parsed = Good(doc: Doc) | Broken(doc: Doc)

  predicate HasSection(d: Doc) { d.Obj? && d.mqtt.Some? }

  function PrefixOf(d: Doc): Prefix { if HasSection(d) then d.mqtt.value.prefix else Absent }

  function TextOr(p: Prefix, default: string): string { if p.Str? then p.text else default }

  function LivePrefix(d: Doc): string { TextOr(PrefixOf(d), DEFAULT_PREFIX) }

  /** Assigning the member creates the section when it is missing. */
  function SetPrefix(d: Doc, text: string): Doc {
    Obj(Some(Section(Str(text), if HasSection(d) then d.mqtt.value.others else "")), if d.Obj? then d.rest else "")
  }

  function RemovePrefix(d: Doc): Doc {
    if HasSection(d) then d.(mqtt := Some(d.mqtt.value.(prefix := Absent))) else d
  }

  // ---- Config.cpp ----

  function Loaded(s: Store, r: Read): Doc {
    match r
    case Reads => s.file
    case Unopened => s.doc
    case Malformed => Null
  }

  function LoadOf(s: Store, r: Read): Store { Store(Loaded(s, r), s.file, false, false, "") }

  function WriteOf(s: Store, d: Doc, lands: bool): Outcome { Outcome(if lands then s.(file := d) else s, lands) }

  /** The document without the overlay: what belongs in the file. */
  function DiskDoc(s: Store): Doc {
    if !s.held then s.doc else if s.diskPresent then SetPrefix(s.doc, s.diskPrefix) else RemovePrefix(s.doc)
  }

  /** copyDiskDoc: fits when both copies find memory. */
  function DiskCopy(s: Store, fits: bool): Option<Doc> {
    if !fits || !s.doc.Obj? then None else Some(DiskDoc(s))
  }

  function SaveOf(s: Store, lands: bool): Outcome {
    var live := TextOr(PrefixOf(s.doc), "");
    if !s.held then WriteOf(s, s.doc, lands)
    else if |live| >= TOPIC_PREFIX_CAP then Outcome(s, false)
    else
      var out := WriteOf(s, DiskDoc(s), lands);
      Outcome(out.store.(doc := SetPrefix(DiskDoc(s), live)), lands)
  }

  function HoldOf(s: Store, prefix: string): Outcome {
    var disk := PrefixOf(s.doc);
    if disk.Other? then Outcome(s, false)
    else if |TextOr(disk, "")| >= TOPIC_PREFIX_CAP || |prefix| >= TOPIC_PREFIX_CAP then Outcome(s, false)
    else
      var over := s.(diskPrefix := TextOr(disk, ""), diskPresent := disk.Str?, held := true);
      Outcome(over.(doc := SetPrefix(s.doc, prefix)), true)
  }

  function BootPrefix(s: Store): Option<string> {
    var live := TextOr(PrefixOf(s.doc), "");
    if !s.held || |live| >= TOPIC_PREFIX_CAP then None else Some(live)
  }

  /** Back to the file, with the boot prefix over it again if one was held. */
  function RollbackOf(s: Store, boot: Option<string>, r: Read): Store {
    if boot.None? then LoadOf(s, r) else HoldOf(LoadOf(s, r), boot.value).store
  }

  function ReplaceOf(s: Store, json: Parsed, lands: bool, r: Read): Outcome {
    var boot := BootPrefix(s);
    if s.held && boot.None? then Outcome(s, false)
    else if json.Broken? || !lands then Outcome(RollbackOf(s.(doc := json.doc), boot, r), false)
    else Outcome(Store(json.doc, json.doc, false, false, ""), true)
  }

  // ---- Their callers ----

  /** The pushed prefix is missing or a string that fits its command topic. */
  predicate PushFits(d: Doc) {
    !PrefixOf(d).Other? && |LivePrefix(d)| + |"/cmd/config"| < TOPIC_PREFIX_CAP
  }

  /** An object whose mqtt section names a broker, which brokerOk says fits. */
  predicate NamesBroker(json: Parsed, brokerOk: bool) { json.Good? && HasSection(json.doc) && brokerOk }

  function PushOf(s: Store, json: Parsed, brokerOk: bool, lands: bool, r: Read): Outcome {
    var live := LivePrefix(s.doc);
    if !NamesBroker(json, brokerOk) || |live| >= TOPIC_PREFIX_CAP || !PushFits(json.doc) then Outcome(s, false)
    else
      var out := ReplaceOf(s, json, lands, r);
      if !out.ok then out
      else if LivePrefix(out.store.doc) == live then out
      else Outcome(HoldOf(out.store, live).store, true)
  }

  /**
   config.set and config.del: the edited file is written and loaded, and the
   overlay put back unless the key is the prefix itself.
   */
  function ShellWriteOf(s: Store, edited: Doc, prefixKey: bool, lands: bool, r: Read): Outcome {
    var boot := BootPrefix(s);
    if s.held && boot.None? then Outcome(s, false)
    else if !lands then Outcome(s, false)
    else Outcome(RollbackOf(s.(file := edited), if prefixKey then None else boot, r), true)
  }

  /** config.save. */
  function ShellSaveOf(s: Store, fits: bool, lands: bool): Outcome {
    var copy := DiskCopy(s, fits);
    if copy.None? then Outcome(s, false) else WriteOf(s, copy.value, lands)
  }

  // ---- The class ----

  class Config {
    var doc: Doc
    var file: Doc
    var held: bool
    var diskPresent: bool
    var diskPrefix: string

    constructor (file: Doc)
      ensures View() == Store(file, file, false, false, "")
    {
      this.doc, this.file := file, file;
      held, diskPresent, diskPrefix := false, false, "";
    }

    function View(): Store
      reads this
    {
      Store(doc, file, held, diskPresent, diskPrefix)
    }

    method ClearHeld()
      modifies this`held, this`diskPresent, this`diskPrefix
      ensures !held && !diskPresent && diskPrefix == ""
    {
      held, diskPresent, diskPrefix := false, false, "";
    }

    method Load(r: Read)
      modifies this
      ensures View() == LoadOf(old(View()), r)
    {
      ClearHeld();
      match r
      case Reads => doc := file;
      case Unopened =>
      case Malformed => doc := Null;
    }

    method WriteFile(src: Doc, lands: bool) returns (ok: bool)
      modifies this`file
      ensures ok == lands && file == if lands then src else old(file)
    {
      if !lands { return false; }
      file := src;
      return true;
    }

    method Save(lands: bool) returns (ok: bool)
      modifies this
      ensures Outcome(View(), ok) == SaveOf(old(View()), lands)
    {
      var live, swapped := "", false;
      if held {
        live := TextOr(PrefixOf(doc), "");
        if |live| >= TOPIC_PREFIX_CAP { return false; }
        if diskPresent { doc := SetPrefix(doc, diskPrefix); } else { doc := RemovePrefix(doc); }
        swapped := true;
      }
      ok := WriteFile(doc, lands);
      if swapped { doc := SetPrefix(doc, live); }
    }

    method HoldTopicPrefix(prefix: string) returns (ok: bool)
      modifies this
      ensures Outcome(View(), ok) == HoldOf(old(View()), prefix)
    {
      var disk := PrefixOf(doc);
      if disk.Other? { return false; }
      var text := TextOr(disk, "");
      if |text| >= TOPIC_PREFIX_CAP || |prefix| >= TOPIC_PREFIX_CAP { return false; }
      diskPrefix, diskPresent, held := text, disk.Str?, true;
      doc := SetPrefix(doc, prefix);
      return true;
    }

    method CopyBootTopicPrefix() returns (prefix: Option<string>)
      ensures prefix == BootPrefix(View())
    {
      if !held { return None; }
      var live := TextOr(PrefixOf(doc), "");
      return if |live| >= TOPIC_PREFIX_CAP then None else Some(live);
    }

    method CopyDiskDoc(fits: bool) returns (dst: Option<Doc>)
      ensures dst == DiskCopy(View(), fits)
    {
      if !fits || !doc.Obj? { return None; }
      var copy := doc;
      if held { copy := if diskPresent then SetPrefix(copy, diskPrefix) else RemovePrefix(copy); }
      return Some(copy);
    }

    method Replace(json: Parsed, lands: bool, r: Read) returns (ok: bool)
      modifies this
      ensures Outcome(View(), ok) == ReplaceOf(old(View()), json, lands, r)
    {
      var boot := CopyBootTopicPrefix();
      if held && boot.None? { return false; }
      ClearHeld();
      doc := json.doc;
      var saved := false;
      if json.Good? { saved := Save(lands); }
      if saved { return true; }
      Load(r);
      if boot.Some? { var _ := HoldTopicPrefix(boot.value); }
      return false;
    }

    method ApplyPush(json: Parsed, brokerOk: bool, lands: bool, r: Read) returns (ok: bool)
      modifies this
      ensures Outcome(View(), ok) == PushOf(old(View()), json, brokerOk, lands, r)
    {
      if !NamesBroker(json, brokerOk) { return false; }
      var live := LivePrefix(doc);
      if |live| >= TOPIC_PREFIX_CAP || !PushFits(json.doc) { return false; }
      ok := Replace(json, lands, r);
      if !ok { return; }
      if LivePrefix(doc) != live { var _ := HoldTopicPrefix(live); }
    }

    method ShellWrite(edited: Doc, prefixKey: bool, lands: bool, r: Read) returns (ok: bool)
      modifies this
      ensures Outcome(View(), ok) == ShellWriteOf(old(View()), edited, prefixKey, lands, r)
    {
      var boot := CopyBootTopicPrefix();
      if held && boot.None? { return false; }
      ok := WriteFile(edited, lands);
      if !ok { return; }
      Load(r);
      if boot.Some? && !prefixKey { var _ := HoldTopicPrefix(boot.value); }
    }

    method ShellSave(fits: bool, lands: bool) returns (ok: bool)
      modifies this
      ensures Outcome(View(), ok) == ShellSaveOf(old(View()), fits, lands)
    {
      var dst := CopyDiskDoc(fits);
      if dst.None? { return false; }
      ok := WriteFile(dst.value, lands);
    }
  }
}
