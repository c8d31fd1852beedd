/**
 fatCommit of config_write_policy.h: moving a finished upload over its target
 on a filesystem whose rename cannot replace. The k-th operation works when
 works(k).
 */
module FatCommit {
  import opened Options

  datatype Result = Ok | OkBakLeft | KeptOld | Stranded

  type Files = map<string, string>

  function Lookup(files: Files, p: string): Option<string> { if p in files then Some(files[p]) else None }

  class FatFs {
    const works: nat -> bool
    var files: Files
    var ops: nat
    /** Every state the card was in: what a power cut may leave. */
    ghost var trace: seq<Files>

    constructor (works: nat -> bool, files: Files)
      ensures this.works == works && this.files == files && ops == 0 && trace == [files]
    {
      this.works, this.files, ops, trace := works, files, 0, [files];
    }

    predicate Exists(p: string)
      reads this
    {
      p in files
    }

    method Remove(p: string) returns (ok: bool)
      modifies this`files, this`ops, this`trace
      ensures ok ==> p in old(files) && files == old(files) - {p}
      ensures !ok ==> files == old(files)
      ensures ok == (p in old(files) && works(old(ops))) && ops == old(ops) + 1
      ensures trace == old(trace) + [files]
    {
      ok := p in files && works(ops);
      ops := ops + 1;
      if ok { files := files - {p}; }
      trace := trace + [files];
    }

    method Rename(a: string, b: string) returns (ok: bool)
      modifies this`files, this`ops, this`trace
      ensures ok ==> a in old(files) && b !in old(files) && files == (old(files) - {a})[b := old(files)[a]]
      ensures !ok ==> files == old(files)
      ensures ok == (a in old(files) && b !in old(files) && works(old(ops))) && ops == old(ops) + 1
      ensures trace == old(trace) + [files]
    {
      ok := a in files && b !in files && works(ops);
      ops := ops + 1;
      if ok { files := (files - {a})[b := files[a]]; }
      trace := trace + [files];
    }
  }

  /**
   The old file is under its name or parked, or the new one is in place; without an
   old file, the new one is somewhere.
   */
  predicate Survives(files: Files, tmp: string, bak: string, path: string, was: Option<string>, upload: string) {
    || Lookup(files, path) == Some(upload)
    || (was.Some? && (Lookup(files, path) == was || Lookup(files, bak) == was))
    || (was.None? && Lookup(files, tmp) == Some(upload))
  }

  ghost predicate SameElsewhere(a: Files, b: Files, names: set<string>) {
    forall p :: p !in names ==> Lookup(a, p) == Lookup(b, p)
  }

  /** The old file out of the way. */
  method Park(fs: FatFs, tmp: string, bak: string, path: string) returns (moved: bool)
    requires tmp != bak && tmp != path && bak != path && tmp in fs.files && path in fs.files
    modifies fs
    ensures Lookup(fs.files, tmp) == Lookup(old(fs.files), tmp)
    ensures Lookup(fs.files, if moved then bak else path) == Lookup(old(fs.files), path)
            && (moved ==> path !in fs.files)
    ensures SameElsewhere(old(fs.files), fs.files, {bak, path})
    ensures old(fs.trace) <= fs.trace
    ensures forall k :: |old(fs.trace)| <= k < |fs.trace| ==>
              Survives(fs.trace[k], tmp, bak, path, Some(old(fs.files)[path]), old(fs.files)[tmp])
    ensures (forall k :: fs.works(k)) ==> moved
  {
    var _ := fs.Remove(bak);
    moved := fs.Rename(path, bak);
  }

  /** The upload did not go in place: the parked file goes back. */
  method Restore(fs: FatFs, tmp: string, bak: string, path: string) returns (r: Result)
    requires tmp != bak && tmp != path && bak != path && tmp in fs.files && bak in fs.files && path !in fs.files
    modifies fs
    ensures r == KeptOld || r == Stranded
    ensures var was, upload := Some(old(fs.files)[bak]), Some(old(fs.files)[tmp]);
            if r == KeptOld then Lookup(fs.files, path) == was && Lookup(fs.files, tmp) in {None, upload}
            else path !in fs.files && Lookup(fs.files, bak) == was && Lookup(fs.files, tmp) == upload
    ensures SameElsewhere(old(fs.files), fs.files, {tmp, bak, path})
    ensures old(fs.trace) <= fs.trace
    ensures forall k :: |old(fs.trace)| <= k < |fs.trace| ==>
              Survives(fs.trace[k], tmp, bak, path, Some(old(fs.files)[bak]), old(fs.files)[tmp])
  {
    var restored := fs.Rename(bak, path);
    if restored { var _ := fs.Remove(tmp); return KeptOld; }
    return Stranded;
  }

  /**
   Under every pattern of failures: what each result leaves, and when no step
   on the way loses the last copy. That is unless there was no old file, the
   rename fails and the remove after it works.
   */
  method Commit(fs: FatFs, tmp: string, bak: string, path: string) returns (r: Result)
    requires tmp != bak && tmp != path && bak != path && tmp in fs.files
    modifies fs
    ensures var was, upload := Lookup(old(fs.files), path), Some(old(fs.files)[tmp]);
            match r
            case Ok => Lookup(fs.files, path) == upload && tmp !in fs.files && (was.Some? ==> bak !in fs.files)
            case OkBakLeft =>
              Lookup(fs.files, path) == upload && tmp !in fs.files && was.Some? && Lookup(fs.files, bak) == was
            case KeptOld => Lookup(fs.files, path) == was && Lookup(fs.files, tmp) in {None, upload}
            case Stranded =>
              path !in fs.files && was.Some? && Lookup(fs.files, bak) == was && Lookup(fs.files, tmp) == upload
    ensures SameElsewhere(old(fs.files), fs.files, {tmp, bak, path})
    ensures old(fs.trace) <= fs.trace
    ensures (forall k :: |old(fs.trace)| <= k < |fs.trace| ==>
               Survives(fs.trace[k], tmp, bak, path, Lookup(old(fs.files), path), old(fs.files)[tmp]))
            <==> path in old(fs.files) || fs.works(old(fs.ops)) || !fs.works(old(fs.ops) + 1)
    ensures (forall k :: fs.works(k)) ==> r == Ok
    ensures path !in old(fs.files) && !fs.works(old(fs.ops)) && fs.works(old(fs.ops) + 1) ==>
              r == KeptOld && path !in fs.files && tmp !in fs.files
  {
    var parked := false;
    if fs.Exists(path) {
      var moved := Park(fs, tmp, bak, path);
      if !moved { var _ := fs.Remove(tmp); return KeptOld; }
      parked := true;
    }
    var placed := fs.Rename(tmp, path);
    if !placed {
      if !parked {
        var gone := fs.Remove(tmp);
        assert fs.trace[|fs.trace| - 1] == fs.files;
        return KeptOld;
      }
      r := Restore(fs, tmp, bak, path);
      return;
    }
    if parked {
      var removed := fs.Remove(bak);
      if !removed { return OkBakLeft; }
    }
    return Ok;
  }

  /** With no old file, a rename that fails loses the upload: no copy is left. */
  method UploadCanBeLost() returns (fs: FatFs, r: Result)
    ensures r == KeptOld && !Survives(fs.files, "t", "b", "p", None, "new")
  {
    fs := new FatFs(k => k != 0, map["t" := "new"]);
    r := Commit(fs, "t", "b", "p");
  }
}
