/** The agent's file receiver: validates a patch, replaces its files, then publishes its hash and marker. */
module Receiver {
  import opened Common
  import opened ReceiverDisk

  /** The validator of a file, chosen by its extension: None if the content is good, else the error. */
  type Validator = (string, Bytes) -> Option<string>

  /** Whether the n-th file system operation succeeds. */
  type FileSystem = nat -> bool

  const MARKER_FILE := "write-files.last"

  /** The white space that trimming removes. */
  predicate Space(c: char) {
    || '\t' <= c <= '\r' || c == ' ' || c == '\U{0085}' || c == '\U{00A0}' || c == '\U{1680}'
    || '\U{2000}' <= c <= '\U{200A}'
    || c == '\U{2028}' || c == '\U{2029}' || c == '\U{202F}' || c == '\U{205F}' || c == '\U{3000}'
  }

  /** A plain, visible name inside the directory that is not the marker's. */
  predicate GoodName(name: string) {
    (exists i :: 0 <= i < |name| && !Space(name[i])) && '/' !in name && name[0] != '.' && name != MARKER_FILE
  }

  // ----- the same, as the checks on a path put it -----

  /** strings.TrimSpace */
  function TrimSpace(s: string): string
    decreases |s|
  {
    if s != [] && Space(s[0]) then TrimSpace(s[1..])
    else if s != [] && Space(s[|s| - 1]) then TrimSpace(s[..|s| - 1])
    else s
  }

  /** filepath.Base: the last element of a path, trailing slashes aside. */
  function Base(path: string): string
    decreases |path|
  {
    if path == "" then "."
    else if path[|path| - 1] == '/' then if |path| == 1 then "/" else Base(path[..|path| - 1])
    else LastElement(path)
  }

  function LastElement(path: string): string
    decreases |path|
  {
    if path == [] || path[|path| - 1] == '/' then ""
    else LastElement(path[..|path| - 1]) + [path[|path| - 1]]
  }

  lemma {:induction false} TrimmedAway(s: string)
    ensures TrimSpace(s) == "" <==> forall i :: 0 <= i < |s| ==> Space(s[i])
    decreases |s|
  {
    if s != [] && Space(s[0]) {
      TrimmedAway(s[1..]);
      assert forall i :: 0 < i < |s| ==> s[i] == s[1..][i - 1];
    } else if s != [] && Space(s[|s| - 1]) {
      TrimmedAway(s[..|s| - 1]);
      assert s[..|s| - 1][0] == s[0] || |s| == 1;
    }
  }

  lemma {:induction false} LastElementIs(path: string)
    ensures |LastElement(path)| <= |path|
    ensures LastElement(path) == path <==> '/' !in path
    decreases |path|
  {
    if path != [] && path[|path| - 1] != '/' {
      var init := path[..|path| - 1];
      LastElementIs(init);
      assert path == init + [path[|path| - 1]];
    }
  }

  lemma {:induction false} BaseIs(path: string)
    ensures Base(path) == path <==> path == "/" || (path != "" && '/' !in path)
    ensures |Base(path)| <= |path| || path == ""
    decreases |path|
  {
    if path != "" {
      if path[|path| - 1] == '/' {
        BaseIs(path[..|path| - 1]);
      } else {
        LastElementIs(path);
      }
    }
  }

  /** The good names are those that pass all five tests. */
  lemma GoodNameIs(name: string)
    ensures GoodName(name) <==>
      && TrimSpace(name) != "" && !("/" <= name) && Base(name) == name && !("." <= name) && name != MARKER_FILE
  {
    TrimmedAway(name);
    BaseIs(name);
  }

  ghost predicate GoodNames(files: map<string, Bytes>) {
    forall f :: f in files ==> GoodName(f)
  }

  function PatchOf(validate: Validator, files: map<string, Bytes>, hash: string): Patch {
    Patch(files, hash, map f | f in files && validate(f, files[f]).Some? :: validate(f, files[f]).value)
  }

  /** Steps stay allowed after temporary files come and go. */
  lemma AllowedAfterTemporary(patch: Patch, before: seq<Step>, temporary: Step, step: Step)
    requires Allowed(patch, before, step)
    ensures Allowed(patch, before + [temporary], step)
  {
  }

  /**
   What a call returns: an error before anything happened, an I/O error, or success, with
   or without the patch applied.
   */
  datatype Outcome = Refused | Failed | Rejected | Applied

  class FileReceiver {
    const validate: Validator
    const hasIdentityDir: bool
    var disk: Disk
    var operations: nat
    ghost var trace: seq<Step>     // the steps of the current patch
    ghost var start: Disk          // and the disk it started from

    constructor (validate: Validator, hasIdentityDir: bool, disk: Disk)
      ensures this.validate == validate && this.hasIdentityDir == hasIdentityDir && this.disk == disk
    {
      this.validate, this.hasIdentityDir, this.disk, operations := validate, hasIdentityDir, disk, 0;
      trace, start := [], disk;
    }

    /** The disk is what the steps so far made of it, so each prefix of the trace is what a crash would have left. */
    ghost predicate Following(patch: Patch, k: nat)
      reads this
    {
      Legal(patch, trace) && disk == DoAll(start, k, trace)
    }

    method Emit(ghost patch: Patch, k: nat, step: Step)
      requires Following(patch, k) && Allowed(patch, trace, step)
      modifies this`disk, this`trace
      ensures Following(patch, k) && trace == old(trace) + [step] && disk == Do(old(disk), k, step)
    {
      LegalSnoc(patch, trace, step);
      DoSnoc(start, k, trace, step);
      trace := trace + [step];
      disk := Do(disk, k, step);
    }

    /** The next file system operation. */
    method Attempt(io: FileSystem) returns (ok: bool)
      modifies this`operations
      ensures ok == io(old(operations))
    {
      ok := io(operations);
      operations := operations + 1;
    }

    /** Writes a temporary file beside the target and renames it into place. */
    method ReplaceFile(ghost patch: Patch, k: nat, step: Step, io: FileSystem) returns (ok: bool)
      requires Following(patch, k) && Allowed(patch, trace, step) && patch.faults == map[]
      requires step.SetFile? || step.SetHash? || step.SetMarker?
      modifies this`disk, this`trace, this`operations
      ensures Following(patch, k) && old(trace) <= trace
      ensures ok ==>
        trace == old(trace) + [OpenTemporary, step] &&
        disk == Do(old(disk), k, step).(temporaries := old(disk.temporaries))
      ensures !ok ==> !forall n :: io(n)
    {
      ok := Attempt(io);
      if !ok {
        return;
      }
      AllowedAfterTemporary(patch, trace, OpenTemporary, step);
      Emit(patch, k, OpenTemporary);
      ok := Attempt(io);
      if ok {
        ok := Attempt(io);
      }
      if !ok {
        var removed := Attempt(io);
        if removed {
          Emit(patch, k, DropTemporary);
        }
        return;
      }
      Emit(patch, k, step);
    }

    method CheckNames(files: map<string, Bytes>) returns (ok: bool)
      ensures ok <==> GoodNames(files)
    {
      var rest := files.Keys;
      while rest != {}
        invariant rest <= files.Keys && forall f :: f in files && f !in rest ==> GoodName(f)
        decreases |rest|
      {
        var f :| f in rest;
        if !GoodName(f) {
          return false;
        }
        rest := rest - {f};
      }
      return true;
    }

    /** Validates every file and reports each fault in the errors directory. */
    method Validate(patch: Patch, k: nat, io: FileSystem) returns (ok: bool, rejected: bool)
      requires Following(patch, k) && trace == [] && patch == PatchOf(validate, patch.files, patch.hash)
      modifies this`disk, this`trace, this`operations
      ensures Following(patch, k)
      ensures ok ==> (rejected <==> patch.faults != map[])
      ensures ok && !rejected ==> trace == []
      ensures ok ==> forall f :: f in patch.faults ==> f in disk.errors && disk.errors[f] == patch.faults[f]
      ensures !ok ==> !forall n :: io(n)
    {
      var rest := patch.files.Keys;
      rejected := false;
      while rest != {}
        invariant rest <= patch.files.Keys && Following(patch, k)
        invariant rejected <==> exists f :: f in patch.faults && f !in rest
        invariant !rejected ==> trace == []
        invariant forall f :: f in patch.faults && f !in rest ==> f in disk.errors && disk.errors[f] == patch.faults[f]
        decreases |rest|
      {
        var name :| name in rest;
        var fault := validate(name, patch.files[name]);
        rest := rest - {name};
        if fault.Some? {
          ok := Attempt(io);
          if ok {
            ok := Attempt(io);
          }
          if !ok {
            return;
          }
          assert name in patch.faults;
          Emit(patch, k, SetError(name, fault.value));
          rejected := true;
        }
      }
      ok := true;
    }

    /** Replaces every file of the patch. */
    method ReplaceFiles(patch: Patch, k: nat, io: FileSystem) returns (ok: bool)
      requires Following(patch, k) && patch.faults == map[]
      modifies this`disk, this`trace, this`operations
      ensures Following(patch, k)
      ensures ok ==> AllSet(patch, trace) && disk.temporaries == old(disk.temporaries)
      ensures ok ==> forall f :: f in patch.files ==> f in disk.files && disk.files[f] == Stamped(k, patch.files[f])
      ensures !ok ==> !forall n :: io(n)
    {
      var rest := patch.files.Keys;
      while rest != {}
        invariant rest <= patch.files.Keys && Following(patch, k) && disk.temporaries == old(disk.temporaries)
        invariant forall f :: f in patch.files && f !in rest ==>
                    SetFile(f, patch.files[f]) in trace &&
                    f in disk.files && disk.files[f] == Stamped(k, patch.files[f])
        decreases |rest|
      {
        var name :| name in rest;
        ok := ReplaceFile(patch, k, SetFile(name, patch.files[name]), io);
        if !ok {
          return;
        }
        rest := rest - {name};
      }
      ok := true;
    }

    /** Removes the validation errors of the patch's files. */
    method ClearErrors(patch: Patch, k: nat, io: FileSystem) returns (ok: bool)
      requires Following(patch, k) && patch.faults == map[] && AllSet(patch, trace)
      modifies this`disk, this`trace, this`operations
      ensures Following(patch, k) && AllSet(patch, trace) && disk == old(disk).(errors := disk.errors)
      ensures ok ==> forall f :: f in patch.files ==> ClearError(f) in trace && f !in disk.errors
      ensures !ok ==> !forall n :: io(n)
    {
      var rest := patch.files.Keys;
      while rest != {}
        invariant rest <= patch.files.Keys && Following(patch, k) && AllSet(patch, trace)
        invariant disk == old(disk).(errors := disk.errors)
        invariant forall f :: f in patch.files && f !in rest ==> ClearError(f) in trace && f !in disk.errors
        decreases |rest|
      {
        var name :| name in rest;
        ok := Attempt(io);
        if !ok {
          return;
        }
        Emit(patch, k, ClearError(name));
        rest := rest - {name};
      }
      ok := true;
    }

    /**
     Validates and applies the patch with number `k`. A bad request does nothing, a
     patch with faults is rejected after reporting them, and otherwise the files, the
     cleared errors, the hash and the marker follow in that order; without I/O errors
     nothing else happens.
     */
    method ReceiveFiles(files: map<string, Bytes>, hash: string, k: nat, time: int, io: FileSystem) returns (r: Outcome)
      modifies this
      ensures var patch := PatchOf(validate, files, hash);
        && Legal(patch, trace) && disk == DoAll(old(disk), k, trace)
        && (r.Refused? <==> hash == "" || !hasIdentityDir || !GoodNames(files))
        && (r.Refused? ==> trace == [])
        && (r.Rejected? ==> patch.faults != map[])
        && (r.Rejected? ==> forall f :: f in patch.faults ==> f in disk.errors && disk.errors[f] == patch.faults[f])
        && (r.Applied? ==>
              patch.faults == map[] && Complete(patch, k, time) && disk.temporaries == old(disk.temporaries))
        && (r.Failed? ==> !forall n :: io(n))
      ensures forall f :: f !in files ==> SameOf(old(disk), disk, f)
    {
      start, trace := disk, [];
      if hash == "" || !hasIdentityDir {
        return Refused;
      }
      var good := CheckNames(files);
      if !good {
        return Refused;
      }
      var patch := PatchOf(validate, files, hash);
      var ok, rejected := Validate(patch, k, io);
      if !ok {
        r := Failed;
      } else if rejected {
        r := Rejected;
      } else {
        r := Apply(patch, k, time, io);
      }
      OnlyNamed(patch, k, start, trace);
    }

    /** Whatever has been done so far, it was done to files of the patch. */
    static lemma OnlyNamed(patch: Patch, k: nat, start: Disk, trace: seq<Step>)
      requires Legal(patch, trace) && patch.faults.Keys <= patch.files.Keys
      ensures forall f :: f !in patch.files ==> SameOf(start, DoAll(start, k, trace), f)
    {
      forall f | f !in patch.files {
        OthersLeftAlone(start, k, patch, trace, f);
      }
    }

    /** Everything of the patch is on disk. */
    ghost predicate Complete(patch: Patch, k: nat, time: int)
      reads this
    {
      && (forall f :: f in patch.files ==>
            f in disk.files && disk.files[f] == Stamped(k, patch.files[f]) && f !in disk.errors)
      && disk.hash == Some(Stamped(k, patch.hash)) && disk.marker == Some(Stamped(k, time))
    }

    method Apply(patch: Patch, k: nat, time: int, io: FileSystem) returns (r: Outcome)
      requires Following(patch, k) && patch.faults == map[]
      modifies this`disk, this`trace, this`operations
      ensures Following(patch, k) && (r == Failed || r == Applied)
      ensures r.Applied? ==> Complete(patch, k, time) && disk.temporaries == old(disk.temporaries)
      ensures r.Failed? ==> !forall n :: io(n)
    {
      var ok := ReplaceFiles(patch, k, io);
      if !ok {
        return Failed;
      }
      ok := ClearErrors(patch, k, io);
      if !ok {
        return Failed;
      }
      ok := ReplaceFile(patch, k, SetHash(patch.hash), io);
      if !ok {
        return Failed;
      }
      ok := ReplaceFile(patch, k, SetMarker(time), io);
      return if ok then Applied else Failed;
    }
  }
}
