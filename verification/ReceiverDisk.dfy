/**
 What the agent's file receiver leaves on disk. A patch makes visible steps in an
 order; a crash may cut them off anywhere. Every content carries the number of the
 patch that wrote it.
 */
module ReceiverDisk {
  import opened Common

  type Bytes = seq<Byte>

  newtype Byte = x: int | 0 <= x < 256

  /** A patch: its files, its configuration hash, and the faults validation finds in its files. */
  datatype Patch = Patch(files: map<string, Bytes>, hash: string, faults: map<string, string>)

  datatype Stamped<T> = Stamped(patch: nat, value: T)

  /** Received files, validation errors, the hash, the completion marker, and how many temporary files lie about. */
  datatype Disk = Disk(
    files: map<string, Stamped<Bytes>>,
    errors: map<string, string>,
    hash: Option<Stamped<string>>,
    marker: Option<Stamped<int>>,
    temporaries: nat)

  /** The steps that change the disk. A file is replaced by renaming a temporary one, in one step. */
  datatype Step =
    | OpenTemporary
    | DropTemporary
    | SetError(name: string, text: string)
    | SetFile(name: string, content: Bytes)
    | ClearError(name: string)
    | SetHash(hash: string)
    | SetMarker(time: int)

  function Less(n: nat): nat {
    if n == 0 then 0 else n - 1
  }

  /** The disk after a step of the patch with number `k`; renaming uses up the temporary file. */
  function Do(disk: Disk, k: nat, step: Step): Disk {
    match step
    case OpenTemporary => disk.(temporaries := disk.temporaries + 1)
    case DropTemporary => disk.(temporaries := Less(disk.temporaries))
    case SetError(name, text) => disk.(errors := disk.errors[name := text])
    case SetFile(name, content) =>
      disk.(files := disk.files[name := Stamped(k, content)], temporaries := Less(disk.temporaries))
    case ClearError(name) => disk.(errors := disk.errors - {name})
    case SetHash(hash) => disk.(hash := Some(Stamped(k, hash)), temporaries := Less(disk.temporaries))
    case SetMarker(time) => disk.(marker := Some(Stamped(k, time)), temporaries := Less(disk.temporaries))
  }

  function DoAll(disk: Disk, k: nat, trace: seq<Step>): Disk {
    if trace == [] then disk else Do(DoAll(disk, k, trace[..|trace| - 1]), k, trace[|trace| - 1])
  }

  ghost predicate AllSet(patch: Patch, trace: seq<Step>) {
    forall f :: f in patch.files ==> SetFile(f, patch.files[f]) in trace
  }

  /** A step a patch may make after the given ones. */
  ghost predicate Allowed(patch: Patch, before: seq<Step>, step: Step) {
    match step
    case OpenTemporary => patch.faults == map[]
    case DropTemporary => patch.faults == map[]
    case SetError(name, text) => name in patch.faults && text == patch.faults[name]
    case SetFile(name, content) => patch.faults == map[] && name in patch.files && content == patch.files[name]
    case ClearError(name) => patch.faults == map[] && name in patch.files && AllSet(patch, before)
    case SetHash(hash) =>
      && patch.faults == map[] && hash == patch.hash && AllSet(patch, before)
      && forall f :: f in patch.files ==> ClearError(f) in before
    case SetMarker(time) => SetHash(patch.hash) in before
  }

  /** Each step was allowed after those before it; so the same holds of every prefix, where a crash may stop. */
  ghost predicate Legal(patch: Patch, trace: seq<Step>) {
    trace == [] || (Legal(patch, trace[..|trace| - 1]) && Allowed(patch, trace[..|trace| - 1], trace[|trace| - 1]))
  }

  lemma LegalSnoc(patch: Patch, trace: seq<Step>, step: Step)
    requires Legal(patch, trace) && Allowed(patch, trace, step)
    ensures Legal(patch, trace + [step])
  {
  }

  lemma DoSnoc(disk: Disk, k: nat, trace: seq<Step>, step: Step)
    ensures DoAll(disk, k, trace + [step]) == Do(DoAll(disk, k, trace), k, step)
  {
  }

  // ----- the commit order -----

  /**
   Received files come from the first `n` patches, and a hash stands only over files at
   least as new as its patch's.
   */
  ghost predicate Consistent(disk: Disk, patches: seq<Patch>, n: nat)
    requires n <= |patches|
  {
    && (forall f :: f in disk.files ==> disk.files[f].patch < n && From(disk.files[f], patches[disk.files[f].patch], f))
    && (disk.hash.Some? ==> disk.hash.value.patch < n && HashStands(disk, patches[disk.hash.value.patch]))
    && (disk.marker.Some? ==> disk.hash.Some? && disk.marker.value.patch <= disk.hash.value.patch)
  }

  predicate From(file: Stamped<Bytes>, patch: Patch, f: string) {
    f in patch.files && file.value == patch.files[f]
  }

  ghost predicate HashStands(disk: Disk, patch: Patch)
    requires disk.hash.Some?
  {
    && disk.hash.value.value == patch.hash
    && (forall f :: f in patch.files ==> f in disk.files && disk.files[f].patch >= disk.hash.value.patch)
  }

  /** Nothing on the disk is older than it was. */
  ghost predicate NoOlder(disk: Disk, disk': Disk) {
    && (forall f :: f in disk.files ==> f in disk'.files && disk.files[f].patch <= disk'.files[f].patch)
    && (disk.hash.Some? ==> disk'.hash.Some? && disk.hash.value.patch <= disk'.hash.value.patch)
    && (disk.marker.Some? ==> disk'.marker.Some? && disk.marker.value.patch <= disk'.marker.value.patch)
  }

  /** During patch `k`: the files it set so far carry its number, and so does the hash once set. */
  ghost predicate InProgress(disk: Disk, patches: seq<Patch>, k: nat, trace: seq<Step>)
    requires k < |patches|
  {
    && Consistent(disk, patches, k + 1)
    && (forall f, c :: SetFile(f, c) in trace ==> f in disk.files && disk.files[f].patch == k)
    && (forall h :: SetHash(h) in trace ==> disk.hash.Some? && disk.hash.value.patch == k)
  }

  lemma StepInProgress(disk: Disk, patches: seq<Patch>, k: nat, trace: seq<Step>, step: Step)
    requires k < |patches| && InProgress(disk, patches, k, trace) && Allowed(patches[k], trace, step)
    ensures InProgress(Do(disk, k, step), patches, k, trace + [step]) && NoOlder(disk, Do(disk, k, step))
  {
  }

  lemma {:induction false} TraceInProgress(disk: Disk, patches: seq<Patch>, k: nat, trace: seq<Step>)
    requires k < |patches| && Consistent(disk, patches, k + 1) && Legal(patches[k], trace)
    ensures InProgress(DoAll(disk, k, trace), patches, k, trace) && NoOlder(disk, DoAll(disk, k, trace))
    decreases |trace|
  {
    if trace != [] {
      var n := |trace| - 1;
      TraceInProgress(disk, patches, k, trace[..n]);
      StepInProgress(DoAll(disk, k, trace[..n]), patches, k, trace[..n], trace[n]);
      assert trace == trace[..n] + [trace[n]];
    }
  }

  /** One patch with the steps it made, all of them or as far as it got. */
  datatype Call = Call(patch: Patch, trace: seq<Step>)

  function PatchesOf(calls: seq<Call>): seq<Patch> {
    seq(|calls|, i requires 0 <= i < |calls| => calls[i].patch)
  }

  ghost predicate AllLegal(calls: seq<Call>) {
    forall i :: 0 <= i < |calls| ==> Legal(calls[i].patch, calls[i].trace)
  }

  const EMPTY := Disk(map[], map[], None, None, 0)

  /** The disk after the first `n` patches, each of them cut off anywhere. */
  function DiskAfter(calls: seq<Call>, n: nat): Disk
    requires n <= |calls|
  {
    if n == 0 then EMPTY else DoAll(DiskAfter(calls, n - 1), n - 1, calls[n - 1].trace)
  }

  /**
   Whatever patches arrive and wherever each is cut off: a hash of patch k on disk
   means every file of patch k is there from patch k or a later one.
   */
  lemma {:induction false} CommitOrder(calls: seq<Call>, n: nat)
    requires AllLegal(calls) && n <= |calls|
    ensures Consistent(DiskAfter(calls, n), PatchesOf(calls), n)
  {
    if n > 0 {
      CommitOrder(calls, n - 1);
      TraceInProgress(DiskAfter(calls, n - 1), PatchesOf(calls), n - 1, calls[n - 1].trace);
    }
  }

  /** Files, hash and marker never go back to an older patch. */
  lemma {:induction false} NeverOlder(calls: seq<Call>, i: nat, n: nat)
    requires AllLegal(calls) && i <= n <= |calls|
    ensures NoOlder(DiskAfter(calls, i), DiskAfter(calls, n))
  {
    if i < n {
      NeverOlder(calls, i, n - 1);
      CommitOrder(calls, n - 1);
      TraceInProgress(DiskAfter(calls, n - 1), PatchesOf(calls), n - 1, calls[n - 1].trace);
      hide InProgress, Consistent, DiskAfter;
    }
  }

  /** A file that a patch set is, ever after, from that patch or a later one. */
  lemma SetFilesStay(calls: seq<Call>, j: nat, n: nat, f: string, c: Bytes)
    requires AllLegal(calls) && j < n <= |calls| && SetFile(f, c) in calls[j].trace
    ensures f in DiskAfter(calls, n).files && DiskAfter(calls, n).files[f].patch >= j
  {
    CommitOrder(calls, j);
    TraceInProgress(DiskAfter(calls, j), PatchesOf(calls), j, calls[j].trace);
    assert DiskAfter(calls, j + 1) == DoAll(DiskAfter(calls, j), j, calls[j].trace);
    NeverOlder(calls, j + 1, n);
    hide Consistent, DiskAfter;
  }

  /** A patch that fails validation changes no received file, no hash and no marker. */
  lemma {:induction false} RejectedChangesNothing(disk: Disk, k: nat, patch: Patch, trace: seq<Step>)
    requires Legal(patch, trace) && patch.faults != map[]
    ensures DoAll(disk, k, trace) == disk.(errors := DoAll(disk, k, trace).errors)
    ensures forall s :: s in trace ==> s.SetError?
  {
    if trace != [] {
      var n := |trace| - 1;
      RejectedChangesNothing(disk, k, patch, trace[..n]);
      assert trace == trace[..n] + [trace[n]];
    }
  }

  /** A file, or the word about one. */
  ghost predicate SameOf(disk: Disk, disk': Disk, f: string) {
    && (f in disk'.files <==> f in disk.files) && (f in disk.files ==> disk'.files[f] == disk.files[f])
    && (f in disk'.errors <==> f in disk.errors) && (f in disk.errors ==> disk'.errors[f] == disk.errors[f])
  }

  /** However far a patch gets, files it does not name are left alone, and so is what is reported of them. */
  lemma {:induction false} OthersLeftAlone(disk: Disk, k: nat, patch: Patch, trace: seq<Step>, f: string)
    requires Legal(patch, trace) && f !in patch.files && f !in patch.faults
    ensures SameOf(disk, DoAll(disk, k, trace), f)
    decreases |trace|
  {
    if trace != [] {
      OthersLeftAlone(disk, k, patch, trace[..|trace| - 1], f);
    }
  }
}
