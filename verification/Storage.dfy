/** Raw-disk reconciliation (pkg/librevm/storage.go) over a file system of disk images. */
module Storage {
  import opened DiskSpecs
  import opened Wrappers

  /** A file that a disk path names: an image that can be probed, or something that cannot. `version` is the value
      of the version xattr, empty when there is none. */
  datatype File =
    | Image(fsType: string, content: int, uuid: string, version: string)
    | Junk(version: string)

  type FS = map<string, File>

  /** The foreign operations: the embedded image, filepath.Abs(filepath.Clean(_)), and the reading of a UUID string
      by ext2fs, which answers with its canonical form or refuses it. */
  datatype Tools = Tools(embedded: File, abs: string -> string, canon: string -> Option<string>)

  /** What blkid reports for an image is canonical, if it is an ext UUID at all. */
  predicate ProbesCanonical(tools: Tools, f: File) {
    f.Image? ==> tools.canon(f.uuid) in {None, Some(f.uuid)}
  }

  /** Extraction yields an untagged image; canonical UUIDs, the var disk's among them, are left alone. */
  ghost predicate Lawful(tools: Tools) {
    && tools.embedded.Image? && tools.embedded.version == ""
    && (forall u :: tools.canon(u).Some? ==> tools.canon(tools.canon(u).value) == tools.canon(u))
    && tools.canon(VAR_DATA_DISK_UUID) == Some(VAR_DATA_DISK_UUID)
    && ProbesCanonical(tools, tools.embedded)
  }

  ghost predicate Sound(tools: Tools, fs: FS) {
    forall p :: p in fs ==> ProbesCanonical(tools, fs[p])
  }

  // --- Steps that change a disk, and plans made of them ---------------------------------

  datatype Op = Remove | Extract | SetUUID(u: string) | SetVersion(v: string)

  /** One step; None when it fails, which leaves the file system as it was. */
  function Do(tools: Tools, fs: FS, path: string, op: Op): Option<FS> {
    match op
    case Remove => Some(fs - {path})
    case Extract => Some(fs[path := tools.embedded])
    case SetUUID(u) =>
      if path in fs && fs[path].Image? && tools.canon(u).Some?
      then Some(fs[path := fs[path].(uuid := tools.canon(u).value)]) else None
    case SetVersion(v) =>
      if path in fs then Some(fs[path := fs[path].(version := v)]) else None
  }

  /** Runs a plan up to its end or its first failure. */
  function Exec(tools: Tools, fs: FS, path: string, ops: seq<Op>): (r: (bool, FS))
    decreases ops
  {
    if ops == [] then (true, fs)
    else
      match Do(tools, fs, path, ops[0])
      case Some(next) => Exec(tools, next, path, ops[1..])
      case None => (false, fs)
  }

  /** generateRAWDisk: the version xattr comes last. */
  function Generate(uuid: string, version: string): seq<Op> {
    [Extract, SetUUID(uuid)] + (if version == "" then [] else [SetVersion(version)])
  }

  function Recreate(uuid: string, version: string): seq<Op> { [Remove] + Generate(uuid, version) }

  /** needsDiskRegeneration: (stored differs, has a version), over Linux xattrs. */
  function NeedsRegeneration(f: File, expected: string): (bool, bool) {
    if expected == "" || f.version == "" then (false, false) else (f.version != expected, true)
  }

  /** What reconcileVarRAWDisk sets out to do; None when the existing file cannot be probed. */
  function VarPlan(fs: FS, path: string, version: string): Option<seq<Op>> {
    if path !in fs then Some(Generate(VAR_DATA_DISK_UUID, version))
    else if !fs[path].Image? then None
    else if fs[path].uuid != VAR_DATA_DISK_UUID then Some(Recreate(VAR_DATA_DISK_UUID, version))
    else
      var (differs, has) := NeedsRegeneration(fs[path], version);
      if !has || differs then Some(Recreate(VAR_DATA_DISK_UUID, version)) else Some([])
  }

  /** What reconcileUserProvidedRawDisk sets out to do. */
  function UserPlan(fs: FS, path: string, uuid: string, version: string): Option<seq<Op>> {
    if path !in fs then Some(Generate(uuid, version))
    else if !fs[path].Image? then None
    else if NeedsRegeneration(fs[path], version) == (true, true) then Some(Recreate(fs[path].uuid, version))
    else Some([])
  }

  /** The mount point that Inspect chooses for an image. */
  function DefaultMount(uuid: string): string {
    if uuid == VAR_DATA_DISK_UUID then VAR_DISK_MOUNT_POINT else "/mnt/" + uuid
  }

  datatype BlkDev = BlkDev(fsType: string, uuid: string, path: string, mountTo: string)

  // --- What plans do ------------------------------------------------------------------------

  lemma {:induction false} ExecFrame(tools: Tools, fs: FS, path: string, ops: seq<Op>, q: string)
    requires q != path
    ensures var after := Exec(tools, fs, path, ops).1;
            (q in after <==> q in fs) && (q in fs ==> after[q] == fs[q])
    decreases ops
  {
    if ops != [] {
      var r := Do(tools, fs, path, ops[0]);
      if r.Some? {
        ExecFrame(tools, r.value, path, ops[1..], q);
      }
    }
  }

  function Tagged(tools: Tools, uuid: string, version: string): File
    requires tools.embedded.Image?
  {
    tools.embedded.(uuid := uuid, version := version)
  }

  lemma GenerateResult(tools: Tools, fs: FS, path: string, uuid: string, version: string)
    requires tools.embedded.Image? && tools.embedded.version == ""
    ensures Exec(tools, fs, path, Generate(uuid, version)) ==
      if tools.canon(uuid).Some? then (true, fs[path := Tagged(tools, tools.canon(uuid).value, version)])
      else (false, fs[path := tools.embedded])
  {
    var ops := Generate(uuid, version);
    var fs1 := fs[path := tools.embedded];
    assert ops[1..] == [SetUUID(uuid)] + ops[2..] && ops[1..][1..] == ops[2..];
    assert Exec(tools, fs, path, ops) == Exec(tools, fs1, path, ops[1..]);
    if tools.canon(uuid).Some? {
      var fs2 := fs1[path := fs1[path].(uuid := tools.canon(uuid).value)];
      assert Exec(tools, fs1, path, ops[1..]) == Exec(tools, fs2, path, ops[2..]);
      if version == "" {
        assert ops[2..] == [];
        assert fs2 == fs[path := Tagged(tools, tools.canon(uuid).value, version)];
      } else {
        assert ops[2..] == [SetVersion(version)] && ops[2..][1..] == [];
        var fs3 := fs2[path := fs2[path].(version := version)];
        assert Exec(tools, fs2, path, ops[2..]) == Exec(tools, fs3, path, []);
        assert fs3 == fs[path := Tagged(tools, tools.canon(uuid).value, version)];
      }
    }
  }

  lemma RecreateResult(tools: Tools, fs: FS, path: string, uuid: string, version: string)
    requires tools.embedded.Image? && tools.embedded.version == ""
    ensures Exec(tools, fs, path, Recreate(uuid, version)) ==
      if tools.canon(uuid).Some? then (true, fs[path := Tagged(tools, tools.canon(uuid).value, version)])
      else (false, fs[path := tools.embedded])
  {
    GenerateResult(tools, fs - {path}, path, uuid, version);
    assert Recreate(uuid, version)[1..] == Generate(uuid, version);
    assert (fs - {path})[path := tools.embedded] == fs[path := tools.embedded];
    if tools.canon(uuid).Some? {
      var f := Tagged(tools, tools.canon(uuid).value, version);
      assert (fs - {path})[path := f] == fs[path := f];
    }
  }

  /** A completed reconcile of the var disk. */
  lemma VarReconciled(tools: Tools, fs: FS, path: string, version: string)
    requires Lawful(tools) && VarPlan(fs, path, version).Some?
    ensures var (ok, after) := Exec(tools, fs, path, VarPlan(fs, path, version).value);
            && ok && path in after && after[path].Image?
            && after[path].uuid == VAR_DATA_DISK_UUID && after[path].version == version
            && (after == fs || after == fs[path := Tagged(tools, VAR_DATA_DISK_UUID, version)])
  {
    GenerateResult(tools, fs, path, VAR_DATA_DISK_UUID, version);
    RecreateResult(tools, fs, path, VAR_DATA_DISK_UUID, version);
  }

  /** A completed reconcile of a user's disk: an existing one keeps its UUID, and is rebuilt exactly when a stored
      version differs from a requested one; a new one gets the requested UUID and version. */
  lemma UserReconciled(tools: Tools, fs: FS, path: string, uuid: string, version: string)
    requires Lawful(tools) && Sound(tools, fs) && UserPlan(fs, path, uuid, version).Some?
    requires Exec(tools, fs, path, UserPlan(fs, path, uuid, version).value).0
    ensures var after := Exec(tools, fs, path, UserPlan(fs, path, uuid, version).value).1;
            && path in after && after[path].Image?
            && (path in fs ==> fs[path].Image? && after[path].uuid == fs[path].uuid)
            && (path !in fs ==> tools.canon(uuid).Some? && after[path] == Tagged(tools, tools.canon(uuid).value, version))
            && (path in fs ==>
                  if fs[path].version != "" && version != "" && fs[path].version != version
                  then after == fs[path := Tagged(tools, fs[path].uuid, version)]
                  else after == fs)
  {
    GenerateResult(tools, fs, path, uuid, version);
    if path in fs {
      RecreateResult(tools, fs, path, fs[path].uuid, version);
    }
  }

  // --- What becomes of each path ---------------------------------------------------------

  ghost predicate Same(before: FS, after: FS, q: string) {
    (q in after <==> q in before) && (q in before ==> after[q] == before[q])
  }

  ghost predicate Probeable(fs: FS, path: string) { path in fs ==> fs[path].Image? }

  ghost predicate UpToDate(fs: FS, path: string, version: string) {
    path in fs && fs[path].Image? && fs[path].uuid == VAR_DATA_DISK_UUID && fs[path].version == version
  }

  /** The file system after a completed reconcile of the var disk. */
  function AfterVarDisk(tools: Tools, fs: FS, spec: RawDisk): FS {
    var path := tools.abs(spec.path);
    match VarPlan(fs, path, spec.version)
    case None => fs
    case Some(ops) => Exec(tools, fs, path, ops).1
  }

  function FileAt(fs: FS, path: string): Option<File> { if path in fs then Some(fs[path]) else None }

  function UUIDAt(fs: FS, p: string): Option<string> {
    if p in fs && fs[p].Image? then Some(fs[p].uuid) else None
  }

  /** A reconcile of the var disk that completes leaves an up-to-date disk with a version alone, and otherwise a fresh
      image with the var disk's UUID and the requested version. */
  lemma AfterVarDiskMeans(tools: Tools, fs: FS, spec: RawDisk)
    requires Lawful(tools) && Probeable(fs, tools.abs(spec.path))
    ensures var path := tools.abs(spec.path);
            AfterVarDisk(tools, fs, spec) ==
            if UpToDate(fs, path, spec.version) && spec.version != "" then fs
            else fs[path := Tagged(tools, VAR_DATA_DISK_UUID, spec.version)]
  {
    var path := tools.abs(spec.path);
    GenerateResult(tools, fs, path, VAR_DATA_DISK_UUID, spec.version);
    RecreateResult(tools, fs, path, VAR_DATA_DISK_UUID, spec.version);
  }

  /** The mount point of a disk whose path held this UUID before, if any: the requested one, or a default. */
  function MountAt(was: Option<string>, spec: RawDisk, newUUID: string): string {
    OrElse(spec.mnt, if was.Some? then DefaultMount(was.value) else "/mnt/" + OrElse(spec.uuid, newUUID))
  }

  /** The mount points, written out. */
  lemma MountPoints(spec: RawDisk, newUUID: string, uuid: string)
    ensures spec.mnt != "" ==> forall was :: MountAt(was, spec, newUUID) == spec.mnt
    ensures spec.mnt == "" && uuid != VAR_DATA_DISK_UUID ==> MountAt(Some(uuid), spec, newUUID) == "/mnt/" + uuid
    ensures spec.mnt == "" ==> MountAt(Some(VAR_DATA_DISK_UUID), spec, newUUID) == "/var"
    ensures spec.mnt == "" && spec.uuid != "" ==> MountAt(None, spec, newUUID) == "/mnt/" + spec.uuid
    ensures spec.mnt == "" && spec.uuid == "" ==> MountAt(None, spec, newUUID) == "/mnt/" + newUUID
  {
  }

  ghost predicate Names(tools: Tools, specs: seq<RawDisk>, q: string) {
    exists i :: 0 <= i < |specs| && q == tools.abs(specs[i].path)
  }

  /** The UUID that path `p` ends up with after the first `n` specs: an existing disk keeps its own, and a new one
      gets the UUID of the first spec that names it. */
  function Fate(tools: Tools, fs: FS, specs: seq<RawDisk>, newUUIDs: seq<string>, p: string, n: nat): Option<string>
    requires n <= |specs| == |newUUIDs|
  {
    if n == 0 then UUIDAt(fs, p)
    else
      var before := Fate(tools, fs, specs, newUUIDs, p, n - 1);
      if before.None? && tools.abs(specs[n - 1].path) == p
      then tools.canon(OrElse(specs[n - 1].uuid, newUUIDs[n - 1]))
      else before
  }

  predicate Differs(f: File, version: string) { f.version != "" && version != "" && f.version != version }

  /** Can the disk of this spec be prepared? */
  predicate Attachable(tools: Tools, fs: FS, spec: RawDisk, newUUID: string) {
    var p := tools.abs(spec.path);
    && spec.path != ""
    && (p in fs ==> fs[p].Image? && (Differs(fs[p], spec.version) ==> tools.canon(fs[p].uuid).Some?))
    && (p !in fs ==> tools.canon(OrElse(spec.uuid, newUUID)).Some?)
  }

  /** The same for the `i`-th of several specs, in terms of the file system before all of them: the path is named; a
      disk that exists can be probed, and has a UUID that can be set again if this spec asks for another version; and
      the first spec for a path that does not exist has a UUID that can be set. */
  predicate Accepted(tools: Tools, fs: FS, specs: seq<RawDisk>, newUUIDs: seq<string>, i: nat)
    requires i < |specs| == |newUUIDs|
  {
    var p := tools.abs(specs[i].path);
    && specs[i].path != ""
    && (p in fs ==> fs[p].Image? && (Differs(fs[p], specs[i].version) ==> tools.canon(fs[p].uuid).Some?))
    && (Fate(tools, fs, specs, newUUIDs, p, i).None? ==> tools.canon(OrElse(specs[i].uuid, newUUIDs[i])).Some?)
  }

  /** What a prepared disk leaves. One that did not exist is a fresh image with the requested UUID and version; one that
      existed is rebuilt with its own UUID and the requested version if a stored version differs from it, and otherwise
      left alone. Other files are untouched. */
  ghost predicate AfterAttach(tools: Tools, fs: FS, after: FS, spec: RawDisk, newUUID: string)
    requires tools.embedded.Image?
  {
    var p, uuid := tools.abs(spec.path), tools.canon(OrElse(spec.uuid, newUUID));
    && (forall q :: q != p ==> Same(fs, after, q))
    && p in after
    && (p !in fs ==> uuid.Some? && after[p] == Tagged(tools, uuid.value, spec.version))
    && (p in fs ==>
          && fs[p].Image? && (Differs(fs[p], spec.version) ==> tools.canon(fs[p].uuid).Some?)
          && after[p] == if Differs(fs[p], spec.version) then Tagged(tools, fs[p].uuid, spec.version) else fs[p])
  }

  /** Whether or not a user plan completes, it keeps the file system sound and other files alone; it completes exactly
      if the disk is attachable. */
  lemma UserExecEffect(tools: Tools, fs: FS, path: string, uuid: string, version: string)
    requires Lawful(tools) && Sound(tools, fs)
    ensures UserPlan(fs, path, uuid, version).Some? ==>
      var (ok, after) := Exec(tools, fs, path, UserPlan(fs, path, uuid, version).value);
      && Sound(tools, after) && (forall q :: q != path ==> Same(fs, after, q))
      && (ok <==> if path in fs then Differs(fs[path], version) ==> tools.canon(fs[path].uuid).Some? else tools.canon(uuid).Some?)
  {
    GenerateResult(tools, fs, path, uuid, version);
    if path in fs && fs[path].Image? {
      RecreateResult(tools, fs, path, fs[path].uuid, version);
    }
  }

  lemma UserExecAttaches(tools: Tools, fs: FS, spec: RawDisk, newUUID: string)
    requires Lawful(tools) && Sound(tools, fs)
    ensures var p := tools.abs(spec.path);
            var plan := UserPlan(fs, p, OrElse(spec.uuid, newUUID), spec.version);
            && (spec.path != "" && plan.Some? && Exec(tools, fs, p, plan.value).0 <==> Attachable(tools, fs, spec, newUUID))
            && (plan.Some? && Exec(tools, fs, p, plan.value).0 ==> AfterAttach(tools, fs, Exec(tools, fs, p, plan.value).1, spec, newUUID))
  {
    var p, uuid := tools.abs(spec.path), OrElse(spec.uuid, newUUID);
    var plan := UserPlan(fs, p, uuid, spec.version);
    UserExecEffect(tools, fs, p, uuid, spec.version);
    if plan.Some? && Exec(tools, fs, p, plan.value).0 {
      UserReconciled(tools, fs, p, uuid, spec.version);
    }
  }

  predicate Kept(tools: Tools, f: File, now: File) {
    now == f || (f.Image? && now.Image? && now.uuid == f.uuid && tools.canon(f.uuid).Some?)
  }

  /** What preparing user disks may make of a file system. */
  ghost predicate Evolved(tools: Tools, fs0: FS, fs: FS) {
    && (forall p :: p in fs0 ==> p in fs && Kept(tools, fs0[p], fs[p]))
    && (forall p :: p in fs && p !in fs0 ==> fs[p].Image? && tools.canon(fs[p].uuid).Some?)
  }

  lemma AttachEvolves(tools: Tools, fs0: FS, fs: FS, after: FS, spec: RawDisk, newUUID: string)
    requires Lawful(tools) && Evolved(tools, fs0, fs) && AfterAttach(tools, fs, after, spec, newUUID)
    ensures Evolved(tools, fs0, after)
  {
    var p := tools.abs(spec.path);
    forall q | q in fs0 ensures q in after && Kept(tools, fs0[q], after[q]) {
      assert q != p ==> Same(fs, after, q);
    }
    forall q | q in after && q !in fs0 ensures after[q].Image? && tools.canon(after[q].uuid).Some? {
      assert q != p ==> Same(fs, after, q);
    }
  }

  /** After some of the specs, every path has the UUID that is its fate. */
  ghost predicate Fated(tools: Tools, fs0: FS, specs: seq<RawDisk>, newUUIDs: seq<string>, i: nat, fs: FS)
    requires i <= |specs| == |newUUIDs|
  {
    forall p :: UUIDAt(fs, p) == Fate(tools, fs0, specs, newUUIDs, p, i)
  }

  lemma AttachFated(tools: Tools, fs0: FS, specs: seq<RawDisk>, newUUIDs: seq<string>, i: nat, fs: FS, after: FS)
    requires tools.embedded.Image? && i < |specs| == |newUUIDs| && Fated(tools, fs0, specs, newUUIDs, i, fs)
    requires AfterAttach(tools, fs, after, specs[i], newUUIDs[i])
    ensures Fated(tools, fs0, specs, newUUIDs, i + 1, after)
  {
    forall p ensures UUIDAt(after, p) == Fate(tools, fs0, specs, newUUIDs, p, i + 1) {
      assert UUIDAt(fs, p) == Fate(tools, fs0, specs, newUUIDs, p, i);
      assert p != tools.abs(specs[i].path) ==> Same(fs, after, p);
    }
  }

  lemma AttachableIff(tools: Tools, fs0: FS, specs: seq<RawDisk>, newUUIDs: seq<string>, i: nat, fs: FS)
    requires i < |specs| == |newUUIDs| && Evolved(tools, fs0, fs) && Fated(tools, fs0, specs, newUUIDs, i, fs)
    ensures Attachable(tools, fs, specs[i], newUUIDs[i]) <==> Accepted(tools, fs0, specs, newUUIDs, i)
  {
    var p := tools.abs(specs[i].path);
    assert UUIDAt(fs, p) == Fate(tools, fs0, specs, newUUIDs, p, i);
    assert p in fs0 ==> p in fs && Kept(tools, fs0[p], fs[p]);
  }

  /** The file that a spec leaves at its path, given what was there. */
  function FileAfter(tools: Tools, was: Option<File>, spec: RawDisk, newUUID: string): Option<File>
    requires tools.embedded.Image?
  {
    match was
    case None =>
      var uuid := tools.canon(OrElse(spec.uuid, newUUID));
      if uuid.Some? then Some(Tagged(tools, uuid.value, spec.version)) else None
    case Some(f) => if f.Image? && Differs(f, spec.version) then Some(Tagged(tools, f.uuid, spec.version)) else was
  }

  /** The file at path `p` after the first `n` specs. */
  function FileFate(tools: Tools, fs: FS, specs: seq<RawDisk>, newUUIDs: seq<string>, p: string, n: nat): Option<File>
    requires n <= |specs| == |newUUIDs| && tools.embedded.Image?
  {
    if n == 0 then FileAt(fs, p)
    else
      var before := FileFate(tools, fs, specs, newUUIDs, p, n - 1);
      if tools.abs(specs[n - 1].path) == p then FileAfter(tools, before, specs[n - 1], newUUIDs[n - 1]) else before
  }

  /** A file without a version tag stays as it is, whatever later specs ask for. */
  lemma {:induction false} UntaggedStays(tools: Tools, fs: FS, specs: seq<RawDisk>, newUUIDs: seq<string>, p: string, k: nat, n: nat)
    requires k <= n <= |specs| == |newUUIDs| && tools.embedded.Image?
    requires var f := FileFate(tools, fs, specs, newUUIDs, p, k); f.Some? && f.value.version == ""
    ensures FileFate(tools, fs, specs, newUUIDs, p, n) == FileFate(tools, fs, specs, newUUIDs, p, k)
    decreases n
  {
    if k < n {
      UntaggedStays(tools, fs, specs, newUUIDs, p, k, n - 1);
    }
  }

  /** A file that has the only version that the specs for its path ask for, if any, stays as it is. */
  lemma {:induction false} UnaskedStays(tools: Tools, fs: FS, specs: seq<RawDisk>, newUUIDs: seq<string>, p: string, k: nat, n: nat)
    requires k <= n <= |specs| == |newUUIDs| && tools.embedded.Image?
    requires var f := FileFate(tools, fs, specs, newUUIDs, p, k);
             f.Some? && forall j :: k <= j < n && tools.abs(specs[j].path) == p ==> specs[j].version in {"", f.value.version}
    ensures FileFate(tools, fs, specs, newUUIDs, p, n) == FileFate(tools, fs, specs, newUUIDs, p, k)
    decreases n
  {
    if k < n {
      UnaskedStays(tools, fs, specs, newUUIDs, p, k, n - 1);
    }
  }

  /** A new disk, or one with a version tag, ends up with the version of the last spec for its path that asks for one. */
  lemma {:induction false} VersionFate(tools: Tools, fs: FS, specs: seq<RawDisk>, newUUIDs: seq<string>, p: string, i: nat, n: nat)
    requires i < n <= |specs| == |newUUIDs| && tools.embedded.Image?
    requires tools.abs(specs[i].path) == p && specs[i].version != ""
    requires forall j :: i < j < n && tools.abs(specs[j].path) == p ==> specs[j].version == ""
    requires var f := FileFate(tools, fs, specs, newUUIDs, p, i);
             if f.None? then tools.canon(OrElse(specs[i].uuid, newUUIDs[i])).Some? else f.value.Image? && f.value.version != ""
    ensures var f := FileFate(tools, fs, specs, newUUIDs, p, n); f.Some? && f.value.Image? && f.value.version == specs[i].version
    decreases n
  {
    UnaskedStays(tools, fs, specs, newUUIDs, p, i + 1, n);
  }

  /** After some of the specs, every path holds the file that is its fate. */
  ghost predicate Filed(tools: Tools, fs0: FS, specs: seq<RawDisk>, newUUIDs: seq<string>, i: nat, fs: FS)
    requires i <= |specs| == |newUUIDs| && tools.embedded.Image?
  {
    forall p :: FileAt(fs, p) == FileFate(tools, fs0, specs, newUUIDs, p, i)
  }

  lemma AttachFiled(tools: Tools, fs0: FS, specs: seq<RawDisk>, newUUIDs: seq<string>, i: nat, fs: FS, after: FS)
    requires tools.embedded.Image? && i < |specs| == |newUUIDs| && Filed(tools, fs0, specs, newUUIDs, i, fs)
    requires AfterAttach(tools, fs, after, specs[i], newUUIDs[i])
    ensures Filed(tools, fs0, specs, newUUIDs, i + 1, after)
  {
    forall p ensures FileAt(after, p) == FileFate(tools, fs0, specs, newUUIDs, p, i + 1) {
      assert FileAt(fs, p) == FileFate(tools, fs0, specs, newUUIDs, p, i);
      assert p != tools.abs(specs[i].path) ==> Same(fs, after, p);
    }
  }

  /** The device for the `k`-th spec, once the first `n` have been prepared. */
  ghost predicate DeviceFor(tools: Tools, fs0: FS, specs: seq<RawDisk>, newUUIDs: seq<string>, k: nat, n: nat, d: BlkDev)
    requires k < n <= |specs| == |newUUIDs| && tools.embedded.Image?
  {
    var p := tools.abs(specs[k].path);
    var f := FileFate(tools, fs0, specs, newUUIDs, p, k + 1);
    && d.path == p
    && f.Some? && f.value.Image? && d.fsType == f.value.fsType
    && Some(d.uuid) == Fate(tools, fs0, specs, newUUIDs, p, n)
    && d.mountTo == MountAt(Fate(tools, fs0, specs, newUUIDs, p, k), specs[k], newUUIDs[k])
  }

  /** The devices for the first `n` specs, once these have been prepared. */
  ghost predicate DevicesFor(tools: Tools, fs0: FS, specs: seq<RawDisk>, newUUIDs: seq<string>, n: nat, devs: seq<BlkDev>)
    requires n <= |specs| == |newUUIDs| && tools.embedded.Image?
  {
    |devs| == n && forall k :: 0 <= k < n ==> DeviceFor(tools, fs0, specs, newUUIDs, k, n, devs[k])
  }

  /** A device tells the UUID of its file. */
  predicate TellsUUID(fs: FS, d: BlkDev) { UUIDAt(fs, d.path) == Some(d.uuid) }

  lemma {:induction false} FateStays(tools: Tools, fs: FS, specs: seq<RawDisk>, newUUIDs: seq<string>, p: string, k: nat, n: nat)
    requires k <= n <= |specs| == |newUUIDs| && Fate(tools, fs, specs, newUUIDs, p, k).Some?
    ensures Fate(tools, fs, specs, newUUIDs, p, n) == Fate(tools, fs, specs, newUUIDs, p, k)
    decreases n
  {
    if k < n {
      FateStays(tools, fs, specs, newUUIDs, p, k, n - 1);
    }
  }

  lemma DevicesGrow(tools: Tools, fs0: FS, specs: seq<RawDisk>, newUUIDs: seq<string>, i: nat,
                    devs: seq<BlkDev>, d: BlkDev, before: FS, fs: FS)
    requires tools.embedded.Image? && i < |specs| == |newUUIDs| && DevicesFor(tools, fs0, specs, newUUIDs, i, devs)
    requires Fated(tools, fs0, specs, newUUIDs, i, before) && Fated(tools, fs0, specs, newUUIDs, i + 1, fs)
    requires Filed(tools, fs0, specs, newUUIDs, i + 1, fs)
    requires d.path == tools.abs(specs[i].path) && TellsUUID(fs, d) && d.fsType == fs[d.path].fsType
    requires d.mountTo == MountAt(UUIDAt(before, d.path), specs[i], newUUIDs[i])
    ensures DevicesFor(tools, fs0, specs, newUUIDs, i + 1, devs + [d])
  {
    forall k | 0 <= k < i ensures DeviceFor(tools, fs0, specs, newUUIDs, k, i + 1, devs[k]) {
      FateStays(tools, fs0, specs, newUUIDs, devs[k].path, i, i + 1);
    }
    assert UUIDAt(fs, d.path) == Fate(tools, fs0, specs, newUUIDs, d.path, i + 1);
    assert FileAt(fs, d.path) == FileFate(tools, fs0, specs, newUUIDs, d.path, i + 1);
    assert UUIDAt(before, d.path) == Fate(tools, fs0, specs, newUUIDs, d.path, i);
  }

  lemma StillAttached(tools: Tools, fs0: FS, specs: seq<RawDisk>, newUUIDs: seq<string>, fs: FS,
                      devs: seq<BlkDev>, added: seq<BlkDev>)
    requires tools.embedded.Image? && |specs| == |newUUIDs| && Fated(tools, fs0, specs, newUUIDs, |specs|, fs)
    requires forall k :: 0 <= k < |devs| ==> TellsUUID(fs0, devs[k])
    requires DevicesFor(tools, fs0, specs, newUUIDs, |specs|, added)
    ensures forall k :: 0 <= k < |devs + added| ==> TellsUUID(fs, (devs + added)[k])
  {
    forall k | 0 <= k < |devs| ensures TellsUUID(fs, devs[k]) {
      FateStays(tools, fs0, specs, newUUIDs, devs[k].path, 0, |specs|);
    }
    forall k | 0 <= k < |added| ensures TellsUUID(fs, added[k]) {
      assert DeviceFor(tools, fs0, specs, newUUIDs, k, |specs|, added[k]);
    }
  }

  /** The first `n` specs are acceptable. */
  ghost predicate AllAccepted(tools: Tools, fs: FS, specs: seq<RawDisk>, newUUIDs: seq<string>, n: nat)
    requires n <= |specs| == |newUUIDs|
  {
    forall i :: 0 <= i < n ==> Accepted(tools, fs, specs, newUUIDs, i)
  }

  /** Where the loop over the specs has got to. */
  ghost predicate Prepared(tools: Tools, fs0: FS, specs: seq<RawDisk>, newUUIDs: seq<string>, i: nat, fs: FS, added: seq<BlkDev>)
    requires i <= |specs| == |newUUIDs| && tools.embedded.Image?
  {
    && Evolved(tools, fs0, fs) && Fated(tools, fs0, specs, newUUIDs, i, fs) && Filed(tools, fs0, specs, newUUIDs, i, fs)
    && DevicesFor(tools, fs0, specs, newUUIDs, i, added) && AllAccepted(tools, fs0, specs, newUUIDs, i)
  }

  lemma PreparedStep(tools: Tools, fs0: FS, specs: seq<RawDisk>, newUUIDs: seq<string>, i: nat,
                     before: FS, fs: FS, added: seq<BlkDev>, d: BlkDev)
    requires Lawful(tools) && i < |specs| == |newUUIDs| && Prepared(tools, fs0, specs, newUUIDs, i, before, added)
    requires Attachable(tools, before, specs[i], newUUIDs[i]) && AfterAttach(tools, before, fs, specs[i], newUUIDs[i])
    requires d.path == tools.abs(specs[i].path) && TellsUUID(fs, d) && d.fsType == fs[d.path].fsType
    requires d.mountTo == MountAt(UUIDAt(before, d.path), specs[i], newUUIDs[i])
    ensures Prepared(tools, fs0, specs, newUUIDs, i + 1, fs, added + [d])
  {
    AttachableIff(tools, fs0, specs, newUUIDs, i, before);
    AttachEvolves(tools, fs0, before, fs, specs[i], newUUIDs[i]);
    AttachFated(tools, fs0, specs, newUUIDs, i, before, fs);
    AttachFiled(tools, fs0, specs, newUUIDs, i, before, fs);
    DevicesGrow(tools, fs0, specs, newUUIDs, i, added, d, before, fs);
  }

  lemma NotAccepted(tools: Tools, fs0: FS, specs: seq<RawDisk>, newUUIDs: seq<string>, i: nat, fs: FS, added: seq<BlkDev>)
    requires tools.embedded.Image? && i < |specs| == |newUUIDs| && Prepared(tools, fs0, specs, newUUIDs, i, fs, added)
    requires !Attachable(tools, fs, specs[i], newUUIDs[i])
    ensures !AllAccepted(tools, fs0, specs, newUUIDs, |specs|)
  {
    AttachableIff(tools, fs0, specs, newUUIDs, i, fs);
  }

  ghost predicate OnlyNamedChange(tools: Tools, specs: seq<RawDisk>, before: FS, after: FS) {
    forall q :: !Names(tools, specs, q) ==> Same(before, after, q)
  }

  lemma UnnamedKept(tools: Tools, specs: seq<RawDisk>, i: nat, fs0: FS, before: FS, fs: FS)
    requires i < |specs| && OnlyNamedChange(tools, specs, fs0, before)
    requires forall q :: q != tools.abs(specs[i].path) ==> Same(before, fs, q)
    ensures OnlyNamedChange(tools, specs, fs0, fs)
  {
    forall q | !Names(tools, specs, q) ensures Same(fs0, fs, q) {
      assert q != tools.abs(specs[i].path) && Same(fs0, before, q) && Same(before, fs, q);
    }
  }

  // --- The builder ------------------------------------------------------------------------

  class MachineBuilder {
    const tools: Tools
    var fs: FS
    var blkDevs: seq<BlkDev>

    constructor (tools: Tools, fs: FS)
      ensures this.tools == tools && this.fs == fs && blkDevs == []
    {
      this.tools, this.fs, blkDevs := tools, fs, [];
    }

    method Step(path: string, op: Op) returns (ok: bool)
      modifies this`fs
      ensures ok <==> Do(tools, old(fs), path, op).Some?
      ensures fs == if ok then Do(tools, old(fs), path, op).value else old(fs)
    {
      var r := Do(tools, fs, path, op);
      ok := r.Some?;
      if ok {
        fs := r.value;
      }
    }

    method GenerateRAWDisk(path: string, uuid: string, version: string) returns (ok: bool)
      modifies this`fs
      ensures (ok, fs) == Exec(tools, old(fs), path, Generate(uuid, version))
    {
      ghost var fs0, ops := fs, Generate(uuid, version);
      assert ops[1..] == [SetUUID(uuid)] + ops[2..];
      ok := Step(path, Extract);
      ghost var fs1 := fs;
      assert Exec(tools, fs0, path, ops) == Exec(tools, fs1, path, ops[1..]);
      ok := Step(path, SetUUID(uuid));
      assert ops[1..][1..] == ops[2..];
      if !ok {
        return;
      }
      assert Exec(tools, fs1, path, ops[1..]) == Exec(tools, fs, path, ops[2..]);
      if version != "" {
        assert ops[2..] == [SetVersion(version)] && ops[2..][1..] == [];
        ok := Step(path, SetVersion(version));
      }
    }

    method RecreateRAWDisk(path: string, uuid: string, version: string) returns (ok: bool)
      modifies this`fs
      ensures (ok, fs) == Exec(tools, old(fs), path, Recreate(uuid, version))
    {
      assert Recreate(uuid, version)[1..] == Generate(uuid, version);
      ok := Step(path, Remove);
      ok := GenerateRAWDisk(path, uuid, version);
    }

    method ReconcileVarRAWDisk(path: string, version: string) returns (ok: bool)
      modifies this`fs
      ensures VarPlan(old(fs), path, version).None? ==> !ok && fs == old(fs)
      ensures VarPlan(old(fs), path, version).Some? ==>
        (ok, fs) == Exec(tools, old(fs), path, VarPlan(old(fs), path, version).value)
    {
      if path !in fs {
        ok := GenerateRAWDisk(path, VAR_DATA_DISK_UUID, version);
        return;
      }
      if !fs[path].Image? {
        return false;
      }
      if fs[path].uuid != VAR_DATA_DISK_UUID {
        ok := RecreateRAWDisk(path, VAR_DATA_DISK_UUID, version);
        return;
      }
      var (differs, has) := NeedsRegeneration(fs[path], version);
      if !has || differs {
        ok := RecreateRAWDisk(path, VAR_DATA_DISK_UUID, version);
        return;
      }
      ok := true;
    }

    /** Returns the spec with the UUID and mount point that the disk ends up with: those it has, if it exists. */
    method ReconcileUserProvidedRawDisk(spec: RawDisk, newUUID: string) returns (ok: bool, final: RawDisk)
      modifies this`fs
      ensures ok ==>
        var was := UUIDAt(old(fs), spec.path);
        final == spec.(uuid := if was.Some? then was.value else OrElse(spec.uuid, newUUID), mnt := MountAt(was, spec, newUUID))
      ensures UserPlan(old(fs), spec.path, OrElse(spec.uuid, newUUID), spec.version).None? ==> !ok && fs == old(fs)
      ensures UserPlan(old(fs), spec.path, OrElse(spec.uuid, newUUID), spec.version).Some? ==>
        (ok, fs) == Exec(tools, old(fs), spec.path, UserPlan(old(fs), spec.path, OrElse(spec.uuid, newUUID), spec.version).value)
    {
      final := spec;
      if spec.path in fs {
        var f := fs[spec.path];
        if !f.Image? {
          return false, final;
        }
        final := final.(uuid := f.uuid); // an existing disk keeps its own UUID
        if final.mnt == "" {
          final := final.(mnt := DefaultMount(f.uuid));
        }
        var (differs, has) := NeedsRegeneration(f, spec.version);
        if !has || !differs {
          return true, final;
        }
        ok := RecreateRAWDisk(spec.path, final.uuid, spec.version);
        return;
      }
      final := final.(uuid := OrElse(final.uuid, newUUID));
      if final.mnt == "" {
        final := final.(mnt := "/mnt/" + final.uuid);
      }
      ok := GenerateRAWDisk(spec.path, final.uuid, spec.version);
    }

    method AddRAWDiskToBlkList(path: string, mountTo: string) returns (ok: bool)
      modifies this`blkDevs
      ensures ok <==> path in fs && fs[path].Image?
      ensures ok ==>
        blkDevs == old(blkDevs) + [BlkDev(fs[path].fsType, fs[path].uuid, path, OrElse(mountTo, DefaultMount(fs[path].uuid)))]
      ensures !ok ==> blkDevs == old(blkDevs)
    {
      if path !in fs || !fs[path].Image? {
        return false;
      }
      var f := fs[path];
      blkDevs := blkDevs + [BlkDev(f.fsType, f.uuid, path, OrElse(mountTo, DefaultMount(f.uuid)))];
      ok := true;
    }

    /** Every listed device tells the UUID of its file. */
    ghost predicate Attached()
      reads this
    {
      forall i :: 0 <= i < |blkDevs| ==> TellsUUID(fs, blkDevs[i])
    }

    method WithVarDisk(spec: RawDisk) returns (ok: bool)
      requires Lawful(tools) && Sound(tools, fs) && blkDevs == []
      modifies this
      ensures Sound(tools, fs)
      ensures ok <==> spec.path != "" && Probeable(old(fs), tools.abs(spec.path))
      ensures ok ==> Attached() && |blkDevs| == 1
      ensures ok ==> blkDevs[0].uuid == VAR_DATA_DISK_UUID && blkDevs[0].path == tools.abs(spec.path) &&
                     blkDevs[0].mountTo == OrElse(spec.mnt, VAR_DISK_MOUNT_POINT)
      ensures ok ==> fs == AfterVarDisk(tools, old(fs), spec)
      ensures ok ==>
        var path := tools.abs(spec.path);
        fs == if UpToDate(old(fs), path, spec.version) && spec.version != "" then old(fs)
              else old(fs)[path := Tagged(tools, VAR_DATA_DISK_UUID, spec.version)]
      ensures forall q :: q != tools.abs(spec.path) ==> Same(old(fs), fs, q)
    {
      ok := false;
      if spec.path == "" {
        return;
      }
      var path := tools.abs(spec.path);
      ghost var fs0 := fs;
      ok := ReconcileVarRAWDisk(path, spec.version);
      if VarPlan(fs0, path, spec.version).Some? {
        VarReconciled(tools, fs0, path, spec.version);
        AfterVarDiskMeans(tools, fs0, spec);
      }
      if !ok {
        return;
      }
      ok := AddRAWDiskToBlkList(path, spec.mnt);
    }

    method AttachOne(spec: RawDisk, newUUID: string) returns (ok: bool)
      requires newUUID != "" && Lawful(tools) && Sound(tools, fs)
      modifies this
      ensures Sound(tools, fs) && forall q :: q != tools.abs(spec.path) ==> Same(old(fs), fs, q)
      ensures ok <==> Attachable(tools, old(fs), spec, newUUID)
      ensures ok ==> AfterAttach(tools, old(fs), fs, spec, newUUID)
      ensures ok ==> |blkDevs| == |old(blkDevs)| + 1 && old(blkDevs) <= blkDevs
      ensures ok ==>
        var d := blkDevs[|old(blkDevs)|];
        && d.path == tools.abs(spec.path) && TellsUUID(fs, d) && d.fsType == fs[d.path].fsType
        && d.mountTo == MountAt(UUIDAt(old(fs), d.path), spec, newUUID)
    {
      if spec.path == "" {
        return false;
      }
      var path := tools.abs(spec.path);
      var final;
      ghost var fs0 := fs;
      ok, final := ReconcileUserProvidedRawDisk(spec.(path := path), newUUID);
      UserExecEffect(tools, fs0, path, OrElse(spec.uuid, newUUID), spec.version);
      UserExecAttaches(tools, fs0, spec, newUUID);
      if !ok {
        return;
      }
      ok := AddRAWDiskToBlkList(final.path, final.mnt);
    }

    /** Succeeds exactly if every spec is acceptable. Every path then holds the file that is its fate; the devices are
        the specs' disks in their order, with the UUID that is the fate of their path, and every entry, old or new, tells the UUID of its file, however often a
        path is named. Files that are not named are untouched in any case. */
    method WithUserProvidedRawDisk(specs: seq<RawDisk>, newUUIDs: seq<string>) returns (ok: bool)
      requires |newUUIDs| == |specs| && forall i :: 0 <= i < |specs| ==> newUUIDs[i] != ""
      requires Lawful(tools) && Sound(tools, fs) && Attached()
      modifies this
      ensures Sound(tools, fs) && OnlyNamedChange(tools, specs, old(fs), fs)
      ensures ok <==> AllAccepted(tools, old(fs), specs, newUUIDs, |specs|)
      ensures ok ==> Attached() && old(blkDevs) <= blkDevs && Filed(tools, old(fs), specs, newUUIDs, |specs|, fs)
      ensures ok ==> DevicesFor(tools, old(fs), specs, newUUIDs, |specs|, blkDevs[|old(blkDevs)|..])
    {
      ok := true;
      ghost var fs0, devs, added := fs, blkDevs, [];
      var i := 0;
      while i < |specs|
        invariant 0 <= i <= |specs| && ok
        invariant Sound(tools, fs) && OnlyNamedChange(tools, specs, fs0, fs)
        invariant blkDevs == devs + added && Prepared(tools, fs0, specs, newUUIDs, i, fs, added)
      {
        ghost var before := fs;
        ok := AttachOne(specs[i], newUUIDs[i]);
        UnnamedKept(tools, specs, i, fs0, before, fs);
        if !ok {
          NotAccepted(tools, fs0, specs, newUUIDs, i, before, added);
          return;
        }
        ghost var d := blkDevs[|devs| + i];
        PreparedStep(tools, fs0, specs, newUUIDs, i, before, fs, added, d);
        added := added + [d];
        i := i + 1;
      }
      StillAttached(tools, fs0, specs, newUUIDs, fs, devs, added);
      assert blkDevs[|devs|..] == added;
    }
  }

  // --- Crashes ----------------------------------------------------------------------------------

  /** The file system when a reconcile of the var disk is cut off after `k` steps. */
  function CutOff(tools: Tools, fs: FS, path: string, version: string, k: nat): FS {
    match VarPlan(fs, path, version)
    case None => fs
    case Some(ops) => Exec(tools, fs, path, ops[..if k < |ops| then k else |ops|]).1
  }

  /** A rebuild under way: no file, or the embedded image, whose version tag if present is a sign that it is complete
      and carries the var disk's UUID. */
  ghost predicate UnderRebuild(tools: Tools, after: FS, path: string, version: string)
    requires tools.embedded.Image?
  {
    path in after ==>
      && after[path].Image? && after[path].content == tools.embedded.content
      && (after[path].version != "" ==> after[path] == Tagged(tools, VAR_DATA_DISK_UUID, version))
  }

  lemma GenerateCutOff(tools: Tools, fs: FS, path: string, version: string, k: nat)
    requires Lawful(tools) && k <= |Generate(VAR_DATA_DISK_UUID, version)|
    ensures var after := Exec(tools, fs, path, Generate(VAR_DATA_DISK_UUID, version)[..k]).1;
            (k == 0 && after == fs) || UnderRebuild(tools, after, path, version)
  {
    var ops := Generate(VAR_DATA_DISK_UUID, version);
    var fs1 := fs[path := tools.embedded];
    if k == 1 {
      assert ops[..1] == [Extract] && ops[..1][1..] == [];
      assert Exec(tools, fs, path, ops[..1]) == Exec(tools, fs1, path, []);
    } else if k == 2 {
      assert ops[..2] == [Extract, SetUUID(VAR_DATA_DISK_UUID)] && ops[..2][1..] == [SetUUID(VAR_DATA_DISK_UUID)];
      assert Exec(tools, fs, path, ops[..2]) == Exec(tools, fs1, path, [SetUUID(VAR_DATA_DISK_UUID)]);
      assert [SetUUID(VAR_DATA_DISK_UUID)][1..] == [];
      var fs2 := fs1[path := fs1[path].(uuid := VAR_DATA_DISK_UUID)];
      assert Exec(tools, fs1, path, [SetUUID(VAR_DATA_DISK_UUID)]) == Exec(tools, fs2, path, []);
    } else if k == 3 {
      assert ops[..3] == ops;
      GenerateResult(tools, fs, path, VAR_DATA_DISK_UUID, version);
    }
  }

  /** The version xattr is a commit record: wherever a reconcile of the var disk is cut off, the file is as it was,
      or absent, or a complete image, and then tagged only if its UUID is right. Other files are untouched. */
  lemma CommitRecord(tools: Tools, fs: FS, path: string, version: string, k: nat)
    requires Lawful(tools)
    ensures var after := CutOff(tools, fs, path, version, k);
            && (after == fs || UnderRebuild(tools, after, path, version))
            && forall q :: q != path ==> Same(fs, after, q)
  {
    var plan := VarPlan(fs, path, version);
    if plan.Some? {
      var ops := plan.value;
      var n := if k < |ops| then k else |ops|;
      forall q | q != path ensures Same(fs, Exec(tools, fs, path, ops[..n]).1, q) {
        ExecFrame(tools, fs, path, ops[..n], q);
      }
      var gen := Generate(VAR_DATA_DISK_UUID, version);
      if ops == gen {
        GenerateCutOff(tools, fs, path, version, n);
      } else if n > 0 {
        assert ops == [Remove] + gen && ops[..n][0] == Remove && ops[..n][1..] == gen[..n - 1];
        assert Exec(tools, fs, path, ops[..n]) == Exec(tools, fs - {path}, path, gen[..n - 1]);
        GenerateCutOff(tools, fs - {path}, path, version, n - 1);
      }
    }
  }

  /** What may happen to the var disk between completed reconciles. */
  datatype Incident = Crash(version: string, k: nat) | GuestWrites(content: int)

  function Hit(tools: Tools, fs: FS, path: string, incident: Incident): FS {
    match incident
    case Crash(version, k) => CutOff(tools, fs, path, version, k)
    case GuestWrites(content) =>
      if path in fs && fs[path].Image? then fs[path := fs[path].(content := content)] else fs
  }

  function Suffer(tools: Tools, fs: FS, path: string, incidents: seq<Incident>): FS
    decreases incidents
  {
    if incidents == [] then fs else Suffer(tools, Hit(tools, fs, path, incidents[0]), path, incidents[1..])
  }

  lemma {:induction false} StaysProbeable(tools: Tools, fs: FS, path: string, incidents: seq<Incident>)
    requires Lawful(tools) && Probeable(fs, path)
    ensures Probeable(Suffer(tools, fs, path, incidents), path)
    decreases incidents
  {
    if incidents != [] {
      if incidents[0].Crash? {
        CommitRecord(tools, fs, path, incidents[0].version, incidents[0].k);
      }
      StaysProbeable(tools, Hit(tools, fs, path, incidents[0]), path, incidents[1..]);
    }
  }

  /** Crash recovery, for a non-empty version: after any number of cut-off reconciles, with whatever versions, and of
      writes by the guest, one completed reconcile leaves the var disk's UUID and the requested version. */
  lemma RecoversFromCrashes(tools: Tools, fs: FS, path: string, incidents: seq<Incident>, version: string)
    requires Lawful(tools) && Probeable(fs, path)
    ensures var hit := Suffer(tools, fs, path, incidents);
            && VarPlan(hit, path, version).Some?
            && var (ok, after) := Exec(tools, hit, path, VarPlan(hit, path, version).value);
               && ok && path in after && after[path].Image?
               && after[path].uuid == VAR_DATA_DISK_UUID && after[path].version == version
  {
    StaysProbeable(tools, fs, path, incidents);
    VarReconciled(tools, Suffer(tools, fs, path, incidents), path, version);
  }

  /** From then on, reconciles for that version, cut off or not, change nothing, whatever the guest writes; an empty
      version, by contrast, means a rebuild every time. */
  lemma {:induction false} StaysUpToDate(tools: Tools, fs: FS, path: string, incidents: seq<Incident>, version: string)
    requires UpToDate(fs, path, version)
    requires forall i :: 0 <= i < |incidents| && incidents[i].Crash? ==> incidents[i].version == version
    ensures VarPlan(fs, path, version) == Some([]) <==> version != ""
    ensures version != "" ==> UpToDate(Suffer(tools, fs, path, incidents), path, version)
    decreases incidents
  {
    if incidents != [] && version != "" {
      StaysUpToDate(tools, Hit(tools, fs, path, incidents[0]), path, incidents[1..], version);
    }
  }

  // --- User disks over many runs ------------------------------------------------------------------

  datatype UserDisk = UserDisk(path: string, uuid: string, version: string)

  ghost predicate Completes(tools: Tools, fs: FS, d: UserDisk, after: FS) {
    var plan := UserPlan(fs, d.path, d.uuid, d.version);
    plan.Some? && Exec(tools, fs, d.path, plan.value) == (true, after)
  }

  /** File systems between completed reconciles of user disks, any paths in any order, over any number of runs. */
  ghost predicate UserRuns(tools: Tools, states: seq<FS>, disks: seq<UserDisk>) {
    && |states| == |disks| + 1
    && forall i :: 0 <= i < |disks| ==> Completes(tools, states[i], disks[i], states[i + 1])
  }

  /** A disk that exists never changes its UUID, and one without a version tag never changes at all. */
  lemma {:induction false} UserDisksOverRuns(tools: Tools, states: seq<FS>, disks: seq<UserDisk>, k: nat, p: string)
    requires Lawful(tools) && UserRuns(tools, states, disks) && Sound(tools, states[0])
    requires k < |states| && p in states[0]
    ensures Sound(tools, states[k]) && p in states[k]
    ensures states[0][p].Image? ==> states[k][p].Image? && states[k][p].uuid == states[0][p].uuid
    ensures states[0][p].version == "" || states[0][p].Junk? ==> states[k][p] == states[0][p]
  {
    if k > 0 {
      UserDisksOverRuns(tools, states, disks, k - 1, p);
      var d, fs := disks[k - 1], states[k - 1];
      assert Completes(tools, fs, d, states[k]);
      UserExecEffect(tools, fs, d.path, d.uuid, d.version);
      UserReconciled(tools, fs, d.path, d.uuid, d.version);
      assert d.path != p ==> Same(fs, states[k], p);
    }
  }

  // --- A user disk's rebuild, cut off ----------------------------------------------------------------

  /** How far a rebuild gets that is cut off after `k` steps: not past setting a UUID that cannot be set. */
  function Reached(tools: Tools, uuid: string, k: nat): nat {
    if tools.canon(uuid).None? && k > 2 then 2 else if k > 4 then 4 else k
  }

  /** The file system when the rebuild of an existing disk is cut off. */
  function RebuildCutOff(tools: Tools, fs: FS, path: string, uuid: string, version: string, k: nat): FS {
    var ops := Recreate(uuid, version);
    Exec(tools, fs, path, ops[..if k < |ops| then k else |ops|]).1
  }

  /** The disk after that many steps; nothing when it has been removed and not yet extracted. */
  function Remains(tools: Tools, f: File, version: string, reached: nat): Option<File>
    requires f.Image? && tools.embedded.Image?
  {
    if reached == 0 then Some(f)
    else if reached == 1 then None
    else if reached == 2 then Some(tools.embedded)
    else if reached == 3 then Some(tools.embedded.(uuid := f.uuid))
    else Some(Tagged(tools, f.uuid, version))
  }

  lemma CutOffRemains(tools: Tools, fs: FS, path: string, version: string, k: nat)
    requires Lawful(tools) && Sound(tools, fs) && path in fs && fs[path].Image? && version != ""
    ensures FileAt(RebuildCutOff(tools, fs, path, fs[path].uuid, version, k), path) ==
            Remains(tools, fs[path], version, Reached(tools, fs[path].uuid, k))
  {
    var uuid := fs[path].uuid;
    var ops := Recreate(uuid, version);
    assert ops == [Remove, Extract, SetUUID(uuid), SetVersion(version)];
    var fs1 := fs - {path};
    var fs2 := fs1[path := tools.embedded];
    if k >= 4 {
      assert ops[..4] == ops;
      RecreateResult(tools, fs, path, uuid, version);
    } else if k == 1 {
      assert ops[..1] == [Remove] && ops[..1][1..] == [];
      assert Exec(tools, fs, path, ops[..1]) == Exec(tools, fs1, path, []);
    } else if k == 2 {
      assert ops[..2][1..] == [Extract] && [Extract][1..] == [];
      assert Exec(tools, fs, path, ops[..2]) == Exec(tools, fs1, path, [Extract]) == Exec(tools, fs2, path, []);
    } else if k == 3 {
      assert ops[..3][1..] == [Extract, SetUUID(uuid)] && ops[..3][1..][1..] == [SetUUID(uuid)] && [SetUUID(uuid)][1..] == [];
      assert Exec(tools, fs, path, ops[..3]) == Exec(tools, fs1, path, ops[..3][1..]) == Exec(tools, fs2, path, [SetUUID(uuid)]);
      if tools.canon(uuid).Some? {
        var fs3 := fs2[path := fs2[path].(uuid := uuid)];
        assert tools.canon(uuid) == Some(uuid);
        assert Exec(tools, fs2, path, [SetUUID(uuid)]) == Exec(tools, fs3, path, []);
      }
    }
  }

  /** After a rebuild of a tagged user disk is cut off, the next completed reconcile for the same spec ends with the
      disk's old UUID, if and only if it was not cut off right after Remove, unless the spec asks for that UUID, nor
      right after Extract, unless the embedded image has it; and with the requested version if and only if it was not
      cut off between Extract and the version tag. In that case the disk stays untagged, and is never rebuilt again. */
  lemma RebuildCutOffOutcome(tools: Tools, fs: FS, d: UserDisk, k: nat, after: FS)
    requires Lawful(tools) && Sound(tools, fs) && d.path in fs && fs[d.path].Image? && Differs(fs[d.path], d.version)
    requires Completes(tools, RebuildCutOff(tools, fs, d.path, fs[d.path].uuid, d.version, k), d, after)
    ensures var own, reached := fs[d.path].uuid, Reached(tools, fs[d.path].uuid, k);
            && d.path in after && after[d.path].Image?
            && (after[d.path].uuid == own <==>
                  (reached == 1 ==> tools.canon(d.uuid) == Some(own)) && (reached == 2 ==> tools.embedded.uuid == own))
            && (after[d.path].version == d.version <==> reached != 2 && reached != 3)
            && (reached == 2 || reached == 3 ==> after[d.path].version == "")
  {
    var p, f := d.path, fs[d.path];
    var hit := RebuildCutOff(tools, fs, p, f.uuid, d.version, k);
    CutOffRemains(tools, fs, p, d.version, k);
    GenerateResult(tools, hit, p, d.uuid, d.version);
    RecreateResult(tools, hit, p, f.uuid, d.version);
    assert FileAt(hit, p) == Remains(tools, f, d.version, Reached(tools, f.uuid, k));
  }
}
