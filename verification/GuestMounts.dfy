/** The guest agent's mounts (cmd/guest-agent/pkg/service/mount.go, in the order of cmd/guest-agent/main.go), and
    their composition with the block devices that the host prepared. */
module GuestMounts {
  import opened DiskSpecs
  import opened Wrappers
  import opened Storage

  /** What is mounted: a disk is one of the attached devices. */
  datatype Source = Pseudo(fsType: string) | Disk(uuid: string, path: string) | Virtiofs(tag: string) | Kernel

  /** A mounted directory; later mounts on the same directory hide earlier ones. */
  datatype Mount = Mount(dir: string, source: Source)

  /** What a mount command names: a disk is named by its UUID alone. */
  datatype Named = Type(fsType: string) | UUID(uuid: string) | Tag(tag: string)

  datatype Request = Request(target: string, named: Named)

  /** `resolve` is the directory that a target path names, `refuses` are the mounts that fail, and `pick` is the device
      that a mount by UUID at a target finds. */
  datatype Env = Env(resolve: string -> string, refuses: Mount -> bool, pick: (string, string) -> string)

  const PSEUDO := [
    Request("/mnt", Type("tmpfs")), Request("/tmp", Type("tmpfs")), Request("/run", Type("tmpfs")),
    Request(VAR_DISK_MOUNT_POINT, Type("tmpfs")), Request("/dev", Type("devtmpfs")),
    Request("/dev/pts", Type("devpts")), Request("/dev/shm", Type("tmpfs")), Request("/proc", Type("proc")),
    Request("/proc/sys/fs/binfmt_misc", Type("binfmt_misc")), Request("/sys", Type("sysfs")),
    Request("/sys/fs/fuse/connections", Type("fusectl")), Request("/sys/fs/cgroup", Type("cgroup2")),
    Request("/sys/fs/bpf", Type("bpf")), Request("/sys/kernel/config", Type("configfs"))]

  // --- The phases -----------------------------------------------------------------------------

  predicate Covered(ms: seq<Mount>, dir: string) {
    exists i :: 0 <= i < |ms| && ms[i].dir == dir
  }

  predicate IsMounted(env: Env, ms: seq<Mount>, target: string) { Covered(ms, env.resolve(target)) }

  function Found(env: Env, r: Request): Source {
    match r.named
    case Type(t) => Pseudo(t)
    case UUID(u) => Disk(u, env.pick(u, r.target))
    case Tag(t) => Virtiofs(t)
  }

  function TryMount(env: Env, ms: seq<Mount>, r: Request): Option<seq<Mount>> {
    var m := Mount(env.resolve(r.target), Found(env, r));
    if env.refuses(m) then None else Some(ms + [m])
  }

  /** Mounts each request whose target is not yet a mount point, in order; stops at the first failure. */
  function MountEach(env: Env, ms: seq<Mount>, rs: seq<Request>): Option<seq<Mount>>
    decreases rs
  {
    if rs == [] then Some(ms)
    else if IsMounted(env, ms, rs[0].target) then MountEach(env, ms, rs[1..])
    else
      match TryMount(env, ms, rs[0])
      case Some(next) => MountEach(env, next, rs[1..])
      case None => None
  }

  function ToRequest(d: BlkDev): Request { Request(d.mountTo, UUID(d.uuid)) }

  function LastWith(devs: seq<BlkDev>, uuid: string): Option<BlkDev> {
    if devs == [] then None
    else if devs[|devs| - 1].uuid == uuid then Some(devs[|devs| - 1])
    else LastWith(devs[..|devs| - 1], uuid)
  }

  /** The device that the agent takes for the var disk: the last that carries its UUID. */
  function LastVar(devs: seq<BlkDev>): Option<BlkDev> { LastWith(devs, VAR_DATA_DISK_UUID) }

  function External(devs: seq<BlkDev>): seq<Request> {
    if devs == [] then []
    else External(devs[..|devs| - 1]) +
         (if devs[|devs| - 1].uuid == VAR_DATA_DISK_UUID then [] else [ToRequest(devs[|devs| - 1])])
  }

  function BlockPhase(env: Env, ms: seq<Mount>, devs: seq<BlkDev>): Option<seq<Mount>> {
    if devs == [] then Some(ms)
    else
      match LastVar(devs)
      case None => None
      case Some(d) =>
        match TryMount(env, ms, ToRequest(d)) // mounted over whatever is there
        case None => None
        case Some(next) => MountEach(env, next, External(devs))
  }

  /** The three phases in the order of the agent's run. */
  function MountPhases(env: Env, ms: seq<Mount>, devs: seq<BlkDev>, shares: seq<Request>): Option<seq<Mount>> {
    match MountEach(env, ms, PSEUDO)
    case None => None
    case Some(ms1) =>
      match BlockPhase(env, ms1, devs)
      case None => None
      case Some(ms2) => MountEach(env, ms2, shares)
  }

  // --- The agent's loops -------------------------------------------------------------------------

  class MountTable {
    const env: Env
    var mounts: seq<Mount>

    constructor (env: Env, mounts: seq<Mount>)
      ensures this.env == env && this.mounts == mounts
    {
      this.env, this.mounts := env, mounts;
    }

    method MountOne(r: Request) returns (ok: bool)
      modifies this
      ensures ok <==> TryMount(env, old(mounts), r).Some?
      ensures mounts == if ok then TryMount(env, old(mounts), r).value else old(mounts)
    {
      var next := TryMount(env, mounts, r);
      ok := next.Some?;
      if ok {
        mounts := next.value;
      }
    }

    /** The loop of MountAllPseudoMnt, of MountVirtiofs, and over the external disks. */
    method MountAll(rs: seq<Request>) returns (ok: bool)
      modifies this
      ensures ok <==> MountEach(env, old(mounts), rs).Some?
      ensures ok ==> mounts == MountEach(env, old(mounts), rs).value
    {
      var i := 0;
      while i < |rs|
        invariant 0 <= i <= |rs|
        invariant MountEach(env, old(mounts), rs) == MountEach(env, mounts, rs[i..])
      {
        assert rs[i..][1..] == rs[i + 1..];
        if !IsMounted(env, mounts, rs[i].target) {
          ok := MountOne(rs[i]);
          if !ok {
            return;
          }
        }
        i := i + 1;
      }
      ok := true;
    }

    method MountBlockDevices(devs: seq<BlkDev>) returns (ok: bool)
      modifies this
      ensures ok <==> BlockPhase(env, old(mounts), devs).Some?
      ensures ok ==> mounts == BlockPhase(env, old(mounts), devs).value
    {
      if |devs| == 0 {
        return true;
      }
      var varDisk: Option<BlkDev>, external: seq<Request> := None, [];
      var i := 0;
      while i < |devs|
        invariant 0 <= i <= |devs|
        invariant varDisk == LastVar(devs[..i]) && external == External(devs[..i])
      {
        assert devs[..i + 1][..i] == devs[..i];
        if devs[i].uuid == VAR_DATA_DISK_UUID {
          varDisk := Some(devs[i]);
        } else {
          external := external + [ToRequest(devs[i])];
        }
        i := i + 1;
      }
      assert devs[..i] == devs;
      if varDisk.None? {
        return false;
      }
      ok := MountOne(ToRequest(varDisk.value));
      if ok {
        ok := MountAll(external);
      }
    }

    method RunMounts(devs: seq<BlkDev>, shares: seq<Request>) returns (ok: bool)
      modifies this
      ensures ok <==> MountPhases(env, old(mounts), devs, shares).Some?
      ensures ok ==> mounts == MountPhases(env, old(mounts), devs, shares).value
    {
      ok := MountAll(PSEUDO);
      if ok {
        ok := MountBlockDevices(devs);
      }
      if ok {
        ok := MountAll(shares);
      }
    }
  }

  // --- Which mount shows ---------------------------------------------------------------------------

  /** The mount that shows at a directory. */
  function TopAt(ms: seq<Mount>, dir: string): Option<Source> {
    if ms == [] then None
    else if ms[|ms| - 1].dir == dir then Some(ms[|ms| - 1].source)
    else TopAt(ms[..|ms| - 1], dir)
  }

  lemma TopAppend(ms: seq<Mount>, m: Mount, dir: string)
    ensures TopAt(ms + [m], dir) == if m.dir == dir then Some(m.source) else TopAt(ms, dir)
    ensures Covered(ms + [m], dir) <==> Covered(ms, dir) || m.dir == dir
  {
    assert (ms + [m])[..|ms|] == ms;
    assert (ms + [m])[|ms|] == m;
    if Covered(ms, dir) {
      var i :| 0 <= i < |ms| && ms[i].dir == dir;
      assert (ms + [m])[i].dir == dir;
    }
  }

  lemma {:induction false} CoveredIsTop(ms: seq<Mount>, dir: string)
    ensures Covered(ms, dir) <==> TopAt(ms, dir).Some?
    ensures TopAt(ms, dir).Some? ==> Mount(dir, TopAt(ms, dir).value) in ms
  {
    if ms != [] {
      var init, last := ms[..|ms| - 1], ms[|ms| - 1];
      CoveredIsTop(init, dir);
      TopAppend(init, last, dir);
      assert ms == init + [last];
    }
  }

  lemma StaysCovered(ms: seq<Mount>, after: seq<Mount>, dir: string)
    requires ms <= after && Covered(ms, dir)
    ensures Covered(after, dir)
  {
    var i :| 0 <= i < |ms| && ms[i].dir == dir;
    assert after[i].dir == dir;
  }

  /** One step of a skipping phase. */
  function NextMounts(env: Env, ms: seq<Mount>, r: Request): seq<Mount> {
    if IsMounted(env, ms, r.target) || TryMount(env, ms, r).None? then ms else TryMount(env, ms, r).value
  }

  lemma NextMountsEffect(env: Env, ms: seq<Mount>, r: Request, dir: string)
    ensures var next := NextMounts(env, ms, r);
            && ms <= next && |next| <= |ms| + 1
            && (|next| > |ms| ==> next[|ms|].source == Found(env, r))
            && (TryMount(env, ms, r).Some? ==> IsMounted(env, next, r.target))
            && (Covered(ms, dir) ==> Covered(next, dir) && TopAt(next, dir) == TopAt(ms, dir))
  {
    var m := Mount(env.resolve(r.target), Found(env, r));
    TopAppend(ms, m, dir);
    TopAppend(ms, m, env.resolve(r.target));
  }

  lemma MountEachStep(env: Env, ms: seq<Mount>, rs: seq<Request>)
    requires rs != [] && MountEach(env, ms, rs).Some?
    ensures MountEach(env, ms, rs) == MountEach(env, NextMounts(env, ms, rs[0]), rs[1..])
    ensures IsMounted(env, ms, rs[0].target) || TryMount(env, ms, rs[0]).Some?
  {
  }

  /** A skipping phase only adds mounts, and hides nothing that was mounted before it. */
  lemma {:induction false} MountEachHidesNothing(env: Env, ms: seq<Mount>, rs: seq<Request>, dir: string)
    requires MountEach(env, ms, rs).Some?
    ensures var after := MountEach(env, ms, rs).value;
            ms <= after && (Covered(ms, dir) ==> TopAt(after, dir) == TopAt(ms, dir) && Covered(after, dir))
    decreases rs
  {
    if rs != [] {
      MountEachStep(env, ms, rs);
      NextMountsEffect(env, ms, rs[0], dir);
      MountEachHidesNothing(env, NextMounts(env, ms, rs[0]), rs[1..], dir);
    }
  }

  /** It leaves every request's target a mount point. */
  lemma {:induction false} MountEachCovers(env: Env, ms: seq<Mount>, rs: seq<Request>, i: nat)
    requires MountEach(env, ms, rs).Some? && i < |rs|
    ensures IsMounted(env, MountEach(env, ms, rs).value, rs[i].target)
    decreases rs
  {
    var next := NextMounts(env, ms, rs[0]);
    MountEachStep(env, ms, rs);
    if i > 0 {
      MountEachCovers(env, next, rs[1..], i - 1);
    } else {
      NextMountsEffect(env, ms, rs[0], "");
      MountEachHidesNothing(env, next, rs[1..], "");
      StaysCovered(next, MountEach(env, ms, rs).value, env.resolve(rs[0].target));
    }
  }

  /** And every mount that it adds is one of its requests'. */
  lemma {:induction false} MountEachAdds(env: Env, ms: seq<Mount>, rs: seq<Request>, i: nat) returns (j: nat)
    requires MountEach(env, ms, rs).Some? && |ms| <= i < |MountEach(env, ms, rs).value|
    ensures j < |rs| && MountEach(env, ms, rs).value[i].source == Found(env, rs[j])
    decreases rs
  {
    var next := NextMounts(env, ms, rs[0]);
    MountEachStep(env, ms, rs);
    NextMountsEffect(env, ms, rs[0], "");
    if i < |next| {
      MountEachHidesNothing(env, next, rs[1..], "");
      j := 0;
    } else {
      j := MountEachAdds(env, next, rs[1..], i);
      j := j + 1;
    }
  }

  lemma {:induction false} LastWithFound(devs: seq<BlkDev>, uuid: string)
    ensures LastWith(devs, uuid).None? <==> forall i :: 0 <= i < |devs| ==> devs[i].uuid != uuid
    ensures LastWith(devs, uuid).Some? ==> LastWith(devs, uuid).value in devs && LastWith(devs, uuid).value.uuid == uuid
  {
    if devs != [] {
      LastWithFound(devs[..|devs| - 1], uuid);
    }
  }

  /** It is the last: no device after it has the UUID. */
  lemma {:induction false} LastWithIsLast(devs: seq<BlkDev>, uuid: string, i: nat)
    requires i < |devs| && devs[i].uuid == uuid && forall j :: i < j < |devs| ==> devs[j].uuid != uuid
    ensures LastWith(devs, uuid) == Some(devs[i])
  {
    if i < |devs| - 1 {
      LastWithIsLast(devs[..|devs| - 1], uuid, i);
    }
  }

  lemma {:induction false} ExternalHasNoVar(devs: seq<BlkDev>)
    ensures forall i :: 0 <= i < |External(devs)| ==>
      External(devs)[i].named.UUID? && External(devs)[i].named.uuid != VAR_DATA_DISK_UUID
  {
    if devs != [] {
      ExternalHasNoVar(devs[..|devs| - 1]);
    }
  }

  /** The block phase: a device with the var disk's UUID is mounted first, and it is the only mount by that UUID; what
      shows at any directory that was mounted before is that device if that is where it goes, and otherwise what
      showed there before. */
  lemma BlockPhaseEffect(env: Env, ms: seq<Mount>, devs: seq<BlkDev>, dir: string)
    requires devs != [] && BlockPhase(env, ms, devs).Some? && Covered(ms, dir)
    ensures LastVar(devs).Some?
    ensures var d, after := LastVar(devs).value, BlockPhase(env, ms, devs).value;
            var found := Disk(d.uuid, env.pick(d.uuid, d.mountTo));
            && ms <= after && |after| > |ms| && Covered(after, dir)
            && after[|ms|] == Mount(env.resolve(d.mountTo), found)
            && (forall i :: |ms| < i < |after| ==> after[i].source.Disk? && after[i].source.uuid != VAR_DATA_DISK_UUID)
            && TopAt(after, dir) == if env.resolve(d.mountTo) == dir then Some(found) else TopAt(ms, dir)
  {
    var d := LastVar(devs).value;
    var m := Mount(env.resolve(d.mountTo), Disk(d.uuid, env.pick(d.uuid, d.mountTo)));
    assert BlockPhase(env, ms, devs) == MountEach(env, ms + [m], External(devs));
    TopAppend(ms, m, dir);
    MountEachHidesNothing(env, ms + [m], External(devs), dir);
    ExternalHasNoVar(devs);
    var after := BlockPhase(env, ms, devs).value;
    assert after[|ms|] == (ms + [m])[|ms|];
    forall i | |ms| < i < |after| ensures after[i].source.Disk? && after[i].source.uuid != VAR_DATA_DISK_UUID {
      var j := MountEachAdds(env, ms + [m], External(devs), i);
    }
  }

  /** A request whose directory was not covered, and is not named by an earlier request, shows there. */
  lemma {:induction false} MountEachShows(env: Env, ms: seq<Mount>, rs: seq<Request>, j: nat)
    requires MountEach(env, ms, rs).Some? && j < |rs| && !IsMounted(env, ms, rs[j].target)
    requires forall l :: 0 <= l < j ==> env.resolve(rs[l].target) != env.resolve(rs[j].target)
    ensures TopAt(MountEach(env, ms, rs).value, env.resolve(rs[j].target)) == Some(Found(env, rs[j]))
    decreases rs
  {
    var dir, next := env.resolve(rs[j].target), NextMounts(env, ms, rs[0]);
    MountEachStep(env, ms, rs);
    TopAppend(ms, Mount(env.resolve(rs[0].target), Found(env, rs[0])), dir);
    if j > 0 {
      MountEachShows(env, next, rs[1..], j - 1);
    } else {
      MountEachHidesNothing(env, next, rs[1..], dir);
    }
  }

  /** Device `k` is external and comes before device `i`. */
  predicate EarlierExternal(devs: seq<BlkDev>, k: nat, i: nat) {
    k < i <= |devs| && devs[k].uuid != VAR_DATA_DISK_UUID
  }

  lemma {:induction false} ExternalOnly(devs: seq<BlkDev>, l: nat) returns (k: nat)
    requires l < |External(devs)|
    ensures EarlierExternal(devs, k, |devs|) && External(devs)[l] == ToRequest(devs[k])
  {
    var init := devs[..|devs| - 1];
    if l < |External(init)| {
      k := ExternalOnly(init, l);
    } else {
      k := |devs| - 1;
    }
  }

  /** A request for an external device that comes before device `i`. */
  ghost predicate FromEarlier(devs: seq<BlkDev>, r: Request, i: nat) {
    exists k: nat :: EarlierExternal(devs, k, i) && r == ToRequest(devs[k])
  }

  /** Every device without the var disk's UUID is among the external ones, after only such as come before it. */
  lemma {:induction false} ExternalAt(devs: seq<BlkDev>, i: nat) returns (j: nat)
    requires i < |devs| && devs[i].uuid != VAR_DATA_DISK_UUID
    ensures j < |External(devs)| && External(devs)[j] == ToRequest(devs[i])
    ensures forall l :: 0 <= l < j ==> FromEarlier(devs, External(devs)[l], i)
  {
    var init := devs[..|devs| - 1];
    if i < |init| {
      j := ExternalAt(init, i);
      forall l | 0 <= l < j ensures FromEarlier(devs, External(devs)[l], i) {
        assert FromEarlier(init, External(init)[l], i);
        var k: nat :| EarlierExternal(init, k, i) && External(init)[l] == ToRequest(init[k]);
        assert EarlierExternal(devs, k, i) && devs[k] == init[k];
      }
    } else {
      j := |External(init)|;
      forall l | 0 <= l < j ensures FromEarlier(devs, External(devs)[l], i) {
        var k := ExternalOnly(init, l);
        assert EarlierExternal(devs, k, i) && devs[k] == init[k];
      }
    }
  }

  /** The block phase leaves no disk out: the mount point of every external device is mounted, and what shows there is
      that device, unless the directory was mounted before, is the var disk's, or is an earlier external device's. */
  lemma BlockPhaseMountsAll(env: Env, ms: seq<Mount>, devs: seq<BlkDev>, i: nat)
    requires BlockPhase(env, ms, devs).Some? && i < |devs| && devs[i].uuid != VAR_DATA_DISK_UUID
    ensures LastVar(devs).Some? && IsMounted(env, BlockPhase(env, ms, devs).value, devs[i].mountTo)
    ensures var dir := env.resolve(devs[i].mountTo);
            && !Covered(ms, dir) && env.resolve(LastVar(devs).value.mountTo) != dir
            && (forall k: nat :: EarlierExternal(devs, k, i) ==> env.resolve(devs[k].mountTo) != dir) ==>
            TopAt(BlockPhase(env, ms, devs).value, dir) == Some(Disk(devs[i].uuid, env.pick(devs[i].uuid, devs[i].mountTo)))
  {
    var d, dir, rs := LastVar(devs).value, env.resolve(devs[i].mountTo), External(devs);
    var m := Mount(env.resolve(d.mountTo), Disk(d.uuid, env.pick(d.uuid, d.mountTo)));
    assert BlockPhase(env, ms, devs) == MountEach(env, ms + [m], rs);
    var j := ExternalAt(devs, i);
    MountEachCovers(env, ms + [m], rs, j);
    TopAppend(ms, m, dir);
    if !Covered(ms, dir) && m.dir != dir && forall k: nat :: EarlierExternal(devs, k, i) ==> env.resolve(devs[k].mountTo) != dir {
      forall l | 0 <= l < j ensures env.resolve(rs[l].target) != dir {
        assert FromEarlier(devs, rs[l], i);
      }
      MountEachShows(env, ms + [m], rs, j);
    }
  }

  /** A phase covers no directory that none of its requests names. */
  lemma {:induction false} NotNamedNotCovered(env: Env, ms: seq<Mount>, rs: seq<Request>, dir: string)
    requires MountEach(env, ms, rs).Some? && !Covered(ms, dir)
    requires forall j :: 0 <= j < |rs| ==> env.resolve(rs[j].target) != dir
    ensures !Covered(MountEach(env, ms, rs).value, dir)
    decreases rs
  {
    if rs != [] {
      MountEachStep(env, ms, rs);
      TopAppend(ms, Mount(env.resolve(rs[0].target), Found(env, rs[0])), dir);
      NotNamedNotCovered(env, NextMounts(env, ms, rs[0]), rs[1..], dir);
    }
  }

  /** Such a disk still shows after all phases, also where a share names its mount point: shares come last. */
  lemma ExternalDiskShows(env: Env, ms: seq<Mount>, devs: seq<BlkDev>, shares: seq<Request>, i: nat)
    requires MountPhases(env, ms, devs, shares).Some? && i < |devs| && devs[i].uuid != VAR_DATA_DISK_UUID
    requires LastVar(devs).Some? && env.resolve(LastVar(devs).value.mountTo) != env.resolve(devs[i].mountTo)
    requires !Covered(ms, env.resolve(devs[i].mountTo))
    requires forall j :: 0 <= j < |PSEUDO| ==> env.resolve(PSEUDO[j].target) != env.resolve(devs[i].mountTo)
    requires forall k: nat :: EarlierExternal(devs, k, i) ==> env.resolve(devs[k].mountTo) != env.resolve(devs[i].mountTo)
    ensures TopAt(MountPhases(env, ms, devs, shares).value, env.resolve(devs[i].mountTo)) ==
            Some(Disk(devs[i].uuid, env.pick(devs[i].uuid, devs[i].mountTo)))
  {
    var dir := env.resolve(devs[i].mountTo);
    var ms1 := MountEach(env, ms, PSEUDO).value;
    NotNamedNotCovered(env, ms, PSEUDO, dir);
    BlockPhaseMountsAll(env, ms1, devs, i);
    var ms2 := BlockPhase(env, ms1, devs).value;
    MountEachHidesNothing(env, ms2, shares, dir);
  }

  /** No disk is mounted when the agent starts. */
  predicate NoDisks(ms: seq<Mount>) { forall i :: 0 <= i < |ms| ==> !ms[i].source.Disk? }

  lemma PseudoHasNoDisks(env: Env, ms: seq<Mount>)
    requires NoDisks(ms) && MountEach(env, ms, PSEUDO).Some?
    ensures NoDisks(MountEach(env, ms, PSEUDO).value)
  {
    var after := MountEach(env, ms, PSEUDO).value;
    MountEachHidesNothing(env, ms, PSEUDO, "");
    assert forall j :: 0 <= j < |PSEUDO| ==> PSEUDO[j].named.Type?;
    forall i | 0 <= i < |after| ensures !after[i].source.Disk? {
      if i < |ms| {
        assert after[i] == ms[i];
      } else {
        var j := MountEachAdds(env, ms, PSEUDO, i);
      }
    }
  }

  /** Once all phases have succeeded, a device with the var disk's UUID shows at /var, over the tmpfs that was mounted
      there first and whatever the external disks and shares ask for, if and only if the last list entry with that
      UUID is to be mounted there; and it is the device that the mount by UUID picked. */
  lemma VarDiskShows(env: Env, ms: seq<Mount>, devs: seq<BlkDev>, shares: seq<Request>)
    requires NoDisks(ms) && devs != [] && MountPhases(env, ms, devs, shares).Some?
    ensures LastVar(devs).Some?
    ensures var target, after := LastVar(devs).value.mountTo, MountPhases(env, ms, devs, shares).value;
            var dir := env.resolve(VAR_DISK_MOUNT_POINT);
            && (env.resolve(target) == dir ==>
                  TopAt(after, dir) == Some(Disk(VAR_DATA_DISK_UUID, env.pick(VAR_DATA_DISK_UUID, target))))
            && (env.resolve(target) != dir ==> TopAt(after, dir).Some? && !TopAt(after, dir).value.Disk?)
  {
    var dir := env.resolve(VAR_DISK_MOUNT_POINT);
    var ms1 := MountEach(env, ms, PSEUDO).value;
    MountEachCovers(env, ms, PSEUDO, 3);
    assert PSEUDO[3].target == VAR_DISK_MOUNT_POINT;
    assert Covered(ms1, dir);
    PseudoHasNoDisks(env, ms);
    CoveredIsTop(ms1, dir);
    var ms2 := BlockPhase(env, ms1, devs).value;
    BlockPhaseEffect(env, ms1, devs, dir);
    MountEachHidesNothing(env, ms2, shares, dir);
    LastWithFound(devs, VAR_DATA_DISK_UUID);
  }

  lemma PseudoAt(dir: string) returns (i: nat)
    requires dir in {"/mnt", "/tmp", "/run", "/var", "/dev", "/dev/pts", "/dev/shm", "/proc", "/proc/sys/fs/binfmt_misc",
                     "/sys", "/sys/fs/fuse/connections", "/sys/fs/cgroup", "/sys/fs/bpf", "/sys/kernel/config"}
    ensures i < |PSEUDO| && PSEUDO[i].target == dir
  {
    i := 0;
    while i < |PSEUDO| && PSEUDO[i].target != dir
      invariant i <= |PSEUDO|
      invariant forall j :: 0 <= j < i ==> PSEUDO[j].target != dir
    {
      i := i + 1;
    }
    assert PSEUDO[0].target == "/mnt" && PSEUDO[1].target == "/tmp" && PSEUDO[2].target == "/run" && PSEUDO[3].target == "/var";
    assert PSEUDO[4].target == "/dev" && PSEUDO[5].target == "/dev/pts" && PSEUDO[6].target == "/dev/shm" && PSEUDO[7].target == "/proc";
    assert PSEUDO[8].target == "/proc/sys/fs/binfmt_misc" && PSEUDO[9].target == "/sys" && PSEUDO[10].target == "/sys/fs/fuse/connections";
    assert PSEUDO[11].target == "/sys/fs/cgroup" && PSEUDO[12].target == "/sys/fs/bpf" && PSEUDO[13].target == "/sys/kernel/config";
  }

  /** The directories that every guest has mounted in the end. */
  lemma SystemDirsMounted(env: Env, ms: seq<Mount>, devs: seq<BlkDev>, shares: seq<Request>, dir: string)
    requires MountPhases(env, ms, devs, shares).Some? && devs != []
    requires dir in {"/mnt", "/tmp", "/run", "/var", "/dev", "/dev/pts", "/dev/shm", "/proc", "/proc/sys/fs/binfmt_misc",
                     "/sys", "/sys/fs/fuse/connections", "/sys/fs/cgroup", "/sys/fs/bpf", "/sys/kernel/config"}
    ensures IsMounted(env, MountPhases(env, ms, devs, shares).value, dir)
  {
    var i := PseudoAt(dir);
    MountEachCovers(env, ms, PSEUDO, i);
    var ms1 := MountEach(env, ms, PSEUDO).value;
    BlockPhaseEffect(env, ms1, devs, env.resolve(dir));
    MountEachHidesNothing(env, BlockPhase(env, ms1, devs).value, shares, env.resolve(dir));
  }

  /** A share's target is a mount point in the end, and the share shows there unless something was there before the
      shares or an earlier share has the same target. */
  lemma ShareShows(env: Env, ms: seq<Mount>, devs: seq<BlkDev>, shares: seq<Request>, j: nat)
    requires MountPhases(env, ms, devs, shares).Some? && j < |shares| && shares[j].named.Tag?
    ensures IsMounted(env, MountPhases(env, ms, devs, shares).value, shares[j].target)
    ensures var ms2 := BlockPhase(env, MountEach(env, ms, PSEUDO).value, devs).value;
            && !IsMounted(env, ms2, shares[j].target)
            && (forall l :: 0 <= l < j ==> env.resolve(shares[l].target) != env.resolve(shares[j].target)) ==>
            TopAt(MountPhases(env, ms, devs, shares).value, env.resolve(shares[j].target)) == Some(Virtiofs(shares[j].named.tag))
  {
    var ms2 := BlockPhase(env, MountEach(env, ms, PSEUDO).value, devs).value;
    MountEachCovers(env, ms2, shares, j);
    if !IsMounted(env, ms2, shares[j].target) &&
       forall l :: 0 <= l < j ==> env.resolve(shares[l].target) != env.resolve(shares[j].target) {
      MountEachShows(env, ms2, shares, j);
    }
  }

  // --- Host and guest together -----------------------------------------------------------------------

  /** A mount by this UUID can find the device at this path. */
  predicate Findable(devs: seq<BlkDev>, uuid: string, path: string) {
    exists i :: 0 <= i < |devs| && devs[i].uuid == uuid && devs[i].path == path
  }

  /** Every mount by UUID finds one of the attached devices with that UUID; which one is open. */
  ghost predicate PicksAttached(env: Env, devs: seq<BlkDev>) {
    forall i :: 0 <= i < |devs| ==> Findable(devs, devs[i].uuid, env.pick(devs[i].uuid, devs[i].mountTo))
  }

  lemma UniqueFound(devs: seq<BlkDev>, uuid: string)
    requires devs != [] && devs[0].uuid == uuid && forall i :: 1 <= i < |devs| ==> devs[i].uuid != uuid
    ensures LastWith(devs, uuid) == Some(devs[0]) && forall p :: Findable(devs, uuid, p) ==> p == devs[0].path
  {
    LastWithFound(devs, uuid);
  }

  /** With the var disk first in the list and no other device carrying its UUID, the agent finds it, whatever else is
      attached, and after its mounts the var disk shows at /var. */
  lemma HostVarDiskShows(env: Env, ms: seq<Mount>, devs: seq<BlkDev>, shares: seq<Request>)
    requires NoDisks(ms) && devs != [] && PicksAttached(env, devs)
    requires devs[0].uuid == VAR_DATA_DISK_UUID && devs[0].mountTo == VAR_DISK_MOUNT_POINT
    requires forall i :: 1 <= i < |devs| ==> devs[i].uuid != VAR_DATA_DISK_UUID
    ensures LastVar(devs) == Some(devs[0])
    ensures MountPhases(env, ms, devs, shares).Some? ==>
      TopAt(MountPhases(env, ms, devs, shares).value, env.resolve(VAR_DISK_MOUNT_POINT)) ==
      Some(Disk(VAR_DATA_DISK_UUID, devs[0].path))
  {
    UniqueFound(devs, VAR_DATA_DISK_UUID);
    if MountPhases(env, ms, devs, shares).Some? {
      VarDiskShows(env, ms, devs, shares);
      assert Findable(devs, devs[0].uuid, env.pick(devs[0].uuid, devs[0].mountTo));
    }
  }

  /** The last of the first `n` specs whose disk ends up with this UUID. */
  function LastClaimant(tools: Tools, fs: FS, specs: seq<RawDisk>, newUUIDs: seq<string>, uuid: string, n: nat): (k: Option<nat>)
    requires n <= |specs| == |newUUIDs|
    ensures k.Some? ==> k.value < n
  {
    if n == 0 then None
    else if Fate(tools, fs, specs, newUUIDs, tools.abs(specs[n - 1].path), |specs|) == Some(uuid) then Some(n - 1)
    else LastClaimant(tools, fs, specs, newUUIDs, uuid, n - 1)
  }

  lemma LastWithAppend(devs: seq<BlkDev>, d: BlkDev, uuid: string)
    ensures LastWith(devs + [d], uuid) == if d.uuid == uuid then Some(d) else LastWith(devs, uuid)
  {
    assert (devs + [d])[..|devs|] == devs;
  }

  /** The last of the first `n` devices with this UUID. */
  function LastIndex(devs: seq<BlkDev>, uuid: string, n: nat): (k: Option<nat>)
    requires n <= |devs|
    ensures k.Some? ==> k.value < n
  {
    if n == 0 then None
    else if devs[n - 1].uuid == uuid then Some(n - 1)
    else LastIndex(devs, uuid, n - 1)
  }

  lemma {:induction false} ClaimantIsIndex(tools: Tools, fs: FS, specs: seq<RawDisk>, newUUIDs: seq<string>, uuid: string,
                                           added: seq<BlkDev>, n: nat)
    requires tools.embedded.Image? && |specs| == |newUUIDs| && DevicesFor(tools, fs, specs, newUUIDs, |specs|, added) && n <= |specs|
    ensures LastClaimant(tools, fs, specs, newUUIDs, uuid, n) == LastIndex(added, uuid, n)
  {
    if n > 0 {
      assert DeviceFor(tools, fs, specs, newUUIDs, n - 1, |specs|, added[n - 1]);
      ClaimantIsIndex(tools, fs, specs, newUUIDs, uuid, added, n - 1);
    }
  }

  /** The device of the last of these claimants, or the first device if there is none. */
  function DeviceOf(own: BlkDev, added: seq<BlkDev>, k: Option<nat>): BlkDev
    requires k.Some? ==> k.value < |added|
  {
    if k.Some? then added[k.value] else own
  }

  /** The last device with the UUID of the first, out of a list that starts with it. */
  lemma {:induction false} LastOfList(own: BlkDev, added: seq<BlkDev>, n: nat)
    requires n <= |added|
    ensures LastWith([own] + added[..n], own.uuid) == Some(DeviceOf(own, added, LastIndex(added, own.uuid, n)))
  {
    if n > 0 {
      LastOfList(own, added, n - 1);
      LastWithAppend([own] + added[..n - 1], added[n - 1], own.uuid);
      assert [own] + added[..n] == [own] + added[..n - 1] + [added[n - 1]];
    } else {
      LastWithAppend([], own, own.uuid);
      assert [own] + added[..n] == [] + [own];
    }
  }

  /** Where the disk with the var disk's UUID is to be mounted: as the last spec that claims that UUID says, or else
      as the var disk's own spec says. */
  function VarTarget(tools: Tools, fs: FS, varSpec: RawDisk, specs: seq<RawDisk>, newUUIDs: seq<string>): string
    requires |specs| == |newUUIDs|
  {
    match LastClaimant(tools, fs, specs, newUUIDs, VAR_DATA_DISK_UUID, |specs|)
    case None => OrElse(varSpec.mnt, VAR_DISK_MOUNT_POINT)
    case Some(k) => MountAt(Fate(tools, fs, specs, newUUIDs, tools.abs(specs[k].path), k), specs[k], newUUIDs[k])
  }

  /** Spec `i` makes another file end up with the var disk's UUID. */
  predicate Impostor(tools: Tools, fs: FS, varSpec: RawDisk, specs: seq<RawDisk>, newUUIDs: seq<string>, i: nat)
    requires i < |specs| == |newUUIDs|
  {
    var p := tools.abs(specs[i].path);
    p != tools.abs(varSpec.path) && Fate(tools, fs, specs, newUUIDs, p, |specs|) == Some(VAR_DATA_DISK_UUID)
  }

  /** Decidable before anything is mounted: no other file ends up with the var disk's UUID, and the place where that
      UUID is to be mounted is /var. */
  ghost predicate VarDiskPrevails(env: Env, tools: Tools, fs: FS, varSpec: RawDisk, specs: seq<RawDisk>, newUUIDs: seq<string>)
    requires |specs| == |newUUIDs|
  {
    && (forall i :: 0 <= i < |specs| ==> !Impostor(tools, fs, varSpec, specs, newUUIDs, i))
    && env.resolve(VarTarget(tools, fs, varSpec, specs, newUUIDs)) == env.resolve(VAR_DISK_MOUNT_POINT)
  }

  /** The host's list: the var disk, then the user's disks. */
  ghost predicate HostList(tools: Tools, fs: FS, varSpec: RawDisk, specs: seq<RawDisk>, newUUIDs: seq<string>, devs: seq<BlkDev>)
    requires |specs| == |newUUIDs| && tools.embedded.Image?
  {
    && devs != [] && devs[0].uuid == VAR_DATA_DISK_UUID && devs[0].path == tools.abs(varSpec.path)
    && devs[0].mountTo == OrElse(varSpec.mnt, VAR_DISK_MOUNT_POINT)
    && DevicesFor(tools, fs, specs, newUUIDs, |specs|, devs[1..])
  }

  lemma HostsVarTarget(tools: Tools, fs: FS, varSpec: RawDisk, specs: seq<RawDisk>, newUUIDs: seq<string>, devs: seq<BlkDev>)
    requires tools.embedded.Image? && |specs| == |newUUIDs| && HostList(tools, fs, varSpec, specs, newUUIDs, devs)
    ensures LastVar(devs).Some? && LastVar(devs).value.uuid == VAR_DATA_DISK_UUID
    ensures LastVar(devs).value.mountTo == VarTarget(tools, fs, varSpec, specs, newUUIDs)
  {
    var added := devs[1..];
    LastOfList(devs[0], added, |added|);
    ClaimantIsIndex(tools, fs, specs, newUUIDs, VAR_DATA_DISK_UUID, added, |specs|);
    assert devs == [devs[0]] + added[..|added|];
    LastWithFound(devs, VAR_DATA_DISK_UUID);
    var k := LastClaimant(tools, fs, specs, newUUIDs, VAR_DATA_DISK_UUID, |specs|);
    if k.Some? {
      assert DeviceFor(tools, fs, specs, newUUIDs, k.value, |specs|, added[k.value]);
    }
  }

  /** What a mount by the var disk's UUID can find: the var disk itself, and every impostor. */
  lemma FindableIff(tools: Tools, fs: FS, varSpec: RawDisk, specs: seq<RawDisk>, newUUIDs: seq<string>,
                    devs: seq<BlkDev>, p: string)
    requires tools.embedded.Image? && |specs| == |newUUIDs| && HostList(tools, fs, varSpec, specs, newUUIDs, devs)
    ensures Findable(devs, VAR_DATA_DISK_UUID, p) <==>
      || p == tools.abs(varSpec.path)
      || exists i :: 0 <= i < |specs| && Impostor(tools, fs, varSpec, specs, newUUIDs, i) && tools.abs(specs[i].path) == p
  {
    if j :| 0 <= j < |devs| && devs[j].uuid == VAR_DATA_DISK_UUID && devs[j].path == p {
      if p != tools.abs(varSpec.path) {
        assert DeviceFor(tools, fs, specs, newUUIDs, j - 1, |specs|, devs[1..][j - 1]);
        assert Impostor(tools, fs, varSpec, specs, newUUIDs, j - 1) && tools.abs(specs[j - 1].path) == p;
      }
    }
    if i :| 0 <= i < |specs| && Impostor(tools, fs, varSpec, specs, newUUIDs, i) && tools.abs(specs[i].path) == p {
      assert DeviceFor(tools, fs, specs, newUUIDs, i, |specs|, devs[1..][i]);
      assert devs[i + 1].uuid == VAR_DATA_DISK_UUID && devs[i + 1].path == p;
    }
  }

  /** What shows at /var once the mounts have succeeded, for one choice of devices. */
  lemma PreparedVarDiskShows(env: Env, ms: seq<Mount>, tools: Tools, fs: FS, varSpec: RawDisk,
                             specs: seq<RawDisk>, newUUIDs: seq<string>, devs: seq<BlkDev>, shares: seq<Request>)
    requires NoDisks(ms) && MountPhases(env, ms, devs, shares).Some? && tools.embedded.Image? && |specs| == |newUUIDs|
    requires HostList(tools, fs, varSpec, specs, newUUIDs, devs)
    ensures var target, dir := VarTarget(tools, fs, varSpec, specs, newUUIDs), env.resolve(VAR_DISK_MOUNT_POINT);
            TopAt(MountPhases(env, ms, devs, shares).value, dir) == Some(Disk(VAR_DATA_DISK_UUID, tools.abs(varSpec.path))) <==>
            env.resolve(target) == dir && env.pick(VAR_DATA_DISK_UUID, target) == tools.abs(varSpec.path)
  {
    HostsVarTarget(tools, fs, varSpec, specs, newUUIDs, devs);
    VarDiskShows(env, ms, devs, shares);
  }

  lemma PickIsFindable(env: Env, tools: Tools, fs: FS, varSpec: RawDisk, specs: seq<RawDisk>,
                       newUUIDs: seq<string>, devs: seq<BlkDev>)
    requires tools.embedded.Image? && |specs| == |newUUIDs| && HostList(tools, fs, varSpec, specs, newUUIDs, devs)
    ensures PicksAttached(env, devs) ==>
      Findable(devs, VAR_DATA_DISK_UUID, env.pick(VAR_DATA_DISK_UUID, VarTarget(tools, fs, varSpec, specs, newUUIDs)))
  {
    HostsVarTarget(tools, fs, varSpec, specs, newUUIDs, devs);
    LastWithFound(devs, VAR_DATA_DISK_UUID);
    var i :| 0 <= i < |devs| && devs[i] == LastVar(devs).value;
    if PicksAttached(env, devs) {
      assert Findable(devs, devs[i].uuid, env.pick(devs[i].uuid, devs[i].mountTo));
    }
  }

  /** The var disk shows whichever attached device the mount by UUID finds, if and only if it prevails. */
  lemma PrevailsIff(env: Env, tools: Tools, fs: FS, varSpec: RawDisk, specs: seq<RawDisk>,
                    newUUIDs: seq<string>, devs: seq<BlkDev>)
    requires tools.embedded.Image? && |specs| == |newUUIDs| && HostList(tools, fs, varSpec, specs, newUUIDs, devs)
    ensures VarDiskPrevails(env, tools, fs, varSpec, specs, newUUIDs) <==>
      forall p :: Findable(devs, VAR_DATA_DISK_UUID, p) ==>
        && p == tools.abs(varSpec.path)
        && env.resolve(VarTarget(tools, fs, varSpec, specs, newUUIDs)) == env.resolve(VAR_DISK_MOUNT_POINT)
  {
    FindableIff(tools, fs, varSpec, specs, newUUIDs, devs, tools.abs(varSpec.path));
    forall p ensures Findable(devs, VAR_DATA_DISK_UUID, p) <==>
      || p == tools.abs(varSpec.path)
      || exists i :: 0 <= i < |specs| && Impostor(tools, fs, varSpec, specs, newUUIDs, i) && tools.abs(specs[i].path) == p
    {
      FindableIff(tools, fs, varSpec, specs, newUUIDs, devs, p);
    }
    if i :| 0 <= i < |specs| && Impostor(tools, fs, varSpec, specs, newUUIDs, i) {
      assert Findable(devs, VAR_DATA_DISK_UUID, tools.abs(specs[i].path));
    }
  }

  function FirstPath(devs: seq<BlkDev>, uuid: string): string {
    if devs == [] then "" else if devs[0].uuid == uuid then devs[0].path else FirstPath(devs[1..], uuid)
  }

  lemma {:induction false} FirstPathFound(devs: seq<BlkDev>, uuid: string, i: nat)
    requires i < |devs| && devs[i].uuid == uuid
    ensures Findable(devs, uuid, FirstPath(devs, uuid))
  {
    if devs[0].uuid != uuid {
      FirstPathFound(devs[1..], uuid, i - 1);
      var j :| 0 <= j < |devs[1..]| && devs[1..][j].uuid == uuid && devs[1..][j].path == FirstPath(devs[1..], uuid);
      assert devs[j + 1].uuid == uuid;
    }
  }

  /** A choice of devices that takes this one for this UUID. */
  function Choosing(devs: seq<BlkDev>, uuid: string, path: string): (string, string) -> string {
    (u: string, target: string) => if u == uuid then path else FirstPath(devs, u)
  }

  lemma ChoosingPicksAttached(env: Env, devs: seq<BlkDev>, uuid: string, path: string)
    requires Findable(devs, uuid, path)
    ensures PicksAttached(env.(pick := Choosing(devs, uuid, path)), devs)
  {
    forall i | 0 <= i < |devs| ensures Findable(devs, devs[i].uuid, Choosing(devs, uuid, path)(devs[i].uuid, devs[i].mountTo)) {
      FirstPathFound(devs, devs[i].uuid, i);
    }
  }

  /** Conversely, if the var disk does not prevail, there is a choice of attached devices for which it does not show,
      whatever was mounted before and whatever shares are mounted after. */
  lemma SomePickHides(env: Env, tools: Tools, fs: FS, varSpec: RawDisk, specs: seq<RawDisk>,
                      newUUIDs: seq<string>, devs: seq<BlkDev>) returns (bad: Env)
    requires tools.embedded.Image? && |specs| == |newUUIDs| && HostList(tools, fs, varSpec, specs, newUUIDs, devs)
    requires !VarDiskPrevails(env, tools, fs, varSpec, specs, newUUIDs)
    ensures bad == env.(pick := bad.pick) && PicksAttached(bad, devs)
    ensures forall ms, shares :: NoDisks(ms) && MountPhases(bad, ms, devs, shares).Some? ==>
      TopAt(MountPhases(bad, ms, devs, shares).value, env.resolve(VAR_DISK_MOUNT_POINT)) !=
      Some(Disk(VAR_DATA_DISK_UUID, tools.abs(varSpec.path)))
  {
    PrevailsIff(env, tools, fs, varSpec, specs, newUUIDs, devs);
    var target := VarTarget(tools, fs, varSpec, specs, newUUIDs);
    var p :| Findable(devs, VAR_DATA_DISK_UUID, p) &&
             !(p == tools.abs(varSpec.path) && env.resolve(target) == env.resolve(VAR_DISK_MOUNT_POINT));
    bad := env.(pick := Choosing(devs, VAR_DATA_DISK_UUID, p));
    ChoosingPicksAttached(env, devs, VAR_DATA_DISK_UUID, p);
    forall ms, shares | NoDisks(ms) && MountPhases(bad, ms, devs, shares).Some?
      ensures TopAt(MountPhases(bad, ms, devs, shares).value, env.resolve(VAR_DISK_MOUNT_POINT)) !=
              Some(Disk(VAR_DATA_DISK_UUID, tools.abs(varSpec.path)))
    {
      PreparedVarDiskShows(bad, ms, tools, fs, varSpec, specs, newUUIDs, devs, shares);
    }
  }

  /** The host prepares the disks and the guest mounts them. Once the guest's mounts have succeeded, the prepared var
      disk, with its UUID intact, shows at /var exactly if that is where its UUID is mounted and the mount picked it;
      and if it prevails, then whichever attached device the mount may pick. */
  method PrepareAndMount(b: MachineBuilder, varSpec: RawDisk, specs: seq<RawDisk>, newUUIDs: seq<string>,
                         table: MountTable, shares: seq<Request>)
    returns (prepared: bool, mounted: bool)
    requires |newUUIDs| == |specs| && forall i :: 0 <= i < |specs| ==> newUUIDs[i] != ""
    requires Lawful(b.tools) && Sound(b.tools, b.fs) && b.blkDevs == [] && NoDisks(table.mounts)
    modifies b, table
    ensures prepared <==>
      && varSpec.path != "" && Probeable(old(b.fs), b.tools.abs(varSpec.path))
      && AllAccepted(b.tools, AfterVarDisk(b.tools, old(b.fs), varSpec), specs, newUUIDs, |specs|)
    ensures prepared ==> b.Attached() && HostList(b.tools, AfterVarDisk(b.tools, old(b.fs), varSpec), varSpec, specs, newUUIDs, b.blkDevs)
    ensures mounted ==> prepared && UUIDAt(b.fs, b.tools.abs(varSpec.path)) == Some(VAR_DATA_DISK_UUID)
    ensures mounted ==>
      var path, fs1 := b.tools.abs(varSpec.path), AfterVarDisk(b.tools, old(b.fs), varSpec);
      var target, dir := VarTarget(b.tools, fs1, varSpec, specs, newUUIDs), table.env.resolve(VAR_DISK_MOUNT_POINT);
      && (TopAt(table.mounts, dir) == Some(Disk(VAR_DATA_DISK_UUID, path)) <==>
          table.env.resolve(target) == dir && table.env.pick(VAR_DATA_DISK_UUID, target) == path)
      && (PicksAttached(table.env, b.blkDevs) && VarDiskPrevails(table.env, b.tools, fs1, varSpec, specs, newUUIDs) ==>
          TopAt(table.mounts, dir) == Some(Disk(VAR_DATA_DISK_UUID, path)))
  {
    mounted := false;
    prepared := b.WithVarDisk(varSpec);
    if !prepared {
      return;
    }
    ghost var fs1 := b.fs;
    prepared := b.WithUserProvidedRawDisk(specs, newUUIDs);
    if !prepared {
      return;
    }
    assert TellsUUID(b.fs, b.blkDevs[0]);
    mounted := table.RunMounts(b.blkDevs, shares);
    if mounted {
      PreparedVarDiskShows(table.env, old(table.mounts), b.tools, fs1, varSpec, specs, newUUIDs, b.blkDevs, shares);
      PickIsFindable(table.env, b.tools, fs1, varSpec, specs, newUUIDs, b.blkDevs);
      PrevailsIff(table.env, b.tools, fs1, varSpec, specs, newUUIDs, b.blkDevs);
    }
  }

  // --- Impostors -------------------------------------------------------------------------------------

  /** A new disk that is given the var disk's UUID, at any other path, does not let the var disk prevail: mounted
      elsewhere, it takes the mount of that UUID away from /var for every choice of device; mounted at /var, it can be
      the one that is found there. */
  lemma ImpostorHidesVarDisk(env: Env, tools: Tools, fs: FS, varSpec: RawDisk, spec: RawDisk, newUUID: string, devs: seq<BlkDev>)
    requires tools.abs(spec.path) !in fs && tools.abs(spec.path) != tools.abs(varSpec.path)
    requires tools.canon(OrElse(spec.uuid, newUUID)) == Some(VAR_DATA_DISK_UUID)
    requires tools.embedded.Image? && HostList(tools, fs, varSpec, [spec], [newUUID], devs)
    ensures VarTarget(tools, fs, varSpec, [spec], [newUUID]) == MountAt(None, spec, newUUID)
    ensures Findable(devs, VAR_DATA_DISK_UUID, tools.abs(spec.path))
    ensures !VarDiskPrevails(env, tools, fs, varSpec, [spec], [newUUID])
  {
    var p := tools.abs(spec.path);
    assert Fate(tools, fs, [spec], [newUUID], p, 0) == None;
    assert Fate(tools, fs, [spec], [newUUID], p, 1) == Some(VAR_DATA_DISK_UUID);
    assert Impostor(tools, fs, varSpec, [spec], [newUUID], 0);
    FindableIff(tools, fs, varSpec, [spec], [newUUID], devs, p);
  }

  /** Naming the var disk's own file afterwards, with /var as mount point, does not help against an impostor. */
  lemma OwnPathDoesNotHelp(env: Env, tools: Tools, fs: FS, varSpec: RawDisk, specs: seq<RawDisk>,
                           newUUIDs: seq<string>, i: nat, devs: seq<BlkDev>)
    requires tools.embedded.Image? && |specs| == |newUUIDs| && i < |specs| && Impostor(tools, fs, varSpec, specs, newUUIDs, i)
    requires HostList(tools, fs, varSpec, specs, newUUIDs, devs)
    ensures Findable(devs, VAR_DATA_DISK_UUID, tools.abs(specs[i].path)) && !VarDiskPrevails(env, tools, fs, varSpec, specs, newUUIDs)
  {
    FindableIff(tools, fs, varSpec, specs, newUUIDs, devs, tools.abs(specs[i].path));
  }
}
