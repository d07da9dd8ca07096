/** From the command line to the guest's mounts: the configuration of "start" (cmd/revm/start.go), the disks that
    buildMachine prepares for it (pkg/librevm/machine.go) and what the guest agent mounts. */
module Boot {
  import opened DiskSpecs
  import opened Wrappers
  import opened Storage
  import opened GuestMounts
  import opened Config

  /** For a config that validation accepts, the var disk prevails exactly if every user disk that ends up with its UUID
      is the var disk's own file, and the last of these, if any, has a mount point that is /var. */
  lemma AcceptedPrevailsIff(env: Env, tools: Tools, fs: FS, c: Settings, newUUIDs: seq<string>)
    requires Acceptable(c) && |newUUIDs| == |c.externalDisks|
    ensures var specs, last := c.externalDisks, LastClaimant(tools, fs, c.externalDisks, newUUIDs, VAR_DATA_DISK_UUID, |newUUIDs|);
            VarDiskPrevails(env, tools, fs, c.varDisk, specs, newUUIDs) <==>
            && (forall i :: 0 <= i < |specs| ==> !Impostor(tools, fs, c.varDisk, specs, newUUIDs, i))
            && (last.Some? ==>
                  var k := last.value;
                  env.resolve(MountAt(Fate(tools, fs, specs, newUUIDs, tools.abs(specs[k].path), k), specs[k], newUUIDs[k])) ==
                  env.resolve(VAR_DISK_MOUNT_POINT))
  {
  }

  /** A whole start: loggers, host defaults and validation, the disks, and the guest's mounts. An accepted config names its var
      disk, so preparing fails only over files and UUIDs; and once the mounts have succeeded, the var disk of the
      config, with the fixed UUID on its file, is what the guest has at /var exactly if that is where its UUID is mounted
      and the mount by UUID picked it, and in any case if it prevails. */
  method StartVM(cfg: Config, host: Host, logPath: string, b: MachineBuilder, newUUIDs: seq<string>, table: MountTable,
                 shares: seq<Request>)
    returns (accepted: bool, prepared: bool, mounted: bool)
    requires |newUUIDs| == |cfg.fields.externalDisks| && forall i :: 0 <= i < |newUUIDs| ==> newUUIDs[i] != ""
    requires Lawful(b.tools) && Sound(b.tools, b.fs) && b.blkDevs == [] && NoDisks(table.mounts)
    modifies cfg, b, table
    ensures accepted <==> NewAccepts(old(cfg.fields), host, logPath)
    ensures !accepted ==> !prepared && b.fs == old(b.fs)
    ensures accepted ==> Some(cfg.fields) == Resolved(old(cfg.fields), host) && cfg.fields.externalDisks == old(cfg.fields.externalDisks)
    ensures accepted ==>
      var c, path := cfg.fields, b.tools.abs(cfg.fields.varDisk.path);
      (prepared <==>
       && Probeable(old(b.fs), path)
       && AllAccepted(b.tools, AfterVarDisk(b.tools, old(b.fs), c.varDisk), c.externalDisks, newUUIDs, |newUUIDs|))
    ensures mounted ==> accepted && prepared
    ensures mounted ==>
      var c, path := cfg.fields, b.tools.abs(cfg.fields.varDisk.path);
      var fs1, specs, dir := AfterVarDisk(b.tools, old(b.fs), c.varDisk), c.externalDisks, table.env.resolve(VAR_DISK_MOUNT_POINT);
      var target := VarTarget(b.tools, fs1, c.varDisk, specs, newUUIDs);
      && UUIDAt(b.fs, path) == Some(VAR_DATA_DISK_UUID)
      && (TopAt(table.mounts, dir) == Some(Disk(VAR_DATA_DISK_UUID, path)) <==>
          table.env.resolve(target) == dir && table.env.pick(VAR_DATA_DISK_UUID, target) == path)
      && (PicksAttached(table.env, b.blkDevs) && VarDiskPrevails(table.env, b.tools, fs1, c.varDisk, specs, newUUIDs) ==>
          TopAt(table.mounts, dir) == Some(Disk(VAR_DATA_DISK_UUID, path)))
  {
    prepared, mounted := false, false;
    accepted := New(cfg, host, logPath);
    if accepted {
      var c := cfg.fields;
      prepared, mounted := PrepareAndMount(b, c.varDisk, c.externalDisks, newUUIDs, table, shares);
    }
  }
}
