/** The VM configuration: defaults, then flags, then the file written by "init", then host defaults and validation
    (pkg/librevm/config.go, cmd/revm/start.go), and the checks that later stages repeat (pkg/librevm/machine.go). */
module Config {
  import opened Text
  import opened DiskSpecs
  import opened Wrappers

  const MODE_CONTAINER := "docker"
  const GVISOR := "gvisor"
  const TSI := "tsi"

  /** The value of a `Config`, field by field. */
  datatype Settings = Settings(
    runMode: string, sessionID: string, cpus: int, memoryMB: nat, workDir: string, env: seq<string>,
    varDisk: RawDisk, externalDisks: seq<RawDisk>, network: string, mounts: seq<string>, forwardUnix: seq<string>,
    podmanAPI: string, manageAPI: string, privateKey: string, publicKey: string,
    proxy: bool, logLevel: string, logTo: string, reportURL: string)

  // --- Overwriting ------------------------------------------------------------------------------------

  /** The field after a file's value was laid over it; blank values do not count. */
  function Over(mine: string, theirs: string): string { OrElse(Trim(theirs), mine) }

  function OverList<T>(mine: seq<T>, theirs: seq<T>): seq<T> { if |theirs| > 0 then theirs else mine }

  function OverData(c: Settings, o: Settings): Settings {
    c.(cpus := if o.cpus > 0 then o.cpus else c.cpus,
       memoryMB := if o.memoryMB > 0 then o.memoryMB else c.memoryMB,
       varDisk := if Trim(o.varDisk.path) != "" then o.varDisk else c.varDisk,
       externalDisks := OverList(c.externalDisks, o.externalDisks),
       mounts := OverList(c.mounts, o.mounts),
       forwardUnix := OverList(c.forwardUnix, o.forwardUnix))
  }

  function OverTexts(c: Settings, o: Settings): Settings {
    c.(sessionID := Over(c.sessionID, o.sessionID),
       podmanAPI := Over(c.podmanAPI, o.podmanAPI),
       manageAPI := Over(c.manageAPI, o.manageAPI),
       privateKey := Over(c.privateKey, o.privateKey),
       publicKey := Over(c.publicKey, o.publicKey),
       logLevel := Over(c.logLevel, o.logLevel),
       logTo := Over(c.logTo, o.logTo))
  }

  /** What `OverwriteCfgFrom` makes of `c` and `o`. */
  function Overwritten(c: Settings, o: Settings): Settings {
    OverTexts(OverData(c, o), o)
  }

  /** One text field: a value that is not blank wins, trimmed; a blank one changes nothing. */
  predicate TextLaid(mine: string, theirs: string, result: string) {
    if AllBlank(theirs) then result == mine else result == Trim(theirs)
  }

  lemma BlankTrims(s: string)
    ensures AllBlank(s) <==> Trim(s) == ""
  {
    if AllBlank(s) {
      assert s == s + "" + "";
      TrimPads(s, "", "");
    } else {
      NonBlankTrims(s);
    }
  }

  /** Every field that the file sets has its value in the result, and every other field is as before. */
  lemma FileWins(c: Settings, o: Settings)
    ensures var r := Overwritten(c, o);
            && TextLaid(c.sessionID, o.sessionID, r.sessionID)
            && TextLaid(c.podmanAPI, o.podmanAPI, r.podmanAPI) && TextLaid(c.manageAPI, o.manageAPI, r.manageAPI)
            && TextLaid(c.privateKey, o.privateKey, r.privateKey) && TextLaid(c.publicKey, o.publicKey, r.publicKey)
            && TextLaid(c.logLevel, o.logLevel, r.logLevel) && TextLaid(c.logTo, o.logTo, r.logTo)
            && r.cpus == (if o.cpus > 0 then o.cpus else c.cpus) && r.memoryMB == (if o.memoryMB > 0 then o.memoryMB else c.memoryMB)
            && r.varDisk == (if AllBlank(o.varDisk.path) then c.varDisk else o.varDisk)
            && (o.externalDisks != [] ==> r.externalDisks == o.externalDisks) && (o.externalDisks == [] ==> r.externalDisks == c.externalDisks)
            && (o.mounts != [] ==> r.mounts == o.mounts) && (o.mounts == [] ==> r.mounts == c.mounts)
            && (o.forwardUnix != [] ==> r.forwardUnix == o.forwardUnix) && (o.forwardUnix == [] ==> r.forwardUnix == c.forwardUnix)
            && (r.workDir, r.env, r.proxy) == (c.workDir, c.env, c.proxy)
  {
    BlankTrims(o.sessionID);
    BlankTrims(o.podmanAPI);
    BlankTrims(o.manageAPI);
    BlankTrims(o.privateKey);
    BlankTrims(o.publicKey);
    BlankTrims(o.logLevel);
    BlankTrims(o.logTo);
    BlankTrims(o.varDisk.path);
  }

  lemma OverAssociative(a: string, b: string, c: string)
    ensures Over(Over(a, b), c) == Over(a, Over(b, c))
  {
    TrimTrims(c);
    TrimTrims(Trim(c));
  }

  /** Files may be merged first and laid over the flags afterwards. */
  lemma OverwriteAssociative(a: Settings, b: Settings, c: Settings)
    ensures Overwritten(Overwritten(a, b), c) == Overwritten(a, Overwritten(b, c))
  {
    OverAssociative(a.sessionID, b.sessionID, c.sessionID);
    OverAssociative(a.podmanAPI, b.podmanAPI, c.podmanAPI);
    OverAssociative(a.manageAPI, b.manageAPI, c.manageAPI);
    OverAssociative(a.privateKey, b.privateKey, c.privateKey);
    OverAssociative(a.publicKey, b.publicKey, c.publicKey);
    OverAssociative(a.logLevel, b.logLevel, c.logLevel);
    OverAssociative(a.logTo, b.logTo, c.logTo);
  }

  /** Overwriting twice is overwriting once, and the run mode, network and report URL are never overwritten. */
  lemma OverwriteIdempotent(c: Settings, o: Settings)
    ensures Overwritten(Overwritten(c, o), o) == Overwritten(c, o)
    ensures var r := Overwritten(c, o); (r.runMode, r.network, r.reportURL) == (c.runMode, c.network, c.reportURL)
  {
  }

  // --- The report endpoint ------------------------------------------------------------------------------

  /** Documented: the new flag wins and the legacy one is the fallback. */
  function DocumentedEndpoint(events: string, legacy: string): string { OrElse(Trim(events), Trim(legacy)) }

  /** The code applies the legacy flag second. */
  function AppliedEndpoint(events: string, legacy: string): string { Over(Over("", events), legacy) }

  /** The documented priority holds exactly unless both flags are given and differ. */
  lemma EndpointPriority(events: string, legacy: string)
    ensures AppliedEndpoint(events, legacy) == DocumentedEndpoint(events, legacy) <==>
            Trim(events) == "" || Trim(legacy) == "" || Trim(events) == Trim(legacy)
  {
  }

  // --- The layers of "start" ------------------------------------------------------------------------------

  /** The disks that the specs of one `WithDisk` call add, in order. */
  function DisksOf(specs: seq<string>, newUUIDs: seq<string>): (ds: seq<RawDisk>)
    requires |newUUIDs| == |specs|
    ensures (forall i :: 0 <= i < |newUUIDs| ==> newUUIDs[i] != "") ==>
      forall i :: 0 <= i < |ds| ==> ds[i].uuid != "" && ds[i].version != ""
  {
    if specs == [] then []
    else
      var k := |specs| - 1;
      var last := DiskOf(specs[k], newUUIDs[k]);
      DisksOf(specs[..k], newUUIDs[..k]) + if last.Some? then [last.value] else []
  }

  /** Each spec adds its disk, if it is one, after those before it. */
  lemma DisksOfAppend(specs: seq<string>, newUUIDs: seq<string>, spec: string, newUUID: string)
    requires |newUUIDs| == |specs|
    ensures DisksOf([], []) == []
    ensures var d := DiskOf(spec, newUUID);
            DisksOf(specs + [spec], newUUIDs + [newUUID]) == DisksOf(specs, newUUIDs) + if d.Some? then [d.value] else []
  {
    var k := |specs|;
    assert (specs + [spec])[..k] == specs && (newUUIDs + [newUUID])[..k] == newUUIDs;
  }

  /** The command line; an empty value is a flag that was not given. */
  datatype Flags = Flags(
    id: string, logLevel: string, logTo: string, cpus: int, memoryMB: nat, network: string, proxy: bool,
    env: seq<string>, disks: seq<string>, mounts: seq<string>, forwardUnix: seq<string>, varDisk: string,
    podmanAPI: string, manageAPI: string, privateKey: string, publicKey: string, reportEvents: string, reportURL: string)

  const NO_DISK := RawDisk("", "", "", "")

  function DefaultVarDisk(path: string): RawDisk {
    RawDisk(path, VAR_DATA_DISK_UUID, VAR_DISK_MOUNT_POINT, DEFAULT_RAW_DISK_VERSION)
  }

  /** DefaultConfig; the two paths depend on the session and the user's home. */
  function DefaultSettings(id: string, logPath: string, varDiskPath: string): Settings {
    Settings("", id, 0, 0, "/", [], DefaultVarDisk(varDiskPath), [], GVISOR, [], [], "", "", "", "", false, "info", logPath, "")
  }

  /** What the flags say on their own. */
  function Bare(flags: Flags, newUUIDs: seq<string>): Settings
    requires |newUUIDs| == |flags.disks|
  {
    var v := VarDiskOf(flags.varDisk);
    Settings(MODE_CONTAINER, flags.id, flags.cpus, flags.memoryMB, "", flags.env, if v.Some? then v.value else NO_DISK,
             DisksOf(flags.disks, newUUIDs), flags.network, flags.mounts, flags.forwardUnix, flags.podmanAPI, flags.manageAPI,
             flags.privateKey, flags.publicKey, flags.proxy, flags.logLevel, flags.logTo,
             AppliedEndpoint(flags.reportEvents, flags.reportURL))
  }

  function FlaggedData(d: Settings, b: Settings): Settings {
    d.(runMode := b.runMode, cpus := if b.cpus > 0 then b.cpus else d.cpus,
       memoryMB := if b.memoryMB > 0 then b.memoryMB else d.memoryMB,
       varDisk := if b.varDisk.path != "" then b.varDisk else d.varDisk,
       externalDisks := d.externalDisks + b.externalDisks, mounts := d.mounts + b.mounts,
       forwardUnix := d.forwardUnix + b.forwardUnix, env := d.env + b.env, proxy := b.proxy)
  }

  function FlaggedTexts(d: Settings, b: Settings): Settings {
    d.(network := OrElse(b.network, d.network),
       podmanAPI := OrElse(b.podmanAPI, d.podmanAPI), manageAPI := OrElse(b.manageAPI, d.manageAPI),
       privateKey := OrElse(b.privateKey, d.privateKey), publicKey := OrElse(b.publicKey, d.publicKey),
       logLevel := OrElse(b.logLevel, d.logLevel), logTo := OrElse(b.logTo, d.logTo),
       reportURL := OrElse(b.reportURL, d.reportURL))
  }

  /** What the chain of With methods makes of the defaults `d` and the flags `b`. */
  function Flagged(d: Settings, b: Settings): Settings { FlaggedTexts(FlaggedData(d, b), b) }

  /** The configuration of "start" before host defaults: the file, if there is one, over the flags over the defaults. */
  function Started(d: Settings, b: Settings, file: Option<Settings>): Settings {
    if file.Some? then Overwritten(Flagged(d, b), file.value) else Flagged(d, b)
  }

  predicate Agree(mine: string, theirs: string) { mine == "" || Trim(theirs) == "" || Trim(theirs) == mine }

  predicate AgreeList<T(==)>(mine: seq<T>, theirs: seq<T>) { mine == [] || theirs == [] || mine == theirs }

  predicate NoDataClash(flags: Settings, file: Settings) {
    && (flags.cpus <= 0 || file.cpus <= 0 || flags.cpus == file.cpus)
    && (flags.memoryMB == 0 || file.memoryMB == 0 || flags.memoryMB == file.memoryMB)
    && (flags.varDisk.path == "" || Trim(file.varDisk.path) == "" || flags.varDisk == file.varDisk)
    && AgreeList(flags.externalDisks, file.externalDisks)
    && AgreeList(flags.mounts, file.mounts) && AgreeList(flags.forwardUnix, file.forwardUnix)
  }

  predicate NoTextClash(flags: Settings, file: Settings) {
    && Agree(flags.sessionID, file.sessionID)
    && Agree(flags.podmanAPI, file.podmanAPI) && Agree(flags.manageAPI, file.manageAPI)
    && Agree(flags.privateKey, file.privateKey) && Agree(flags.publicKey, file.publicKey)
    && Agree(flags.logLevel, file.logLevel) && Agree(flags.logTo, file.logTo)
  }

  predicate Kept(flag: string, result: string) { flag != "" ==> result == flag }

  predicate DataKept(flags: Settings, result: Settings) {
    && (flags.cpus > 0 ==> result.cpus == flags.cpus)
    && (flags.memoryMB > 0 ==> result.memoryMB == flags.memoryMB)
    && (flags.varDisk.path != "" ==> result.varDisk == flags.varDisk)
    && (flags.externalDisks != [] ==> result.externalDisks == flags.externalDisks)
    && (flags.mounts != [] ==> result.mounts == flags.mounts)
    && (flags.forwardUnix != [] ==> result.forwardUnix == flags.forwardUnix)
  }

  predicate TextsKept(flags: Settings, result: Settings) {
    && Kept(flags.sessionID, result.sessionID)
    && Kept(flags.podmanAPI, result.podmanAPI) && Kept(flags.manageAPI, result.manageAPI)
    && Kept(flags.privateKey, result.privateKey) && Kept(flags.publicKey, result.publicKey)
    && Kept(flags.logLevel, result.logLevel) && Kept(flags.logTo, result.logTo)
  }

  /** Every field that the flags set has the flags' value in the result, as docs/oomol-studio.md promises. */
  predicate FlagsWin(flags: Settings, result: Settings) {
    DataKept(flags, result) && TextsKept(flags, result)
  }

  /** What DefaultConfig gives the flags to start from: the session's name and no lists. */
  predicate StartsFrom(d: Settings, flags: Settings) {
    d.sessionID == flags.sessionID && d.externalDisks == [] && d.mounts == [] && d.forwardUnix == []
  }

  lemma TextKeptIff(d: string, flag: string, theirs: string)
    ensures Kept(flag, Over(OrElse(flag, d), theirs)) <==> Agree(flag, theirs)
  {
  }

  lemma TextsKeptIff(d: Settings, flags: Settings, file: Settings)
    requires StartsFrom(d, flags)
    ensures TextsKept(flags, OverTexts(FlaggedTexts(d, flags), file)) <==> NoTextClash(flags, file)
  {
    TextKeptIff(d.sessionID, flags.sessionID, file.sessionID);
    TextKeptIff(d.podmanAPI, flags.podmanAPI, file.podmanAPI);
    TextKeptIff(d.manageAPI, flags.manageAPI, file.manageAPI);
    TextKeptIff(d.privateKey, flags.privateKey, file.privateKey);
    TextKeptIff(d.publicKey, flags.publicKey, file.publicKey);
    TextKeptIff(d.logLevel, flags.logLevel, file.logLevel);
    TextKeptIff(d.logTo, flags.logTo, file.logTo);
  }

  lemma DataKeptIff(d: Settings, flags: Settings, file: Settings)
    requires StartsFrom(d, flags)
    ensures DataKept(flags, OverData(FlaggedData(d, flags), file)) <==> NoDataClash(flags, file)
  {
  }

  predicate SameData(a: Settings, b: Settings) {
    && a.cpus == b.cpus && a.memoryMB == b.memoryMB && a.varDisk == b.varDisk
    && a.externalDisks == b.externalDisks && a.mounts == b.mounts && a.forwardUnix == b.forwardUnix
  }

  predicate SameTexts(a: Settings, b: Settings) {
    && a.sessionID == b.sessionID && a.podmanAPI == b.podmanAPI && a.manageAPI == b.manageAPI
    && a.privateKey == b.privateKey && a.publicKey == b.publicKey && a.logLevel == b.logLevel && a.logTo == b.logTo
  }

  /** The layers act on data and texts apart. */
  lemma LayersApart(d: Settings, flags: Settings, file: Settings)
    ensures var r := Started(d, flags, Some(file));
            && SameData(r, OverData(FlaggedData(d, flags), file)) && SameTexts(r, OverTexts(FlaggedTexts(d, flags), file))
            && (r.runMode, r.network, r.env, r.proxy) == (flags.runMode, OrElse(flags.network, d.network), d.env + flags.env, flags.proxy)
  {
  }

  /** The documented order, flags over file, holds exactly when no field is set by both and differently: the code lays
      the file over the flags, which it lays over the defaults. */
  lemma FlagsWinIffNoClash(d: Settings, flags: Settings, file: Settings)
    requires StartsFrom(d, flags)
    ensures FlagsWin(flags, Started(d, flags, Some(file))) <==> NoDataClash(flags, file) && NoTextClash(flags, file)
  {
    DataKeptIff(d, flags, file);
    TextsKeptIff(d, flags, file);
    LayersApart(d, flags, file);
  }

  /** A flag that loses: 4 CPUs on the command line, 2 in the file. */
  lemma FlagsCanLose(d: Settings, flags: Settings, file: Settings)
    requires flags.cpus == 4 && file.cpus == 2
    ensures var r := Started(d, flags, Some(file)); r.cpus == 2 && !FlagsWin(flags, r)
  {
    LayersApart(d, flags, file);
  }

  // --- Defaults and validation ------------------------------------------------------------------------

  /** What the host reports: its CPU count, its memory in bytes unless detection fails, which log levels logrus knows
      and which log files can be opened. */
  datatype Host = Host(cpus: nat, memory: Option<nat>, knowsLevel: string -> bool, opensLog: string -> bool)

  /** setupLoggers; `logPath` is the session's own log file. */
  predicate LoggersStart(c: Settings, host: Host, logPath: string) {
    var level, to := OrElse(c.logLevel, "info"), OrElse(c.logTo, logPath);
    Trim(level) != "" && Trim(to) != "" && host.knowsLevel(level) && host.opensLog(to)
  }

  function Resolved(c: Settings, host: Host): Option<Settings> {
    if c.memoryMB == 0 && host.memory.None? then None
    else Some(c.(cpus := if c.cpus <= 0 then host.cpus else c.cpus,
                 memoryMB := if c.memoryMB == 0 then host.memory.value / 1024 / 1024 else c.memoryMB,
                 network := OrElse(c.network, GVISOR),
                 logLevel := OrElse(c.logLevel, "info"),
                 workDir := OrElse(c.workDir, "/")))
  }

  predicate Acceptable(c: Settings) {
    && c.sessionID != "" && c.runMode == MODE_CONTAINER && c.memoryMB >= 512 && 1 <= c.cpus <= 255
    && c.network in {GVISOR, TSI}
    && c.varDisk.path != "" && c.varDisk.mnt == VAR_DISK_MOUNT_POINT && c.varDisk.uuid == VAR_DATA_DISK_UUID
  }

  /** An accepted config is left alone by a second round of defaults, on any host. */
  lemma AcceptedIsNormal(c: Settings, host: Host, other: Host)
    requires Resolved(c, host).Some? && Acceptable(Resolved(c, host).value)
    ensures Resolved(Resolved(c, host).value, other) == Resolved(c, host)
  {
  }

  /** Which of the checks that repeat validation fires first in `buildMachine`. */
  datatype Recheck = UnsupportedMode | NoCpus | LowMemory | InvalidNetwork | Passed

  function ToUint8(n: int): nat { n % 256 }

  /** The run-mode switch, `withResources` and `getNetworkStrategy`, in the order `buildMachine` gets to them. */
  function Rechecks(c: Settings): Recheck {
    if c.runMode != MODE_CONTAINER then UnsupportedMode
    else if ToUint8(c.cpus) == 0 then NoCpus
    else if c.memoryMB < 512 then LowMemory
    else if c.network != GVISOR && c.network != TSI then InvalidNetwork
    else Passed
  }

  /** What validation adds to the later checks: a session name, a CPU count that fits 8 bits, and a var disk with its
      fixed UUID and mount point. Without the second, the later checks would let 257 CPUs through as one. */
  lemma AcceptableIff(c: Settings)
    ensures Acceptable(c) <==>
      && Rechecks(c) == Passed && ToUint8(c.cpus) == c.cpus && c.sessionID != ""
      && c.varDisk.path != "" && c.varDisk == DefaultVarDisk(c.varDisk.path).(version := c.varDisk.version)
    ensures c.cpus == 257 && c.runMode == MODE_CONTAINER && c.memoryMB >= 512 && c.network == GVISOR ==>
      Rechecks(c) == Passed && ToUint8(c.cpus) == 1 && !Acceptable(c)
  {
  }

  /** The file may name a var disk only with the fixed UUID and mount point. */
  predicate FileVarDiskFits(file: Option<Settings>) {
    file.Some? && Trim(file.value.varDisk.path) != "" ==>
      var v := file.value.varDisk; v.mnt == VAR_DISK_MOUNT_POINT && v.uuid == VAR_DATA_DISK_UUID
  }

  function Effective(flag: int, file: int, host: int): int { if file > 0 then file else if flag > 0 then flag else host }

  function FileCpus(file: Option<Settings>): int { if file.Some? then file.value.cpus else 0 }

  function FileMemory(file: Option<Settings>): nat { if file.Some? then file.value.memoryMB else 0 }

  function FileSession(file: Option<Settings>): string { if file.Some? then Trim(file.value.sessionID) else "" }

  function FileLogLevel(file: Option<Settings>): string { if file.Some? then Trim(file.value.logLevel) else "" }

  function FileLogTo(file: Option<Settings>): string { if file.Some? then Trim(file.value.logTo) else "" }

  lemma VarDiskGiven(spec: string)
    ensures var v := VarDiskOf(spec);
            v.Some? ==> v.value.path != "" && v.value.mnt == VAR_DISK_MOUNT_POINT && v.value.uuid == VAR_DATA_DISK_UUID
  {
  }

  function HostMemoryMB(host: Host): nat { if host.memory.Some? then host.memory.value / 1024 / 1024 else 0 }

  /** What the validated fields come from. */
  lemma StartedFields(d: Settings, b: Settings, file: Option<Settings>)
    ensures var c := Started(d, b, file);
            && c.runMode == b.runMode && c.network == OrElse(b.network, d.network)
            && c.sessionID == OrElse(FileSession(file), d.sessionID)
            && c.logLevel == OrElse(FileLogLevel(file), OrElse(b.logLevel, d.logLevel))
            && c.logTo == OrElse(FileLogTo(file), OrElse(b.logTo, d.logTo))
            && c.cpus == Effective(b.cpus, FileCpus(file), d.cpus)
            && c.memoryMB == Effective(b.memoryMB, FileMemory(file), d.memoryMB)
            && c.varDisk == (if file.Some? && Trim(file.value.varDisk.path) != "" then file.value.varDisk
                             else if b.varDisk.path != "" then b.varDisk else d.varDisk)
  {
    if file.Some? {
      LayersApart(d, b, file.value);
    }
  }

  /** What librevm.New accepts. */
  predicate NewAccepts(c: Settings, host: Host, logPath: string) {
    LoggersStart(c, host, logPath) && Resolved(c, host).Some? && Acceptable(Resolved(c, host).value)
  }

  /** The log level and log file that "start" ends up with can be used. */
  predicate LogUsable(flags: Flags, file: Option<Settings>, logPath: string, host: Host) {
    var level := OrElse(FileLogLevel(file), OrElse(flags.logLevel, "info"));
    var to := OrElse(FileLogTo(file), OrElse(flags.logTo, logPath));
    Trim(level) != "" && Trim(to) != "" && host.knowsLevel(level) && host.opensLog(to)
  }

  lemma StartLogsIff(flags: Flags, newUUIDs: seq<string>, logPath: string, varDiskPath: string,
                     file: Option<Settings>, host: Host)
    requires |newUUIDs| == |flags.disks| && logPath != ""
    ensures var c := Started(DefaultSettings(flags.id, logPath, varDiskPath), Bare(flags, newUUIDs), file);
            LoggersStart(c, host, logPath) <==> LogUsable(flags, file, logPath, host)
  {
    StartedFields(DefaultSettings(flags.id, logPath, varDiskPath), Bare(flags, newUUIDs), file);
  }

  lemma StartNormalizedIff(flags: Flags, newUUIDs: seq<string>, logPath: string, varDiskPath: string,
                           file: Option<Settings>, host: Host)
    requires |newUUIDs| == |flags.disks| && varDiskPath != ""
    ensures var c := Resolved(Started(DefaultSettings(flags.id, logPath, varDiskPath), Bare(flags, newUUIDs), file), host);
            c.Some? && Acceptable(c.value) <==>
            && (flags.id != "" || FileSession(file) != "")
            && 1 <= Effective(flags.cpus, FileCpus(file), host.cpus) <= 255
            && Effective(flags.memoryMB, FileMemory(file), HostMemoryMB(host)) >= 512
            && flags.network in {"", GVISOR, TSI}
            && FileVarDiskFits(file)
  {
    var d, b := DefaultSettings(flags.id, logPath, varDiskPath), Bare(flags, newUUIDs);
    StartedFields(d, b, file);
    VarDiskGiven(flags.varDisk);
    assert Trim("") == "";
  }

  /** What "start" makes of its inputs is accepted by librevm.New exactly if its log level and log file can be used,
      there is a session name, the effective CPU count and memory are in range, the network flag is valid, and a var
      disk in the file fits: a var disk from a flag or the defaults always does, and neither the run mode nor any
      external disk is a reason to refuse. */
  lemma StartAcceptedIff(flags: Flags, newUUIDs: seq<string>, logPath: string, varDiskPath: string,
                         file: Option<Settings>, host: Host)
    requires |newUUIDs| == |flags.disks| && varDiskPath != "" && logPath != ""
    ensures NewAccepts(Started(DefaultSettings(flags.id, logPath, varDiskPath), Bare(flags, newUUIDs), file), host, logPath) <==>
            && LogUsable(flags, file, logPath, host)
            && (flags.id != "" || FileSession(file) != "")
            && 1 <= Effective(flags.cpus, FileCpus(file), host.cpus) <= 255
            && Effective(flags.memoryMB, FileMemory(file), HostMemoryMB(host)) >= 512
            && flags.network in {"", GVISOR, TSI}
            && FileVarDiskFits(file)
  {
    StartLogsIff(flags, newUUIDs, logPath, varDiskPath, file, host);
    StartNormalizedIff(flags, newUUIDs, logPath, varDiskPath, file, host);
  }

  /** Where each flag ends up; a flag that is not given leaves the default. */
  lemma FlagsReachConfig(d: Settings, flags: Flags, newUUIDs: seq<string>)
    requires |newUUIDs| == |flags.disks|
    ensures var r := Flagged(d, Bare(flags, newUUIDs));
            && r.cpus == (if flags.cpus > 0 then flags.cpus else d.cpus)
            && r.memoryMB == (if flags.memoryMB > 0 then flags.memoryMB else d.memoryMB)
            && r.externalDisks == d.externalDisks + DisksOf(flags.disks, newUUIDs)
            && r.mounts == d.mounts + flags.mounts && r.forwardUnix == d.forwardUnix + flags.forwardUnix
            && r.env == d.env + flags.env && r.proxy == flags.proxy && r.runMode == "docker"
            && r.sessionID == d.sessionID && r.workDir == d.workDir
  {
  }

  lemma TextFlagsReachConfig(d: Settings, flags: Flags, newUUIDs: seq<string>)
    requires |newUUIDs| == |flags.disks|
    ensures var r := Flagged(d, Bare(flags, newUUIDs));
            && r.network == OrElse(flags.network, d.network)
            && r.podmanAPI == OrElse(flags.podmanAPI, d.podmanAPI) && r.manageAPI == OrElse(flags.manageAPI, d.manageAPI)
            && r.privateKey == OrElse(flags.privateKey, d.privateKey) && r.publicKey == OrElse(flags.publicKey, d.publicKey)
            && r.logLevel == OrElse(flags.logLevel, d.logLevel) && r.logTo == OrElse(flags.logTo, d.logTo)
  {
  }

  /** With no flags but the session's name and no file, the defaults, written out. */
  lemma BareStart(id: string, logPath: string, varDiskPath: string, b: Settings)
    requires b == Settings(MODE_CONTAINER, id, 0, 0, "", [], NO_DISK, [], "", [], [], "", "", "", "", false, "", "", "")
    ensures Started(DefaultSettings(id, logPath, varDiskPath), b, None) ==
      Settings("docker", id, 0, 0, "/", [], RawDisk(varDiskPath, VAR_DATA_DISK_UUID, "/var", "v1-0-0-ovm"), [], "gvisor", [], [],
               "", "", "", "", false, "info", logPath, "")
  {
  }

  // --- Where the default var disk lies --------------------------------------------------------------------

  /** A session name that filepath.Join takes as it is. */
  predicate PlainName(name: string) { name != "" && '/' !in name && name != "." && name != ".." }

  /** The workspace of a session, whose lock is "<workspace>.lock". */
  function SessionDir(base: string, name: string): string { base + "/" + name }

  function DefaultVarDiskPath(base: string, id: string): string { SessionDir(base, id) + "/data/data.img" }

  predicate Under(path: string, dir: string) { HasPrefix(path, dir + "/") }

  lemma UnderIff(base: string, id: string, name: string)
    requires '/' !in id && '/' !in name
    ensures Under(DefaultVarDiskPath(base, id), SessionDir(base, name)) <==> id == name
  {
    var path, prefix := DefaultVarDiskPath(base, id), SessionDir(base, name) + "/";
    var rest := "data/data.img";
    var tail := id + ['/'] + rest;
    assert path == base + "/" + tail;
    if id == name {
      assert path[..|prefix|] == prefix;
    }
    if prefix <= path {
      var n := |base| + 1;
      var more := path[|prefix|..];
      assert path == prefix + more && tail == path[n..] && prefix[n..] == name + ['/'];
      assert tail == name + ['/'] + more;
      CutJoin(id, '/', rest);
      CutJoin(name, '/', more);
    }
  }

  /** The workspace that is locked, and removed in the end, is that of the final session name, while the default var
      disk was placed by the flag's: it lies in the locked workspace if and only if the file names no other session. */
  lemma DefaultDiskLockedIff(base: string, flags: Flags, newUUIDs: seq<string>, logPath: string, file: Option<Settings>)
    requires |newUUIDs| == |flags.disks| && VarDiskOf(flags.varDisk).None?
    requires file.Some? ==> Trim(file.value.varDisk.path) == "" && (FileSession(file) == "" || PlainName(FileSession(file)))
    requires PlainName(flags.id)
    ensures var c := Started(DefaultSettings(flags.id, logPath, DefaultVarDiskPath(base, flags.id)), Bare(flags, newUUIDs), file);
            && c.varDisk.path == DefaultVarDiskPath(base, flags.id)
            && (Under(c.varDisk.path, SessionDir(base, c.sessionID)) <==> FileSession(file) in {"", flags.id})
  {
    var d := DefaultSettings(flags.id, logPath, DefaultVarDiskPath(base, flags.id));
    StartedFields(d, Bare(flags, newUUIDs), file);
    var name := OrElse(FileSession(file), flags.id);
    UnderIff(base, flags.id, name);
  }

  // --- The object ----------------------------------------------------------------------------------------

  /** The loop of `WithDisk`. */
  method ParseDisks(specs: seq<string>, newUUIDs: seq<string>) returns (disks: seq<RawDisk>)
    requires |newUUIDs| == |specs| && forall i :: 0 <= i < |specs| ==> newUUIDs[i] != ""
    ensures disks == DisksOf(specs, newUUIDs)
  {
    disks := [];
    var i := 0;
    while i < |specs|
      invariant 0 <= i <= |specs|
      invariant disks == DisksOf(specs[..i], newUUIDs[..i])
    {
      assert specs[..i + 1][..i] == specs[..i] && newUUIDs[..i + 1][..i] == newUUIDs[..i];
      var d := ParseDisk(specs[i], newUUIDs[i]);
      if d.Some? {
        disks := disks + [d.value];
      }
      i := i + 1;
    }
    assert specs[..i] == specs && newUUIDs[..i] == newUUIDs;
  }

  /** One text field: a flag counts unless it is empty. */
  method NonEmpty(mine: string, flag: string) returns (v: string)
    ensures v == OrElse(flag, mine)
  {
    v := mine;
    if flag != "" {
      v := flag;
    }
  }

  /** One text field: the file's value counts unless it is blank. */
  method NonBlank(mine: string, theirs: string) returns (v: string)
    ensures v == Over(mine, theirs)
  {
    v := Trim(theirs);
    if v == "" {
      v := mine;
    }
  }

  /** The object behind a *Config, whose fields its methods assign one at a time. */
  class Config {
    var fields: Settings

    constructor Default(id: string, logPath: string, varDiskPath: string)
      ensures fields == DefaultSettings(id, logPath, varDiskPath)
    {
      fields := Settings("", id, 0, 0, "/", [], DefaultVarDisk(varDiskPath), [], GVISOR, [], [], "", "", "", "", false, "info", logPath, "");
    }

    /** The chain of With methods of "start". */
    method ApplyFlags(flags: Flags, newUUIDs: seq<string>)
      requires |newUUIDs| == |flags.disks| && forall i :: 0 <= i < |newUUIDs| ==> newUUIDs[i] != ""
      modifies this
      ensures fields == Flagged(old(fields), Bare(flags, newUUIDs))
    {
      WithTexts(flags);
      WithData(flags);
      WithDisk(flags.disks, newUUIDs);
      WithVarDataDisk(flags.varDisk);
      WithReportEndpoint(flags.reportEvents);
      WithReportEndpoint(flags.reportURL); // compatibility
      VarDiskGiven(flags.varDisk);
    }

    /** The var disk keeps the mount point and UUID that validation demands, whatever the spec says. */
    method WithVarDataDisk(spec: string)
      modifies this
      ensures fields == old(fields).(varDisk := fields.varDisk)
      ensures fields.varDisk == if VarDiskOf(spec).Some? then VarDiskOf(spec).value else old(fields.varDisk)
      ensures fields.varDisk == old(fields.varDisk) ||
        (fields.varDisk.mnt == VAR_DISK_MOUNT_POINT && fields.varDisk.uuid == VAR_DATA_DISK_UUID && fields.varDisk.path != "" && fields.varDisk.version != "")
    {
      var d := ParseVarDisk(spec);
      if d.Some? {
        fields := fields.(varDisk := d.value);
      }
    }

    /** `newUUIDs` are what uuid.NewString would return for each spec. */
    method WithDisk(specs: seq<string>, newUUIDs: seq<string>)
      requires |newUUIDs| == |specs| && forall i :: 0 <= i < |specs| ==> newUUIDs[i] != ""
      modifies this
      ensures fields == old(fields).(externalDisks := old(fields.externalDisks) + DisksOf(specs, newUUIDs))
    {
      var disks := ParseDisks(specs, newUUIDs);
      fields := fields.(externalDisks := fields.externalDisks + disks);
    }

    /** WithLogLevelAndLogFile, WithNetwork and the four WithXFile methods: empty values change nothing. */
    method WithTexts(flags: Flags)
      modifies this
      ensures fields == old(fields).(
        network := OrElse(flags.network, old(fields.network)),
        podmanAPI := OrElse(flags.podmanAPI, old(fields.podmanAPI)), manageAPI := OrElse(flags.manageAPI, old(fields.manageAPI)),
        privateKey := OrElse(flags.privateKey, old(fields.privateKey)), publicKey := OrElse(flags.publicKey, old(fields.publicKey)),
        logLevel := OrElse(flags.logLevel, old(fields.logLevel)), logTo := OrElse(flags.logTo, old(fields.logTo)))
    {
      var logLevel := NonEmpty(fields.logLevel, flags.logLevel);
      var logTo := NonEmpty(fields.logTo, flags.logTo);
      var network := NonEmpty(fields.network, flags.network);
      var podmanAPI := NonEmpty(fields.podmanAPI, flags.podmanAPI);
      var manageAPI := NonEmpty(fields.manageAPI, flags.manageAPI);
      var privateKey := NonEmpty(fields.privateKey, flags.privateKey);
      var publicKey := NonEmpty(fields.publicKey, flags.publicKey);
      fields := fields.(network := network, podmanAPI := podmanAPI, manageAPI := manageAPI, privateKey := privateKey,
                        publicKey := publicKey, logLevel := logLevel, logTo := logTo);
    }

    /** WithMode, WithCPUs, WithMemory, WithProxy, WithEnv, WithMount and WithForwardUnix. */
    method WithData(flags: Flags)
      modifies this
      ensures fields == old(fields).(
        runMode := MODE_CONTAINER, cpus := if flags.cpus > 0 then flags.cpus else old(fields.cpus),
        memoryMB := if flags.memoryMB > 0 then flags.memoryMB else old(fields.memoryMB), proxy := flags.proxy,
        env := old(fields.env) + flags.env, mounts := old(fields.mounts) + flags.mounts,
        forwardUnix := old(fields.forwardUnix) + flags.forwardUnix)
    {
      fields := fields.(runMode := MODE_CONTAINER, proxy := flags.proxy);
      if flags.cpus > 0 { fields := fields.(cpus := flags.cpus); }
      if flags.memoryMB > 0 { fields := fields.(memoryMB := flags.memoryMB); }
      fields := fields.(env := fields.env + flags.env, mounts := fields.mounts + flags.mounts,
                        forwardUnix := fields.forwardUnix + flags.forwardUnix);
    }

    method WithReportEndpoint(url: string)
      modifies this
      ensures fields == old(fields).(reportURL := Over(old(fields.reportURL), url))
    {
      var v := Trim(url);
      if v != "" {
        fields := fields.(reportURL := v);
      }
    }

    /** Also for a config laid over itself. */
    method OverwriteCfgFrom(other: Config?)
      modifies this
      ensures fields == if other == null then old(fields) else Overwritten(old(fields), old(other.fields))
    {
      if other == null {
        return;
      }
      var o := other.fields;
      OverwriteData(o);
      OverwriteTexts(o);
    }

    method OverwriteData(o: Settings)
      modifies this
      ensures fields == OverData(old(fields), o)
    {
      if o.cpus > 0 { fields := fields.(cpus := o.cpus); }
      if o.memoryMB > 0 { fields := fields.(memoryMB := o.memoryMB); }
      if Trim(o.varDisk.path) != "" { fields := fields.(varDisk := o.varDisk); }
      if |o.externalDisks| > 0 { fields := fields.(externalDisks := o.externalDisks); }
      if |o.mounts| > 0 { fields := fields.(mounts := o.mounts); }
      if |o.forwardUnix| > 0 { fields := fields.(forwardUnix := o.forwardUnix); }
    }

    method OverwriteTexts(o: Settings)
      modifies this
      ensures fields == OverTexts(old(fields), o)
    {
      var sessionID := NonBlank(fields.sessionID, o.sessionID);
      var podmanAPI := NonBlank(fields.podmanAPI, o.podmanAPI);
      var manageAPI := NonBlank(fields.manageAPI, o.manageAPI);
      var privateKey := NonBlank(fields.privateKey, o.privateKey);
      var publicKey := NonBlank(fields.publicKey, o.publicKey);
      var logLevel := NonBlank(fields.logLevel, o.logLevel);
      var logTo := NonBlank(fields.logTo, o.logTo);
      fields := fields.(sessionID := sessionID, podmanAPI := podmanAPI, manageAPI := manageAPI,
                        privateKey := privateKey, publicKey := publicKey, logLevel := logLevel, logTo := logTo);
    }

    method ValidateConfig() returns (ok: bool)
      ensures ok <==> Acceptable(fields)
    {
      var c := fields;
      if c.sessionID == "" || c.runMode != MODE_CONTAINER || c.memoryMB < 512 || c.cpus < 1 || c.cpus > 255 {
        return false;
      }
      if c.network != GVISOR && c.network != TSI {
        return false;
      }
      ok := c.varDisk.path != "" && c.varDisk.mnt == VAR_DISK_MOUNT_POINT && c.varDisk.uuid == VAR_DATA_DISK_UUID;
    }

    /** Succeeds exactly when the defaults resolve to an acceptable config; a failure may leave defaults filled in.
        A config that was accepted once is accepted again, on any host, and not changed. */
    method NormalizeConfig(host: Host) returns (ok: bool)
      modifies this
      ensures ok <==> Resolved(old(fields), host).Some? && Acceptable(fields)
      ensures fields == match Resolved(old(fields), host)
        case Some(c) => c
        case None => old(fields).(cpus := if old(fields.cpus) <= 0 then host.cpus else old(fields.cpus))
      ensures ok ==> Rechecks(fields) == Passed && ToUint8(fields.cpus) == fields.cpus
      ensures ok ==> forall h :: Resolved(fields, h) == Some(fields)
    {
      if fields.cpus <= 0 {
        fields := fields.(cpus := host.cpus);
      }
      if fields.memoryMB == 0 {
        if host.memory.None? {
          return false;
        }
        fields := fields.(memoryMB := host.memory.value / 1024 / 1024);
      }
      var network := NonEmpty(GVISOR, fields.network);
      var logLevel := NonEmpty("info", fields.logLevel);
      var workDir := NonEmpty("/", fields.workDir);
      fields := fields.(network := network, logLevel := logLevel, workDir := workDir);
      ok := ValidateConfig();
    }
  }

  /** librevm.New up to the registration of a reporter. */
  method New(cfg: Config, host: Host, logPath: string) returns (ok: bool)
    modifies cfg
    ensures ok <==> NewAccepts(old(cfg.fields), host, logPath)
    ensures ok ==> Some(cfg.fields) == Resolved(old(cfg.fields), host) && Acceptable(cfg.fields)
    ensures !LoggersStart(old(cfg.fields), host, logPath) ==> cfg.fields == old(cfg.fields)
  {
    var level := NonEmpty("info", cfg.fields.logLevel);
    var to := NonEmpty(logPath, cfg.fields.logTo);
    ok := Trim(level) != "" && Trim(to) != "" && host.knowsLevel(level) && host.opensLog(to);
    if ok {
      ok := cfg.NormalizeConfig(host);
    }
  }

  /** How "start" builds its configuration; no file, or one that does not load, leaves the flags and defaults. */
  method StartConfig(flags: Flags, newUUIDs: seq<string>, logPath: string, varDiskPath: string, file: Config?) returns (c: Config)
    requires |newUUIDs| == |flags.disks| && forall i :: 0 <= i < |newUUIDs| ==> newUUIDs[i] != ""
    ensures fresh(c)
    ensures c.fields == Started(DefaultSettings(flags.id, logPath, varDiskPath), Bare(flags, newUUIDs),
                                if file == null then None else Some(file.fields))
  {
    c := new Config.Default(flags.id, logPath, varDiskPath);
    c.ApplyFlags(flags, newUUIDs);
    c.OverwriteCfgFrom(file);
  }
}
