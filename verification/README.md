# revm: a verified model of the microVM manager's core

revm boots a Linux microVM through libkrun, hands the guest its configuration over a vsock "ignition" server, prepares
raw disk images, forwards unix sockets between host and guest, and reports lifecycle events. This project models the
parts of it whose correctness does not show in any single function, in Dafny 4.11, and proves what they promise for
every input, every run and every interleaving. `dafny verify dfyconfig.toml` verifies all of it.

| file | models |
|---|---|
| `Lifecycle.dfy` | `RunDocker` with its four services, the waiting goroutine, the readiness monitor, the probe and the guest, as a step machine |
| `Events.dfy` | the event dispatcher: any number of concurrent addReporter, emit and close calls, as a step machine and as a class |
| `SessionLock.dfy` | any number of sessions on lock files, with inodes apart from paths, each session's cleanup callbacks, and process deaths |
| `Cleanup.dfy` | the cleanup stack, its users `buildMachine`, `VM.init` and `VM.Close`, and its use by many threads |
| `Storage.dfy` | disk reconciliation as plans of single steps that a crash may cut off anywhere |
| `GuestMounts.dfy` | the guest agent's mount phases, and their composition with the disks that the host prepared |
| `Relay.dfy` | the three byte relays under every schedule of reads, writes, half-closes, errors, cancellation and closes |
| `ForwardRules.dfy`, `ForwardRoutes.dfy` | unix-socket forward specs, the automatic rule, port allocation, registration and dialling |
| `MergePatch.dfy`, `Readiness.dfy`, `Ignition.dfy` | JSON merge patch (section 2 of RFC 7396), the readiness channels, the ignition handlers |
| `VolumeSpecs.dfy`, `DiskSpecs.dfy`, `Config.dfy` | the volume and disk spec parsers, and the configuration pipeline |
| `Boot.dfy` | the configuration, the disks and the guest's mounts together |
| `Text.dfy`, `Wrappers.dfy` | strings as Go's library cuts and trims them; shared helpers |

A step machine is a state, an enabling condition and an effect per action; a run is a sequence of states and actions,
and the theorems are about every state of every run. Imperative code is a method or a class proved against a function,
and the promises are lemmas about that function.

Some promises are false of the code as it stands. Each has an exact condition for when it does hold, and a run, an input
or a family of inputs on which it fails:

- **Exclusion by workspace path.** The lock file is unlinked after Unlock, so a waiter may hold an inode that the path
  no longer names (`ExclusionFails`). Exclusion holds as long as no unlink hits a file that another session has open
  (`MutualExclusion`); an unlink preserves agreement exactly when it does not (`UnlinkKeepsAgreeIff`), and once
  agreement is lost exclusion can be broken without any further unlink (`DisagreementBreaksExclusion`).
- **Whole streams through the gvproxy tunnel.** `bidirectionalCopy` closes both connections when either copy ends and
  can cut the other stream short (`ClosingRelayLosesData`). Nothing is lost between polite peers: one half-closes only
  once it has everything that the other has sent, and nobody sends to a peer that has half-closed (`PoliteRunDelivers`).
  Politeness is exactly what keeps a state settled (`StepKeepsSettledIff`), and one impolite step in any state that is
  still open can cost bytes with no error and no further step of a peer (`ImpoliteStepLosesData`).
- **The var disk at /var.** The agent mounts disks by UUID, so a user disk with the var disk's UUID may be found in its
  place, or take the mount away from /var (`ImpostorHidesVarDisk`). The var disk shows whichever attached device is
  found, if and only if it prevails: no other file ends up with its UUID, and the last entry with that UUID is to be
  mounted at /var (`PrepareAndMount`, `StartVM`, and conversely `SomePickHides`). The condition is about the specs and
  the file system before the start.
- **A rebuilt user disk keeps its UUID and gets its version.** Not if the rebuild is cut off at certain steps;
  `RebuildCutOffOutcome` says at which.
- **The default var disk lies in the locked workspace.** Not if the vmcfg file names another session than the flag
  (`DefaultDiskLockedIff`).
- **Merging the automatic rule twice.** A host path that carries its scheme, or a path with blanks or a colon, is not
  read back as written, and the second merge differs (`SchemeBreaksMerge`); `MergeIsIdempotentIff` is exact.
- **A reconciled var disk is left alone.** Not with an empty version: it is rebuilt on every run (`StaysUpToDate`).
- **Flags override the vmcfg file.** `docs/oomol-studio.md:91-96` says so, `cmd/revm/start.go:137-139` does the
  opposite (`FlagsCanLose`). The model follows the code; `FlagsWinIffNoClash` says when the two agree.
- **`--report-events` before `--report-url`.** `docs/oomol-studio.md:98-103` says so, `cmd/revm/start.go:133-135`
  applies the legacy flag last; `EndpointPriority` says when the two agree.
- **No boot after cancel.** Either ready arm of the last `select` may be taken (`MayBootAfterCancel`). A boot can still
  follow exactly as long as RunDocker has not left that select and the host's network is up, or its probe has an
  answer, waits for one, or can still ask (`BootPossibleIff`): cancelling rules that out only between two requests.
- **Key spellings.** `WithDisk` lowers keys and `WithVarDataDisk` folds them (`KeySpellingsDiffer`). They agree exactly
  on keys with neither U+0130 nor U+017F (`SpellingsAgreeIff`).
- **The later checks catch what validation does.** They let 257 CPUs through as one; `AcceptableIff` says what
  validation adds.

## Model

| member | source | states |
|---|---|---|
| `Lifecycle.RunKeepsPromises` | pkg/librevm/vm.go:218-327 | at every point of every run: boot, proxy start, return, each channel's close and each event happen at most once; boot and proxy follow VNetHostReady, guest signals follow boot, events follow their channel, the return follows all four services |
| `Lifecycle.ReturnsAfterServices` | pkg/librevm/vm.go:233-279 | an initialized RunDocker returns only after all four service goroutines have returned, in every interleaving, and after a boot only once everything has been cancelled |
| `Lifecycle.BootsOnceAfterNetwork` | pkg/librevm/vm.go:218-280 | the VM boots at most once, and it and the Podman proxy start only after VNetHostReady was closed; no channel is closed twice |
| `Lifecycle.ReadyEventsFollowBoot` | pkg/librevm/vm.go:296-327 | each readiness event is emitted at most once; EventPodmanReady follows PodmanReady and EventSSHReady follows SSHReady, both after boot, which came after VNetHostReady; the network event follows VNetHostReady |
| `Lifecycle.MonitorReports` | pkg/librevm/vm.go:307-324 | while the monitor runs, PodmanReady, SSHReady and VNetHostReady, closed and not yet reported, each enable the step that records its own event, and no other step records it |
| `Lifecycle.MonitorStaysOn` | pkg/librevm/vm.go:301-308 | unless the context is done, the monitor has stopped only after emitting all three events |
| `Lifecycle.CancelArmReady` | pkg/librevm/vm.go:263-273 | the cancel arm of the last select is ready if and only if somebody cancelled, a service failed, or all services are over |
| `Lifecycle.AnsweredMeans` | pkg/service/ignition/server.go:64-98 | the network is signalled only after gvproxy answered the probe, except with TSI |
| `Lifecycle.MayBootAfterCancel` | pkg/librevm/vm.go:270-279 | a run whose trace is: starting, cancelled while the probe waits for an answer, VNetHostReady closed, booted |
| `Lifecycle.BootPossibleIff` | pkg/librevm/vm.go:270-279 | from any reachable state, cancelled or not, some continuation boots the VM if and only if RunDocker has not left its last select and VNetHostReady is closed or the network probe, which ends at its timeout or with its context, can still signal it |
| `Lifecycle.BeforeMeans` | pkg/librevm/vm.go:218-327 | what "before" means in the promises: every occurrence of the later event has an earlier place with the first |
| `Lifecycle.OnceMeans` | pkg/librevm/vm.go:218-327 | what "at most once" means in the promises: no two places in the trace hold the event |
| `Events.RunKeepsInv` | pkg/librevm/events.go:32-95 | every interleaving of any number of addReporter, emit and close calls keeps the list, thread, history, sequence and accounting invariants |
| `Events.NoReportAfterClose` | pkg/librevm/events.go:46-88 | no Report of a reporter overlaps or follows its Close, and no reporter is closed twice |
| `Events.WinningCloseClosesAll` | pkg/librevm/events.go:69-88 | once the close call that found the dispatcher open has returned, every reporter ever registered has been closed |
| `Events.AllClosedInTheEnd` | pkg/librevm/events.go:32-88 | once every addReporter has returned too, every reporter ever handed over, late ones included, has been closed |
| `Events.SeqIdentifiesEmit` | pkg/librevm/events.go:90-95 | deliveries with equal sequence numbers belong to the same emit |
| `Events.EmitReachesRegistered` | pkg/librevm/events.go:46-67 | an emit that releases the read lock has delivered once, in order, to exactly the reporters registered when it took the lock |
| `Events.LateEmitDeliversNothing` | pkg/librevm/events.go:46-54 | an emit that found the dispatcher closed never delivers anything |
| `Events.EventDispatcher.AddReporter` | pkg/librevm/events.go:32-44 | appends to an open dispatcher; a late reporter is closed at once and not listed |
| `Events.EventDispatcher.Publish` | pkg/librevm/events.go:46-67 | reports to every listed reporter once and in order, or to none after close |
| `Events.EventDispatcher.Close` | pkg/librevm/events.go:69-88 | the first call closes every listed reporter once and empties the list, later calls do nothing |
| `Events.ReportAllAt` | pkg/librevm/events.go:46-67 | what Publish shows, index by index: each listed reporter in turn, the event begun and ended |
| `Events.CloseAllAt` | pkg/librevm/events.go:69-88 | what Close shows, index by index: each listed reporter in turn, its Close begun and ended |
| `SessionLock.OneHolderPerInode` | pkg/librevm/machine.go:76-99 | in every run with process deaths an inode has at most one holder |
| `SessionLock.RemovesUnderLock` | pkg/librevm/machine.go:396-400 | because the callbacks run in reverse order of being pushed: whenever a session removes its workspace or unlocks, it still holds its lock; when it unlinks the lock file, it does not; and it writes files only under the lock |
| `SessionLock.MutualExclusion` | pkg/librevm/machine.go:76-99 | if no unlink hits a lock file another session has open, at most one session per path is ever between lock and Unlock |
| `SessionLock.WrittenFilesStay` | pkg/librevm/machine.go:396-400 | under the same condition, a file written under a lock stays until its writer itself removes the workspace, unlocks or dies |
| `SessionLock.UnlinkKeepsAgreeIff` | pkg/librevm/machine.go:399-399 | an unlink keeps every open lock file of its path the one that the path names, if and only if no other session has that file open |
| `SessionLock.DisagreementBreaksExclusion` | pkg/librevm/machine.go:76-99 | from every state in which a session has a lock file open that the path no longer names, two sessions can come to hold the path without a further unlink |
| `SessionLock.ExclusionFails` | pkg/librevm/machine.go:396-400 | a run from the start, with the callbacks in their order, in which two sessions hold one path and one deletes a file that the other wrote under its lock |
| `Cleanup.CleanupCallback.Add` | pkg/system/callback.go:62-80 | pushes one callback and runs nothing |
| `Cleanup.CleanupCallback.Clean` | pkg/system/callback.go:35-54 | claims everything pending and runs it in reverse order of Add |
| `Cleanup.CleanupCallback.CleanIfErr` | pkg/system/callback.go:21-29 | cleans exactly when there is an error |
| `Cleanup.BuildMachine` | pkg/librevm/machine.go:374-469 | succeeds exactly when no stage fails; every failure after setupWorkspace has removed the workspace and then released the lock, and none before it has run anything |
| `Cleanup.EveryStageCounts` | pkg/librevm/machine.go:404-463 | the stages succeed if and only if none at all fails |
| `Cleanup.VM.Init` | pkg/librevm/vm.go:117-143 | a later failure tears down what was built, once, and keeps no cleanup |
| `Cleanup.VM.Close` | pkg/librevm/vm.go:62-68 | runs what is pending, last added first, leaves nothing pending, and closes the event dispatcher, once |
| `Cleanup.RunSession` | pkg/librevm/vm.go:62-143 | over a whole session with any faults and any positive number of Close calls, the workspace is removed and then the lock released, exactly once if it was taken and never otherwise, and the reporter is closed exactly once |
| `Cleanup.EveryCallbackOnce` | pkg/system/callback.go:35-80 | in every interleaving of Add and clean by many threads: each callback is pending or claimed by exactly one call, none runs twice, every batch runs last added first |
| `Cleanup.RunKeepsInv` | pkg/system/callback.go:35-80 | the claims always cut the Add order into consecutive stretches, and the log holds exactly what the calls have run, without repeats |
| `Storage.MachineBuilder.GenerateRAWDisk` | pkg/librevm/storage.go:42-62 | extracts, sets the UUID, then the version, stopping at the first failure |
| `Storage.MachineBuilder.RecreateRAWDisk` | pkg/librevm/storage.go:249-255 | removes, then generates |
| `Storage.MachineBuilder.ReconcileVarRAWDisk` | pkg/librevm/storage.go:205-247 | carries out the plan for the state found; an unreadable file is an error and stays as it is |
| `Storage.MachineBuilder.ReconcileUserProvidedRawDisk` | pkg/librevm/storage.go:140-203 | carries out the plan; the returned spec has the disk's own UUID if it exists and the requested or a new one if not, and the requested or the default mount point |
| `Storage.MachineBuilder.AddRAWDiskToBlkList` | pkg/librevm/storage.go:64-93 | appends an entry with the file's own UUID and type and the requested or default mount point |
| `Storage.MachineBuilder.WithVarDisk` | pkg/librevm/storage.go:95-110 | succeeds exactly for a named path without an unreadable file; an up-to-date disk with a version is left alone and otherwise the file is a fresh image with the var disk's UUID and the requested version; the one entry carries that UUID, and no other file is touched |
| `Storage.MachineBuilder.WithUserProvidedRawDisk` | pkg/librevm/storage.go:112-138 | succeeds exactly if every spec is acceptable in terms of the file system before the call; every path then holds the file, content, UUID and version, that is its fate; entries in spec order with exact paths, UUIDs, types and mount points; every entry, old and new, tells the UUID on its file in the final file system, even if paths repeat or name the var disk's; unnamed paths are untouched in any case |
| `Storage.MachineBuilder.AttachOne` | pkg/librevm/storage.go:119-135 | the same for one spec: when it can be prepared; a new disk is a fresh image with the requested UUID and version, an existing one is rebuilt with its own UUID and the requested version exactly if a stored version differs, and otherwise unchanged; and its entry |
| `Storage.VersionFate` | pkg/librevm/storage.go:112-138 | over several specs, a new or tagged disk ends up with the version of the last spec for its path that asks for one |
| `Storage.UntaggedStays` | pkg/librevm/storage.go:175-178 | a disk without a version tag stays as it is, whatever the specs ask for |
| `Storage.UnaskedStays` | pkg/librevm/storage.go:179-182 | a disk that has the only version asked for stays as it is |
| `Storage.MountPoints` | pkg/disk/disk.go:27-50 | the requested mount point, or /var for the var UUID, or /mnt and the UUID |
| `Storage.VarReconciled` | pkg/librevm/storage.go:205-255 | a reconcile of a readable or absent var disk completes with the right UUID and the requested version, and either changed nothing or rebuilt the disk |
| `Storage.UserReconciled` | pkg/librevm/storage.go:140-203 | an existing disk keeps its UUID and is rebuilt exactly when its stored version differs from a requested one; a new one gets the requested UUID and version |
| `Storage.CommitRecord` | pkg/librevm/storage.go:42-62 | wherever a var-disk reconcile is cut off, the disk is as before, absent, or a complete image that carries a version only with the right UUID; other files are untouched |
| `Storage.RecoversFromCrashes` | pkg/librevm/storage.go:205-255 | after any number of cut-off reconciles with any versions and guest writes, one completed reconcile ends with the var disk's UUID and the requested version |
| `Storage.StaysUpToDate` | pkg/librevm/storage.go:205-247 | from then on further reconciles for the version, cut off or not, change nothing, exactly if the version is not empty |
| `Storage.UserDisksOverRuns` | pkg/librevm/storage.go:140-203 | over any sequence of completed reconciles of user disks, an existing disk never changes its UUID and an untagged one never changes at all |
| `Storage.RebuildCutOffOutcome` | pkg/librevm/storage.go:154-186 | after a rebuild of a tagged user disk is cut off, the next completed reconcile ends with the old UUID if and only if it was not cut off right after Remove (unless that UUID is requested) nor right after Extract (unless the image has it), and with the requested version if and only if not between Extract and the tag, after which the disk stays untagged |
| `GuestMounts.MountTable.MountAll` | cmd/guest-agent/pkg/service/mount.go:166-206 | mounts each target that is not yet a mount point, in order, up to the first failure |
| `GuestMounts.MountTable.MountBlockDevices` | cmd/guest-agent/pkg/service/mount.go:208-261 | mounts a device with the var UUID first, over anything, where the last such entry says, then every other device where nothing is mounted, in list order; fails if there is no such entry |
| `GuestMounts.MountTable.RunMounts` | cmd/guest-agent/main.go:158-178 | pseudo file systems, then block devices, then shares |
| `GuestMounts.MountEachHidesNothing` | cmd/guest-agent/pkg/service/mount.go:166-206 | a skipping phase only adds mounts and hides nothing mounted before |
| `GuestMounts.MountEachCovers` | cmd/guest-agent/pkg/service/mount.go:166-206 | every target of a successful phase is a mount point |
| `GuestMounts.MountEachAdds` | cmd/guest-agent/pkg/service/mount.go:166-206 | every mount that a phase adds is of one of its requests |
| `GuestMounts.BlockPhaseEffect` | cmd/guest-agent/pkg/service/mount.go:221-261 | the first mount of its phase is by the var UUID, and it is the only one; elsewhere what was visible stays visible |
| `GuestMounts.BlockPhaseMountsAll` | cmd/guest-agent/pkg/service/mount.go:227-258 | every external device's mount point is mounted, and the device shows there unless the directory was mounted before, is the var disk's or is an earlier external device's |
| `GuestMounts.ExternalDiskShows` | cmd/guest-agent/main.go:158-178 | such a disk still shows after all phases, also if a share names its mount point |
| `GuestMounts.ShareShows` | cmd/guest-agent/pkg/service/mount.go:180-206 | every share has its target mounted, and shows there unless something was there before or an earlier share has the target |
| `GuestMounts.SystemDirsMounted` | cmd/guest-agent/pkg/service/mount.go:98-178 | the fourteen system directories are mount points in the end |
| `GuestMounts.LastWithIsLast` | cmd/guest-agent/pkg/service/mount.go:239-242 | the entry taken for the var disk is the last with its UUID |
| `GuestMounts.VarDiskShows` | cmd/guest-agent/pkg/service/mount.go:98-261 | after all phases the device that the mount by the var UUID found shows at /var over the earlier tmpfs, for every list of disks and shares, if and only if the mount point of the last entry with that UUID resolves to /var |
| `GuestMounts.HostVarDiskShows` | cmd/guest-agent/pkg/service/mount.go:221-261 | with the host's var entry first and no other entry carrying its UUID, the agent always finds it, and it shows at /var once all phases have succeeded |
| `GuestMounts.PreparedVarDiskShows` | cmd/guest-agent/pkg/service/mount.go:62-65 | for the host's list and one choice of devices, the var disk shows at /var if and only if its UUID is to be mounted there and the mount by UUID finds it |
| `GuestMounts.FindableIff` | cmd/guest-agent/pkg/service/mount.go:62-65 | a mount by the var UUID can find exactly the var disk's file and every other file that a spec makes end up with that UUID |
| `GuestMounts.PrevailsIff` | cmd/guest-agent/pkg/service/mount.go:221-261 | the var disk is what shows for every device that can be found, if and only if it prevails |
| `GuestMounts.SomePickHides` | cmd/guest-agent/pkg/service/mount.go:62-65 | if it does not prevail, there is a choice of attached devices for which it does not show, whatever else is mounted |
| `GuestMounts.ImpostorHidesVarDisk` | pkg/librevm/storage.go:112-138 | a spec that creates a disk with the var disk's UUID at any other path decides where that UUID is mounted and can be found there, so that the var disk does not prevail |
| `GuestMounts.OwnPathDoesNotHelp` | pkg/librevm/storage.go:112-138 | one impostor among the specs is enough, also if a later spec names the var disk's own file at /var |
| `GuestMounts.PrepareAndMount` | pkg/librevm/storage.go:95-138 | host and guest together: when preparing succeeds; that once mounted the prepared var disk, with its UUID intact, shows at /var exactly if its UUID is mounted there and the mount picked it; and that it shows for every pick of an attached device if it prevails |
| `Relay.RunKeepsInv` | cmd/guest-agent/pkg/service/unix_forwarder.go:126-154 | what was received and what is buffered is always exactly what was read, in order; closes come only when the relay's policy allows |
| `Relay.ReceivedIsPrefix` | cmd/guest-agent/pkg/service/unix_forwarder.go:126-154 | for all three relays and every schedule, each side has received a prefix of what the other sent |
| `Relay.WaitingRelayDelivers` | pkg/network/forwarder.go:74-101 | relayBidirectional and proxy, without error or cancellation: both whole streams are delivered before either connection closes; a half-close follows the whole stream; and once a copy has returned its peer has the whole stream and has been told that it ends |
| `Relay.ReturnTells` | cmd/guest-agent/pkg/service/unix_forwarder.go:129-137 | also with errors and cancellation, a copy that returned while its destination was open has half-closed it |
| `Relay.ClosingRelayTellsNobody` | pkg/gvproxy/tunnel.go:113-128 | bidirectionalCopy never half-closes |
| `Relay.CancelledRelayCanEnd` | cmd/guest-agent/pkg/service/unix_forwarder.go:139-154 | a cancelled relay can close both connections, after which every copy can end and return |
| `Relay.ClosingRelayDeliversOne` | pkg/gvproxy/tunnel.go:113-128 | bidirectionalCopy, without error: when a connection closes, one of the streams is whole |
| `Relay.StepKeepsSettledIff` | pkg/gvproxy/tunnel.go:113-128 | a step keeps "a peer that half-closed has everything the other sent" if and only if it is polite |
| `Relay.PoliteRunDelivers` | pkg/gvproxy/tunnel.go:113-128 | between polite peers and without error, both streams are whole whenever a connection is closed, and stay so |
| `Relay.UnsettledLosesData` | pkg/gvproxy/tunnel.go:113-128 | from every open, fault-free state in which a peer has half-closed without having everything, the relay alone may end with both goroutines returned and bytes missing |
| `Relay.ImpoliteStepLosesData` | pkg/gvproxy/tunnel.go:113-128 | in every reachable open state without error, an impolite step of a peer has such a continuation |
| `Relay.ClosingRelayLosesData` | pkg/gvproxy/tunnel.go:113-128 | for any non-empty answer, a fault-free run that delivers none of it |
| `ForwardRules.ParseForwardUnixRules` | pkg/librevm/unix_forward.go:11-49 | the parsing loop computes the fold over the lines, with its error cases |
| `ForwardRules.ParseMeaning` | pkg/librevm/unix_forward.go:11-49 | parsing succeeds exactly when no line is malformed and no guest path repeats, and the map holds exactly the rules the lines say |
| `ForwardRules.LineMeans` | pkg/librevm/unix_forward.go:24-41 | a spec of two parts is a rule if and only if both are absolute paths, the second without its scheme |
| `ForwardRules.LineWithoutColon` | pkg/librevm/unix_forward.go:14-23 | a blank spec says nothing and one without a colon is malformed |
| `ForwardRules.BlanksIgnored` | pkg/librevm/unix_forward.go:14-32 | blanks around a spec and its paths do not matter |
| `ForwardRules.OrderIsIrrelevant` | pkg/librevm/unix_forward.go:11-49 | every permutation of the specs succeeds or fails alike and gives the same map |
| `ForwardRules.MergeAutoForwardUnixRule` | pkg/librevm/vm.go:171-185 | which specs, start flag and existing mapping the merge returns in each case |
| `ForwardRules.AutoRuleReadsBack` | pkg/librevm/vm.go:171-185 | the automatic spec parses to the intended rule exactly for well-formed paths |
| `ForwardRules.MergeAddsOneRule` | pkg/librevm/vm.go:171-185 | parsing the merged specs gives the old rules if the guest path was mapped, and otherwise the old rules plus the new one exactly for well-formed paths |
| `ForwardRules.MergeStarts` | pkg/librevm/vm.go:171-185 | the agent is started if the guest path is unmapped or mapped to the agent's own socket, and a path mapped elsewhere is reported and left alone |
| `ForwardRules.MergeIsIdempotentIff` | pkg/librevm/vm.go:171-185 | merging twice gives the specs of merging once and starts the agent alike, if and only if the user mapped the guest path or the paths are well formed |
| `ForwardRules.SchemeBreaksMerge` | pkg/librevm/vm.go:171-185 | for every well-formed pair, a host path with its scheme makes the second merge take the rule for the user's and not start the agent |
| `ForwardRoutes.SortStrings` | pkg/define/unix_forward.go:21-25 | an ascending permutation of the keys |
| `ForwardRoutes.LessAt` | pkg/define/unix_forward.go:25-25 | the order is by the first code point that differs, a proper prefix first |
| `ForwardRoutes.BuildUnixSocketForwardRoutes` | pkg/define/unix_forward.go:16-59 | for every iteration order: one route per key, keys strictly ascending, ports consecutive from 25900; overflow exactly when there are more than 2^32 - 25900 keys; the duplicate-port error never |
| `ForwardRoutes.PortNumbers` | pkg/define/unix_forward.go:49-59 | base port 25900, ignition port 25882, and 2^32 - 25900 ports |
| `ForwardRoutes.HostAndGuestAgree` | pkg/define/unix_forward.go:16-47 | routes built separately from the same map are equal |
| `ForwardRoutes.RegisterRoutes` | pkg/libkrun/vsock.go:19-76 | every port asked of libkrun is new; fails exactly if one of the routes' ports is refused, and otherwise maps exactly these and the ignition port, each to its socket |
| `ForwardRoutes.SetupVSock` | pkg/libkrun/vsock.go:19-76 | fails exactly if libkrun refuses the ignition port or one of the routes' own ports, or there are more forwards than ports |
| `ForwardRoutes.DialReachesHost` | cmd/guest-agent/pkg/service/unix_forwarder.go:25-56 | a guest that built its own routes listens on exactly the configured paths, and each one's port reaches the host socket configured for it and never the ignition server |
| `MergePatch.ApplyPatch` | pkg/service/ignition/server.go:145-149 | the RFC's member loop, in any order, computes the merge |
| `MergePatch.PatchFrame` | pkg/service/ignition/server.go:145-149 | a value at any depth that the patch does not reach is unchanged |
| `MergePatch.PatchEffect` | pkg/service/ignition/server.go:145-149 | a null anywhere in the patch removes the value at its path, any other scalar or array is found there afterwards |
| `MergePatch.PatchIdempotent` | pkg/service/ignition/server.go:145-149 | repeating a patch changes nothing more |
| `MergePatch.PatchKeepsNullFree` | pkg/service/ignition/server.go:145-149 | patching a document without null members gives one without null members |
| `Readiness.Readiness.Signal` | pkg/define/readiness.go:29-54 | true for the call that closes the channel and only for it; no channel is closed twice |
| `Ignition.MachineObject.EnsureRuntime` | pkg/define/struct.go:57-64 | creates readiness state only where there is none |
| `Ignition.MachineObject.UnmarshalJSON` | pkg/define/struct.go:66-76 | a failed decode leaves the machine as it was; a successful one replaces the spec and never existing readiness |
| `Ignition.Server.HandleVMConfig` | pkg/service/ignition/server.go:127-159 | GET, PATCH and other methods have the abstract step's effect and status; the readiness object stays the same |
| `Ignition.Server.HandleReady` | pkg/service/ignition/server.go:161-184 | POST /ready signals the named service's channel, or answers 404 and changes nothing; other methods get 405 |
| `Ignition.Server.VirtualNetworkOnline` | pkg/service/ignition/server.go:100-111 | signals VNetHostReady |
| `Ignition.ReadinessOverRun` | pkg/service/ignition/server.go:127-184 | over every run of requests readiness never goes back, a channel ends closed exactly if a step signals it, and exactly one signal per channel returns true |
| `Ignition.ChannelsOverRun` | pkg/service/ignition/server.go:161-184 | over every run SSHReady ends closed if and only if it was before or "ssh" was posted, likewise PodmanReady by "podman" and VNetGuestReady by "guest-network", and VNetHostReady only by the probe |
| `Ignition.Statuses` | pkg/service/ignition/server.go:127-184 | 404 exactly for an unknown service; for a patch 400 exactly if it cannot be read or is not JSON, 200 exactly if the result decodes, 500 otherwise; 405 for other methods |
| `Ignition.SpecOverRun` | pkg/service/ignition/server.go:127-159 | over every run the spec is what the accepted patches alone make of it, so failed patches leave no mark |
| `VolumeSpecs.ExtractMountOptions` | pkg/filesystem/virtio.go:44-62 | read-only exactly when the last of all "ro" and "rw" tokens is "ro" |
| `VolumeSpecs.SplitVolume` | pkg/filesystem/virtio.go:26-42 | source, target and access of a spec |
| `VolumeSpecs.RoundTrip` | pkg/filesystem/virtio.go:26-42 | parsing a printed volume gives it back if and only if its source has no colon and its target no comma |
| `VolumeSpecs.SinglePath` | pkg/filesystem/virtio.go:35-42 | a spec without a colon mounts a directory at its own path |
| `VolumeSpecs.CmdLineMountToMounts` | pkg/filesystem/virtio.go:13-24 | the non-empty specs parsed one by one, in their order, each with its access, tag, source, target and type |
| `VolumeSpecs.NonEmptyConcat` | pkg/filesystem/virtio.go:13-24 | no spec that names a volume is left out or moved |
| `DiskSpecs.ParseDisk` | pkg/librevm/config.go:290-332 | the last value of each key, then the defaults; never an empty version or UUID |
| `DiskSpecs.LastValueIsLast` | pkg/librevm/config.go:301-322 | an option that no later option of its key follows decides the value |
| `DiskSpecs.LastValueAbsent` | pkg/librevm/config.go:301-322 | a key that no option sets stays at its start value |
| `DiskSpecs.PrintedDiskReadsBack` | pkg/librevm/config.go:285-335 | options printed in any order and spelling, some left at their defaults, read back as the same disk |
| `DiskSpecs.OptionIgnoresBlanks` | pkg/librevm/config.go:301-313 | blanks around an option, its key and its value do not matter |
| `DiskSpecs.ParseVarDisk` | pkg/librevm/config.go:128-162 | the last non-blank version, the fixed UUID and mount point, or no disk for a blank path |
| `DiskSpecs.PrintedVarDiskReadsBack` | pkg/librevm/config.go:128-162 | a printed var-disk spec reads back with the last version that is not blank, the fixed UUID and /var, whatever its other options |
| `DiskSpecs.BareVarDiskReadsBack` | pkg/librevm/config.go:128-162 | a bare path reads back with the default version, an empty one as no disk |
| `DiskSpecs.KeySpellingsDiffer` | pkg/librevm/config.go:147-147 | a spelling of "version" that only WithDisk takes, and one that only WithVarDataDisk takes |
| `DiskSpecs.SpellingsAgreeIff` | pkg/librevm/config.go:312-319 | a key that either parser takes for "version" is taken by both if and only if it has neither U+0130 nor U+017F |
| `DiskSpecs.ParsersAgreeIff` | pkg/librevm/config.go:137-151 | the same for whole options with a value that is not blank |
| `Config.Config.Default` | pkg/librevm/config.go:77-91 | every field of the default config |
| `Config.Config.WithDisk` | pkg/librevm/config.go:285-335 | appends the parsed disks in spec order and changes nothing else |
| `Config.DisksOf` | pkg/librevm/config.go:285-335 | every disk added has a UUID and a version |
| `Config.DisksOfAppend` | pkg/librevm/config.go:290-332 | each spec adds its disk, if it is one, after those before it |
| `Config.Config.WithVarDataDisk` | pkg/librevm/config.go:128-162 | replaces the var disk only by one that validation accepts |
| `Config.Config.ApplyFlags` | cmd/revm/start.go:117-135 | the chain of With methods lays the given flags over the defaults, lists appended, the legacy report flag last |
| `Config.FlagsReachConfig` | cmd/revm/start.go:117-133 | each numeric, list and switch flag ends up in its own field, over the default |
| `Config.TextFlagsReachConfig` | cmd/revm/start.go:117-133 | each text flag ends up in its own field, over the default |
| `Config.BareStart` | pkg/librevm/config.go:77-91 | with only a session name, every field of the result, written out |
| `Config.StartConfig` | cmd/revm/start.go:117-139 | the file, if it loads, over the flags over the defaults |
| `Config.Config.OverwriteCfgFrom` | pkg/librevm/config.go:354-409 | field by field, what the file sets replaces what is there, also for a config laid over itself |
| `Config.FileWins` | pkg/librevm/config.go:354-409 | every field that the file sets, texts trimmed, has its value in the result, and every other field is as before |
| `Config.OverwriteIdempotent` | pkg/librevm/config.go:354-409 | overwriting twice is overwriting once, and never changes the run mode, network or report URL |
| `Config.OverwriteAssociative` | pkg/librevm/config.go:354-409 | files may be merged first and laid over the flags afterwards |
| `Config.FlagsWinIffNoClash` | cmd/revm/start.go:117-139 | with defaults, flags and file as "start" composes them, every given flag keeps its value if and only if the file sets no such field differently |
| `Config.FlagsCanLose` | cmd/revm/start.go:137-139 | with 4 CPUs by flag and 2 in the file, whatever the defaults, the result has 2 |
| `Config.EndpointPriority` | cmd/revm/start.go:133-135 | the documented priority of the report flags holds if and only if not both are given with different values |
| `Config.Config.ValidateConfig` | pkg/librevm/config.go:481-517 | decides acceptability, whose meaning AcceptableIff gives |
| `Config.Config.NormalizeConfig` | pkg/librevm/config.go:449-479 | succeeds exactly when the defaults resolve to an acceptable config, which is then a fixed point on every host; what a failure leaves behind |
| `Config.AcceptedIsNormal` | pkg/librevm/config.go:449-479 | normalizing an accepted config again, on any host, changes nothing |
| `Config.AcceptableIff` | pkg/librevm/machine.go:101-114 | a config is acceptable if and only if it passes the mode switch, withResources and the network strategy check, its CPUs convert to uint8 without loss, its session is named and its var disk has the fixed UUID and mount point; 257 CPUs would pass the later checks as one |
| `Config.StartAcceptedIff` | pkg/librevm/vm.go:87-103 | what "start" makes of flags, file and host is accepted by New if and only if the log level and log file can be used, there is a session name, the effective CPUs and memory are in range, the network flag is valid and a var disk in the file fits |
| `Config.New` | pkg/librevm/vm.go:87-103 | accepts exactly if the loggers start and the resolved config is acceptable; a logger failure changes nothing |
| `Config.DefaultDiskLockedIff` | pkg/librevm/config.go:77-91 | the default var disk, placed by the flag's session name, lies under the workspace that is locked if and only if the file names no other session |
| `Boot.StartVM` | pkg/librevm/machine.go:374-469 | loggers, validation, disks and mounts together: an accepted config is prepared exactly if its files and UUIDs allow it, and once mounted its var disk is what the guest has at /var for every pick of an attached device if it prevails, and for one pick exactly if that finds it there |
| `Boot.AcceptedPrevailsIff` | pkg/librevm/config.go:508-514 | for an accepted config that condition is: every user disk that ends up with the var UUID is the var disk's own file, and the last of them, if any, goes to /var |

## Left out

- cgo bodies and the insides of libkrun, libarchive, ext2fs, blkid and gvproxy: foreign code, present only as abstract operations.
- HTTP plumbing, SSE, SSH, DHCP, consoles and terminal handling: I/O without algorithmic content.
- URL, JSON, TOML and YAML codecs: library code; the machine's JSON codec is a parameter of the ignition model, and the merge-patch library is taken to follow section 2 of RFC 7396.
- Log levels, size units, path building, legacy event names, the supervisor's retries: they would only add easy members.
- Real time (tickers, probe timeouts, the forced exit after 30 s): steps may happen at any moment or never, so safety is proved and latency is not.
- The `ctx.Done` branch of the lock racing with its goroutine, and panics in callbacks.
- Error texts: operations say that they fail, and where it matters in which way.
- Nil and empty maps and slices are not told apart; strings are sequences of code points, so invalid UTF-8 does not occur.
- ToLower and EqualFold are modelled only as far as they can yield ASCII letters, which is all that the option keys compare.
- Lifecycle: whether gvproxy answers a request of the probe is the environment's choice; POST /ready is assumed to come from the guest only, hence after boot; of the services only their start, return and failure are kept.
- Events.SeqIdentifiesEmit: the sequence counter is unbounded; wrap-around of uint64 is not modelled.
- Relay: a peer that goes away altogether is an error of the copy that writes to it; a peer half-closes once.
- Events.NoReportAfterClose: reporters handed to addReporter are pairwise distinct, as in the program.
- SessionLock.WrittenFilesStay: files left behind by a session that died may be removed by the next holder, which is the purpose of the cleanup; RemoveAll may delete any subset of the workspace's files.
- Cleanup.BuildMachine: the stages are named and may each fail; what they configure is modelled in the other modules or not at all.
- Storage.MachineBuilder.Step: removal and extraction do not fail on their own; a failing step leaves the file system where a crash before it does, which CommitRecord and RecoversFromCrashes cover. Extraction is one step, so partially extracted images do not occur.
- Storage.RecoversFromCrashes: the path stays the same and nothing else deletes it; the default var path lies inside the workspace that the cleanup removes.
- Storage.Lawful: version xattrs are compared byte by byte as on Linux (the macOS reader trims); different absolute paths are different files, so links between disk paths are not modelled.
- GuestMounts.PrepareAndMount: failures to build a mount command line count as refused mounts; which of several attached devices with one UUID a mount finds is open, and the theorems are about every choice.
- VolumeSpecs.SplitVolume: the index tag is left out, since its only caller discards it; the tag of a mount is a digest of the target, and the digest is a parameter.
- Config.DefaultDiskLockedIff: session names with a slash or of dots only, which filepath.Join rewrites, are left out.
- Config.Config.OverwriteCfgFrom: the text fields are assigned after the others, and the other config is read once; the order cannot be observed, as the fields are independent.
