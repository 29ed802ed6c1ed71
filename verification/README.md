# zfsilo: a verified model of the volume lifecycle and its reconciler

zfsilo drives ZFS volumes through a lifecycle (INITIAL, PUBLISHED, CONNECTED, STAGED, MOUNTED). Each step writes
a database row and runs shell commands on two hosts: a storage host that exports the volume as a target, and a
client host that logs in and mounts it. A reconciler, Sync, probes the hosts and repairs them to match the row.
A CSI driver composes several steps per call.

This project models that behaviour in Dafny and proves what holds for every input, every run and every pattern of
command failures. Where the code does not do what one would hope for, the exact condition is proved instead.

## How the model is built

- **The second state** (`Clusters.dfy`) is a `World`: zvols, filesystems with a count of how often each was
  formatted, targets with their ACLs, sessions, and a *stack* of mounts at each mount point. A `Command` is one
  remote call. It succeeds, or fails with no effect. `Execute(script, w, budget)` runs a script until command number
  `budget` fails; quantifying over all budgets covers every failure pattern, since a handler stops at its first failure.
- **Handlers** (`Plans.dfy`, `VolumeServices.dfy`). `VolumeService` is a class over the volume table and a
  `Cluster`. Its methods follow the source statement by statement: assign to the row, write it, issue commands, roll
  back on an error. Each is proved to end in exactly the table, world, command log and answer of a specification
  function (`Serve`, `ServeUpdate`, `ServeDelete`, `ServeCreate`), and the theorems are about those functions.
  `Moves` and `Effect` say independently of the plans what each call does to the row and to the world.
- **The row** is written by GORM's `Updates(struct)` rule (`Volumes.Persist`): only non-zero fields are stored, so
  clearing `ServerHost`, `ClientHost` or `StagingPath` changes the response and not the stored row.
- **The reconciler** (`Syncers.dfy`) is a class whose phases probe and then command; `Sync` is its specification.
- **The CSI driver** (`CsiDrivers.dfy`): each call is a task that sends one backend request at a time. The class
  methods are proved to do what their task does alone; `Attachments.dfy` lets tasks from any nodes interleave.
- Files follow the program: `Names`, `Volumes`, `Conversions`, `Plans`, `VolumeServices`, `Syncers`, `CsiDrivers`,
  `HostSyncs`, `Paging`, `PageTokens`, `UndoStacks`, `Capacities` model source files. The others hold the theorems:
  one row (`Lifecycles`, `CallAnswers`, `Transports`, `Refreshes`, `Links`, `Agreements`, `SyncLinks`,
  `Reconciliations`, `SyncAgreements`, `Builds`, `Rebuilds`), all rows (`Fleets`, `Nestings`, `FleetRuns`,
  `StaleStagings`, `VolumeSyncs`, `Filesystems`), CSI (`CsiCalls`, `RoundTrips`, `Attachments`, `Expansions`) and hosts
  (`HostIntegrity`).

`dafny verify dfyconfig.toml` checks the whole project.

## Main results

1. **Nesting under partial failure**, for all volumes at once: `Nestings.RunIsNested`. Over every run of valid handler
   calls, Syncs, updates, creations and deletions on shared hosts, whatever fails and whatever happens to mounts, each
   session has an ACL entry, each ACL a target and each target a zvol after *every single command*. New volumes must
   bring names of their own and list no target paths, or be refused (`WellNamed`); nothing else is asked.
2. **Agreement, exactly**: `FleetRuns.RunIsExact`. Over every such run all rows, mounts included, always agree with the
   hosts exactly when every step is `Kind`: a call that gets far enough to disturb mounts is neither a disconnect of a
   staged volume nor a mount over the staging path, and mounts on no path another volume counts on; a Sync that
   unmounts a stale staging path spares the other volumes; a creation is `WellNamed`. Updates and deletions are always
   kind. For steps that succeed these are conditions on the table and the mounts before the step; for failing ones
   they also say how far the step gets.
3. **Convergence and idempotence of Sync**, from any world: what the row claims is there and what it no longer claims is
   gone (`Reconciliations.SyncClaims`, `SyncClearsStrays`), `SyncIdempotent`, `SyncAgreements.SyncRepairs`; and of a
   sweep over all volumes, whichever rows fail: `VolumeSyncs.SweepSettlesLinks`, `SweepReports`, `SweepIsExact`.
4. **Rebuild refines the handlers**: `Rebuilds.RebuildRefinesHandlers`. After any run of successful,
   admissible calls, losing everything but zvols and then syncing gives back exactly the world the handlers had built,
   exactly for rows Sync can act on and hosts with nothing else mounted in the way. Admissible calls are exactly those
   that keep the built world exact (`Rebuilds.RunBuilds`).
5. **No filesystem is ever formatted over**: `Filesystems.RunNeverReformats`, from any rows and any hosts.
6. **Row invariant and conservation**: `Lifecycles.RunKeepsLifecycle`, `ConservationFromCreation`.
7. **CSI round trip and single attachment**: `RoundTrips.RoundTripLeavesNoTrace`, `Attachments.SingleAttachment`.
8. **Host table**: `HostSyncs.SyncLeavesConfigured`, `SyncIsIdempotent`, `HostIntegrity.SyncIsExact`,
   `RunKeepsIntegrity`.
9. **Names, answers and refreshes**: which identifier each transport uses (`Transports.LifecycleNamesLinks`), how every
   call ends that has nothing to do (`CallAnswers.CallsAnswer`, `CsiCalls`), and what an update does to row, zvol and
   client (`Refreshes.UpdateRefreshes`, `UpdateSucceeds`).
10. **Side cores**: paging, the page token codec, target names, the undo stack, capacities through doubles.

## What the code does that its documentation does not say

- An accepted `UpdateVolume`, whatever it changes, drops the transport payload, because the row passes through the
  API form. A connected volume that was updated can never be disconnected again: `Lifecycles.TeardownPossible` is an
  if-and-only-if. A CSI expansion of an attached volume therefore strands it: `Expansions.ExpandStrandsAttached`.
  A published volume that was updated cannot be attached: the backend panics (`CsiCalls.AttachCut`).
- `DisconnectVolume` accepts a staged volume and leaves its device mounted, and `MountVolume` accepts the staging path
  as a target. These two are exactly the calls that break agreement with the volume's own row, the mount even when it
  fails at its last `chmod` (`Agreements.AdmissibleIsExact`). `StageVolume` and `MountVolume` also accept a path
  another volume is mounted on (`FleetRuns.OperateIsExact`).
- A CSI node stage on a node that does not hold the volume succeeds by mounting it on the node that does
  (`CsiCalls.StageAttached`). A node unpublish whose client host is no longer known succeeds and leaves the path
  mounted and listed (`CsiCalls.UnmountSucceeds`).
- An update to capacity 0 sets the zvol to size 0 while the row keeps its capacity, exactly the case in which row and
  zvol come apart (`Refreshes.UpdateResizes`); an empty list of options is not stored (`Refreshes.UpdateStoresGiven`).
- Unstaging does not clear the stored staging path. A Sync of the unstaged volume unmounts whatever is on that path,
  be it another volume staged there since: `StaleStagings.StaleSyncBreaks` is such a run from the empty service, every
  step of which succeeds. `FleetRuns.FinishedSyncIsExact` says when a finished Sync harms no other volume: its row is
  staged or lacks a stored server, client or staging path, or every volume that counts on that path is bound there
  twice.
- So what `SyncVolumes` leaves depends on the order of the rows: synced before the volume that took over its path, the
  unstaged volume does no harm; synced after it, it takes the mount away (`VolumeSyncs.StaleFirst`, `StaleLast`).
- Sync of a connected volume succeeds exactly when the server host is REMOTE: it reads the remote address of a local
  connection (`SyncAgreements.SyncRepairs`). Sync of a published volume whose last client has no identifier for the
  current transport always fails: with an empty name it probes the ACL directory itself and then removes nothing
  (`Rebuilds.RebuildIsExact`, condition `SyncReady`).
- One `umount` takes one mount away, so Sync is idempotent exactly when no stale staging path had several mounts on it
  (`Reconciliations.SyncIdempotent`); successful calls lead there (`StaleStagings.StackingIsReachable`). The unmount
  loop of `syncMount` never finds anything to do for a row of the lifecycle
  (`Reconciliations.MountPhaseNeverUnmounts`).
- `isErrorID` finds "id" in the text of every InvalidArgument error, since the text starts with `invalid_argument`. So
  a CSI delete of a volume that is still published reports success (`CsiDrivers.DeleteSucceeds`).
- Volume IDs that differ only in letter case, or in `_` against `-`, share a target name (`Names.TargetNameCollision`).
- An expansion stores what was required exactly when that is a double, and less exactly when it rounds down: a request
  for 2^53 + 1 bytes succeeds with 2^53 (`Expansions.ExpandIsExact`, `ExpandFallsShort`, `ExpandCanFallShort`).
- `SyncHosts` drops the error of its reference count, which then reads zero. A successful host sync keeps every host
  that volumes need exactly when it could count the references to those it might sweep (`HostIntegrity.SyncIsExact`);
  otherwise it deletes a host in use and reports success (`MisreadCountOrphans`).

## Model

| member | source | states |
|---|---|---|
| Clusters.Cluster.Exec | lib/command/command.go:27-29 | one remote call either applies its effect and is logged, or fails and changes nothing |
| Volumes.IndexOf | app/internal/service/service_volume.go:139-146 | the first position of a value, or -1 exactly when it is absent |
| Volumes.PersistMerges | app/internal/service/service_volume.go:328-331 | a row written with no field given is the row, with every field given is the one given, and writing the same again changes nothing |
| Volumes.WithoutIsRemoval | app/internal/service/service_volume.go:1270-1284 | splicing a listed path out of a duplicate-free list removes that path and no other |
| Names.FindIdentifier | app/internal/database/host.go:89-105 | the search returns the first identifier with the prefix, or none when no identifier has it |
| Names.SanitizeIdempotent | app/internal/database/host.go:165-169 | sanitising twice is sanitising once |
| Names.SanitizedChars | app/internal/database/host.go:165-169 | sanitising lowers ASCII letters, turns underscores into dashes and leaves every other character |
| Names.TargetNameOwned | app/internal/database/host.go:107-123 | a target name ends, after its last colon, in the sanitised ID of its volume |
| Names.TargetNameCollision | app/internal/database/host.go:107-123 | two (host identifier, volume ID) pairs give the same target name exactly when both sanitised parts agree |
| Names.CleanSuffixesNeverCollide | app/internal/database/host.go:107-123 | distinct lower-case suffixes without underscores never share a target name, on any hosts |
| Names.UnderscoreAndDashCollide | app/internal/database/host.go:165-169 | two distinct valid volume IDs that do share one |
| Conversions.FromDBToAPI | app/internal/converter/impl/volume.go:73-112 | the loops copy the row into its API form, the transport cut to its type |
| Conversions.FromAPIToDB | app/internal/converter/impl/volume.go:15-58 | the loops copy the API form into a row, absent optionals read as zero values |
| Conversions.MissingIsZero | app/internal/converter/impl/volume.go:15-58 | a field the form leaves out is read as a zero value, which a write skips, except for transport and metadata |
| Conversions.RoundTripCutsPayload | app/internal/converter/iface/volume.go:78-109 | row to API and back is the identity but for the transport payload, and the identity exactly when there is none |
| Conversions.FormsShow | app/internal/converter/impl/volume.go:15-112 | one API form alone shows a row field for field, and reading it gives the row without its payload |
| Conversions.FloatsTruncate | app/internal/service/service_volume.go:63-72 | a number becomes the integer next to it towards zero, or the least int64 when none fits |
| Conversions.ParseOptions | app/internal/service/service_volume.go:73-99 | the option loop succeeds exactly when every element is an object, and yields all of them in order |
| Conversions.ApplyVolumeUpdate | app/internal/service/service_volume.go:37-107 | success and result do not depend on the order the map is visited in; only struct, capacity and options change |
| VolumeServices.VolumeService.CreateVolume | app/internal/service/service_volume.go:254-287 | adds an INITIAL row, refuses a taken ID and a capacity that is not positive |
| VolumeServices.VolumeService.UpdateVolume | app/internal/service/service_volume.go:289-424 | the merged row is kept even when a later command fails; table, world, log and answer as specified |
| VolumeServices.VolumeService.RunOptions | app/internal/service/service_volume.go:350-361 | one property set per option in order, stopping at the first failure |
| VolumeServices.VolumeService.DeleteVolume | app/internal/service/service_volume.go:426-480 | refuses a published volume; destroys the zvol when a server host is still stored; drops the row only on success |
| VolumeServices.VolumeService.PublishVolume | app/internal/service/service_volume.go:482-619 | ends in the table, world, log and answer of the publish plan, rolled back unless every command succeeded |
| VolumeServices.VolumeService.UnpublishVolume | app/internal/service/service_volume.go:621-698 | the same for unpublish |
| VolumeServices.VolumeService.ConnectVolume | app/internal/service/service_volume.go:700-847 | the same for connect: allow, then log in |
| VolumeServices.VolumeService.DisconnectVolume | app/internal/service/service_volume.go:849-978 | the same for disconnect: log out, then deny |
| VolumeServices.VolumeService.StageVolume | app/internal/service/service_volume.go:980-1107 | the same for stage |
| VolumeServices.RunStage | app/internal/service/service_volume.go:1034-1087 | find the device, format a filesystem volume only if it holds none, make the path, mount |
| VolumeServices.VolumeService.UnstageVolume | app/internal/service/service_volume.go:1109-1163 | the same for unstage |
| VolumeServices.VolumeService.MountVolume | app/internal/service/service_volume.go:1165-1257 | the same for mount |
| VolumeServices.VolumeService.UnmountVolume | app/internal/service/service_volume.go:1259-1317 | the same for unmount |
| Plans.PublishResult | app/internal/service/service_volume.go:558-602 | a finished publish exported the zvol under the target and created it if it was missing; three commands suffice |
| Plans.StageResult | app/internal/service/service_volume.go:1034-1087 | a finished stage mounted the device over the prepared zvol; it finishes whenever a zvol backs the device and no command fails |
| Plans.MountResult | app/internal/service/service_volume.go:1208-1237 | a finished mount bound the staging path at the target path and did nothing else to the world |
| Plans.PathsAreMade | app/internal/service/service_volume.go:1034-1237 | a path is made before anything is mounted on it, and opened to pods exactly in filesystem mode |
| Lifecycles.PlanMoves | app/internal/service/service_volume.go:482-1317 | from which statuses each call acts, and every field of the stored row it leaves |
| Lifecycles.CallMoves | app/internal/service/service_volume.go:482-1317 | the row has moved exactly when the call was effective; otherwise it is the old row |
| CallAnswers.CallsAnswer | app/internal/service/service_volume.go:482-1317 | a call answers with the row, at once and without a command, exactly when what it asks for is so already; it is refused as invalid exactly out of order, and as not found exactly when a host is missing, and then changes nothing |
| CallAnswers.AnswersWithRow | app/internal/service/service_volume.go:482-1317 | an effective call answers with the row it wrote, except that unpublish, disconnect and unstage answer without the host or path they released, which the row still names |
| CallAnswers.UnstageMissesHost | app/internal/service/service_volume.go:1109-1163 | an unstage whose client host is gone fails with an internal error |
| CallAnswers.DeleteRemoves | app/internal/service/service_volume.go:426-480 | a deletion takes the row and its zvol, or changes nothing; when it succeeds |
| Transports.ClientIDPresents | app/internal/database/host.go:89-105 | a host has an identifier for a transport exactly when it carries one with its prefix, and presents the first |
| Transports.LifecycleNamesLinks | app/internal/service/service_volume.go:109-133 | iSCSI targets and initiators are IQNs, NVMe-oF ones NQNs, each the first of its host |
| Transports.PublishStores | app/internal/service/service_volume.go:482-602 | a publish takes NVMe-oF if asked and iSCSI otherwise, and stores the server's endpoint, the target and the server's key |
| Transports.PublishFails | app/internal/service/service_volume.go:530-556 | with no command failing it ends in an internal error exactly when the server carries no identifier for it |
| Transports.ConnectStores | app/internal/service/service_volume.go:700-847 | a connect adds the client's identifier and key to the payload, and nothing else |
| Transports.ConnectFails | app/internal/service/service_volume.go:700-847 | with no command failing it ends in an internal error exactly when the client carries no identifier |
| Transports.DisconnectForgets | app/internal/service/service_volume.go:849-978 | a disconnect takes them out again |
| Lifecycles.CreateStartsLifecycle | app/internal/service/service_volume.go:254-287 | a new row satisfies the lifecycle invariant exactly when the request lists no target paths |
| Lifecycles.HandleKeepsLifecycle | app/internal/service/service_volume.go:482-1317 | every call, failing or not, keeps the lifecycle invariant |
| Lifecycles.UnmountNeverRaises | app/internal/service/service_volume.go:1259-1317 | unmount, which has no status guard, never raises the status and leaves the path unlisted |
| Lifecycles.AmendedFields | app/internal/service/service_volume.go:289-345 | an update changes no lifecycle field |
| Lifecycles.RunKeepsLifecycle | app/internal/service/service_volume.go:254-1317 | over every run including updates: status in range, hosts and paths set as the status demands, MOUNTED exactly when paths are listed, no path twice |
| Lifecycles.RunBalances | app/internal/service/service_volume.go:482-1317 | every step keeps the four balances between effective calls and the row |
| Lifecycles.ConservationFromCreation | app/internal/service/service_volume.go:254-1317 | from creation: publishes minus unpublishes, connects minus disconnects, stages minus unstages minus drops, mounts minus unmounts equal what the row shows |
| Lifecycles.UpdateCutsPayload | app/internal/service/service_volume.go:289-345 | an accepted update drops the transport payload |
| Refreshes.UpdateStoresGiven | app/internal/service/service_volume.go:37-107 | an accepted update stores the struct, capacity and options it names; zero and the empty list change nothing |
| Refreshes.UpdateKeepsRow | app/internal/service/service_volume.go:289-330 | the written row is kept whichever command then fails |
| Refreshes.UpdateRefreshes | app/internal/service/service_volume.go:334-424 | a successful update resizes the zvol, and its log sets size and options in order, then rescans and grows a connected filesystem |
| Refreshes.UpdateResizes | app/internal/service/service_volume.go:340-348 | afterwards the zvol is as large as the row says, exactly unless a capacity of zero was asked for |
| Refreshes.UpdateRefused | app/internal/service/service_volume.go:288-324 | an update is refused as not found, and as invalid, for exactly these reasons, and then changes nothing |
| Refreshes.UpdateSucceeds | app/internal/service/service_volume.go:334-424 | with no command failing it succeeds exactly when a connected volume's server has that role and a connected filesystem volume has a device, and panics exactly when that server has not that role |
| Lifecycles.CutPayloadIsStuck | app/internal/service/service_volume.go:849-978 | a connected row without its payload stays connected over every run |
| Lifecycles.TeardownPossible | app/internal/service/service_volume.go:849-978 | some run disconnects a connected volume exactly when its payload is still there |
| Links.HandleKeepsLinks | app/internal/service/service_volume.go:482-978 | every valid call, failing anywhere: target exported exactly while published and over its zvol, ACL entry while connected, session only while connected and only from the row's client |
| Agreements.AdmissibleIsExact | app/internal/service/service_volume.go:860-871 | a call, failing anywhere, keeps row and hosts in agreement (device mounted exactly while staged, every listed path bound) exactly when, once it gets that far, it neither disconnects a staged volume nor mounts over the staging path |
| Builds.CallHasEffect | app/internal/service/service_volume.go:482-1317 | an effective call leaves exactly the world `Effect` describes |
| Builds.CallBuilds | app/internal/service/service_volume.go:482-1317 | an effective call keeps the world equal to the base plus exactly what the row calls for, exactly when it is admissible |
| Fleets.LogLeaves | app/internal/service/service_volume.go:482-1317 | the commands of one volume leave the targets, ACLs, sessions and zvols of every other alone |
| Nestings.LinksLeft | app/internal/service/service_volume.go:482-1317 | so the links of another row in agreement stay in agreement |
| Nestings.FleetIsNested | app/internal/service/service_volume.go:782-829 | when the links of all rows agree: session implies ACL entry implies target implies zvol |
| Nestings.OperateNests | app/internal/service/service_volume.go:923-960 | after each single command of a call, on any path, the nesting holds |
| Nestings.ReconcileKeepsLinked | app/internal/service/sync.go:36-58 | a Sync, failing anywhere, keeps all links in agreement, and the nesting after each of its commands |
| Nestings.CreateIsExact | app/internal/service/service_volume.go:254-287 | a creation keeps all links in agreement exactly when it is refused or brings names of its own and no target paths |
| Nestings.RunIsNested | app/internal/service/service_volume.go:254-1317 | over every run of valid requests with new names of their own, the nesting holds after every single command |
| FleetRuns.UsesDisjoint | app/internal/service/service_volume.go:980-1257 | volumes in agreement never share a mount point |
| FleetRuns.OperateIsExact | app/internal/service/service_volume.go:980-1257 | a call on one volume, failing anywhere, keeps all rows in agreement exactly when, once it gets that far, it is admissible and mounts on no path another volume counts on |
| FleetRuns.ReconcileIsExact | app/internal/service/sync.go:510-520 | a Sync, failing anywhere, keeps all rows in agreement exactly when its unmount of a stale path, if it gets there, leaves every other volume its mounts |
| FleetRuns.FinishedSyncIsExact | app/internal/service/sync.go:510-520 | a finished Sync does exactly when its row is staged or lacks a stored server, client or staging path, or every volume that counts on that path is bound there twice |
| FleetRuns.CreateIsExactFor | app/internal/service/service_volume.go:254-287 | a creation does exactly when it is refused or brings names of its own and no target paths |
| FleetRuns.ChangeKeepsFleet | app/internal/service/service_volume.go:289-424 | an update always does |
| FleetRuns.DeleteKeepsFleet | app/internal/service/service_volume.go:426-480 | so does a deletion |
| FleetRuns.RunIsExact | app/internal/service/service_volume.go:254-1317 | over every run, whatever fails, all rows always agree with the hosts exactly when every step is one of those above |
| FleetRuns.RunsFromEmptyService | app/internal/service/service_volume.go:254-1317 | both run theorems from a service with no volume, on hosts with nothing exported, attached or mounted |
| StaleStagings.StackingIsReachable | app/internal/service/service_volume.go:849-978 | successful calls on one volume stack two mounts on a stale staging path; a Sync then succeeds and the next one still has something to unmount |
| StaleStagings.StaleSyncBreaks | app/internal/service/sync.go:510-520 | from the empty service: two volumes staged on one path in turn, all steps successful and kind; a Sync of the first then succeeds and unmounts the second |
| Syncers.VolumeSyncer.SyncZFS | app/internal/service/sync.go:76-114 | ends in the world, log and answer of the zvol phase |
| Syncers.VolumeSyncer.SyncPublish | app/internal/service/sync.go:116-219 | the same for the target phase |
| Syncers.VolumeSyncer.SyncConnect | app/internal/service/sync.go:221-423 | the same for the ACL and session phase, a local server host included |
| Syncers.VolumeSyncer.SyncStage | app/internal/service/sync.go:425-526 | the same for the staging phase |
| Syncers.VolumeSyncer.SyncMount | app/internal/service/sync.go:528-595 | the same for the mount loops |
| Syncers.VolumeSyncer.Sync | app/internal/service/sync.go:36-58 | the five phases in order, stopping at the first that fails |
| Syncers.VolumeSyncer.SyncVolumes | app/internal/service/service_volume.go:1459-1476 | every row in turn, each with failures of its own; failing rows are collected and do not stop the rest, a crash does |
| Reconciliations.MountDone | app/internal/service/sync.go:528-595 | the mount phase leaves every listed path mounted, keeps every other mount point, and changes nothing for an unmounted row |
| VolumeSyncs.MountPhaseHeights | app/internal/service/sync.go:528-595 | the mount phase of any row, also outside the lifecycle: mounts what is listed, and unmounts each path once when the row is not mounted |
| Reconciliations.MountPhaseNeverUnmounts | app/internal/service/sync.go:579-592 | the unmount loop never fires for a row of the lifecycle, in any world and whatever fails |
| Reconciliations.SyncClaims | app/internal/service/sync.go:36-595 | from any world, a successful Sync leaves everything the row's status claims in place |
| Reconciliations.SyncClearsStrays | app/internal/service/sync.go:190-391 | from any world, a successful Sync leaves no target of an unpublished row, and no session and no ACL entry of an unconnected one |
| Reconciliations.SyncSettles | app/internal/service/sync.go:36-595 | and leaves no phase anything to do, exactly unless a stale staging path had several mounts |
| Reconciliations.SettledIsQuiet | app/internal/service/sync.go:36-595 | in a settled world Sync issues queries only, whatever fails |
| Reconciliations.SyncIdempotent | app/internal/service/sync.go:425-526 | after a successful Sync the next issues no mutating command, exactly when no stale staging path had several mounts |
| VolumeSyncs.SyncHeights | app/internal/service/sync.go:425-595 | from any world, the number of mounts a successful Sync leaves on every mount point |
| VolumeSyncs.SyncLeaves | app/internal/service/sync.go:76-423 | in any world, a Sync leaves the targets, sessions and zvols of other volumes alone |
| VolumeSyncs.OneMoreRow | app/internal/service/service_volume.go:1459-1476 | a sweep over one row more is that row's own Sync after the sweep so far: a failing row is reported and does not stop it, a crash does |
| VolumeSyncs.SweepReports | app/internal/service/service_volume.go:1459-1476 | a sweep that does not crash reports exactly the rows whose own Sync, in the world it met, failed |
| VolumeSyncs.SweepSettlesLinks | app/internal/service/service_volume.go:1459-1476 | after it every row is reported, or its links are there as far as claimed and no further |
| VolumeSyncs.SweepIsExact | app/internal/service/service_volume.go:1459-1476 | after a successful sweep in any order and from any world, everything a row claims is in place exactly when no mount point it counts on was unmounted down to nothing |
| VolumeSyncs.SweepClaimsAll | app/internal/service/service_volume.go:1459-1476 | it is for every row when no unstaged row stores a staging path another counts on |
| VolumeSyncs.StaleFirst | app/internal/service/service_volume.go:1459-1476 | with the stale row synced before the one that uses its path, that one's claims hold |
| VolumeSyncs.StaleLast | app/internal/service/service_volume.go:1459-1476 | synced after it, they hold exactly when two mounts were on the path at first |
| SyncAgreements.SyncKeepsAgreement | app/internal/service/sync.go:36-595 | after every single command of a Sync row and hosts agree |
| SyncAgreements.SyncRepairs | app/internal/service/sync.go:221-423 | for a connected row in agreement, Sync succeeds exactly when the server host is remote, and then everything claimed is there |
| SyncAgreements.DisconnectHalfway | app/internal/service/service_volume.go:923-960 | a disconnect whose second command fails has dropped the session and kept the row |
| SyncAgreements.FailedDisconnectIsRepaired | app/internal/service/sync.go:221-423 | Sync brings that session back |
| Rebuilds.RebuildIsExact | app/internal/service/sync.go:76-595 | Sync over wiped hosts succeeds with exactly the world built for the row, exactly for rows it can act on and hosts with nothing mounted where it mounts |
| Rebuilds.RunBuilds | app/internal/service/service_volume.go:482-1317 | over every run of successful calls the world is always the base plus exactly what the row calls for, exactly when every effective call is admissible |
| Rebuilds.RebuildRefinesHandlers | app/internal/service/sync.go:76-595 | after such a run, wiping all targets, ACLs, sessions and mounts and syncing restores the same world, format counts included, exactly under the same condition |
| Filesystems.StageScriptKeeps | app/internal/service/service_volume.go:1047-1064 | staging never formats a zvol that holds a filesystem, in any world and wherever it stops |
| Filesystems.SyncKeeps | app/internal/service/sync.go:76-595 | nor does Sync |
| Filesystems.RunNeverReformats | app/internal/service/service_volume.go:254-1317 | over every run from any state, until its volume is deleted, a zvol is formatted at most once |
| CsiDrivers.CsiDriver.CreateVolume | csi/internal/service/service.go:185-275 | does what its task does alone: create, or accept a compatible volume of that ID |
| CsiDrivers.CsiDriver.DeleteVolume | csi/internal/service/service.go:277-295 | the same for delete |
| CsiDrivers.CsiDriver.ControllerPublishVolume | csi/internal/service/service.go:297-343 | the same for controller publish: get, publish, connect, check the client |
| CsiDrivers.CsiDriver.ControllerUnpublishVolume | csi/internal/service/service.go:345-390 | the same for controller unpublish |
| CsiDrivers.CsiDriver.ControllerExpandVolume | csi/internal/service/service.go:554-602 | the same for expand |
| CsiDrivers.CsiDriver.NodeStageVolume | csi/internal/service/service.go:671-715 | the same for node stage |
| CsiDrivers.CsiDriver.NodeUnstageVolume | csi/internal/service/service.go:717-754 | the same for node unstage |
| CsiDrivers.CsiDriver.NodePublishVolume | csi/internal/service/service.go:756-774 | the same for node publish |
| CsiDrivers.CsiDriver.NodeUnpublishVolume | csi/internal/service/service.go:776-797 | the same for node unpublish |
| CsiDrivers.CreateAlone | csi/internal/service/service.go:232-266 | which creations succeed, and the one row they add |
| CsiDrivers.CreateIsIdempotent | csi/internal/service/service.go:245-266 | creating again answers the same and changes nothing |
| CsiCalls.CreateMakes | csi/internal/service/service.go:185-266 | the row a create call makes, field by field; 1 GiB when no capacity is asked for |
| CsiCalls.GoneSetsUp | csi/internal/service/service.go:297-774 | of a missing volume, calls that set up answer not found and change nothing |
| CsiCalls.GoneTearsDown | csi/internal/service/service.go:277-797 | calls that tear down succeed and change nothing |
| CsiCalls.AttachAttached | csi/internal/service/service.go:324-342 | attaching an attached volume succeeds on its own node, is refused on any other, and changes nothing |
| CsiCalls.AttachCut | csi/internal/service/service.go:297-343 | attaching a published volume without its payload finds the backend down |
| CsiCalls.DetachElsewhere | csi/internal/service/service.go:364-371 | detaching from a node that does not hold the volume succeeds and changes nothing |
| CsiCalls.DetachEnds | csi/internal/service/service.go:373-390 | detaching an unpublished volume succeeds, a mounted one is refused, and nothing changes |
| CsiCalls.StageStaged | csi/internal/service/service.go:684-690 | staging a staged volume succeeds on its own path and is refused on any other |
| CsiCalls.StageAttached | csi/internal/service/service.go:692-715 | staging an attached volume is one backend call whichever node asks, and mounts on the node that holds it |
| CsiCalls.UnstageElsewhere | csi/internal/service/service.go:732-754 | unstaging on a node that does not hold the volume leaves its links alone and keeps it attached |
| CsiCalls.MountsAsListed | csi/internal/service/service.go:756-797 | unmounting an unlisted path and mounting a listed one succeed and change nothing |
| CsiCalls.UnmountSucceeds | csi/internal/service/service.go:776-797 | unmounting a listed path succeeds unless its command fails, also when the client host is gone and nothing is done |
| CsiCalls.MalformedIsGone | csi/internal/service/error.go:11-87 | a malformed ID is taken for a missing volume: calls that set up answer not found, calls that tear down succeed |
| CsiCalls.ExpandFails | csi/internal/service/service.go:554-603 | an expansion the service cannot finish answers with its code, or finds the backend down, and keeps what the update wrote |
| CsiCalls.ExpandEnough | csi/internal/service/service.go:570-578 | a volume that is large enough is reported as it is |
| CsiDrivers.DeleteSucceeds | csi/internal/service/error.go:13-15 | a delete reports success and leaves the volume in place exactly when it is published or its server host is gone |
| RoundTrips.AttachGoes | csi/internal/service/service.go:297-343 | without failures controller publish takes a new volume to CONNECTED on that node, over the same base world |
| RoundTrips.NodeStageGoes | csi/internal/service/service.go:671-715 | node stage connects a volume that was logged out, and mounts the device |
| RoundTrips.NodeUnstageGoes | csi/internal/service/service.go:717-754 | node unstage unmounts the device, if mounted, and logs the node out |
| RoundTrips.DetachGoes | csi/internal/service/service.go:345-390 | controller unpublish on the volume's node logs it out, if attached, and takes the target away |
| RoundTrips.DownIsBase | app/internal/service/service_volume.go:448-459 | with the zvol destroyed the world is the base world again |
| RoundTrips.BringUpGoes | csi/internal/service/service.go:297-774 | bring-up with any number of mounts ends staged with exactly those paths |
| RoundTrips.TakeDownGoes | csi/internal/service/service.go:277-797 | take-down with the mounts undone in any order removes the row and restores the base world |
| RoundTrips.RoundTripLeavesNoTrace | csi/internal/service/service.go:185-797 | create, bring up on n paths, take down in any order, delete: table and world end as they began |
| Attachments.HandleKeepsHold | app/internal/service/service_volume.go:482-1317 | nothing but an effective disconnect takes a connected volume from its client host |
| Attachments.SuccessHolds | csi/internal/service/service.go:324-342 | a controller publish succeeds only with the volume connected to its own node |
| Attachments.SingleAttachment | csi/internal/service/service.go:297-343 | over all interleavings of CSI calls: two nodes succeed only with an effective disconnect between their connects |
| Capacities.NearestIsExact | csi/internal/service/service.go:580-588 | integers up to 2^53 pass through a double unchanged |
| Capacities.NearestIsDouble | csi/internal/service/service.go:580-588 | the rounded value is a double |
| Capacities.NearestIsNearest | csi/internal/service/service.go:580-588 | no double is nearer |
| Capacities.TiesGoToEven | csi/internal/service/service.go:580-588 | ties go to the even significand (section 4.3.1 of IEEE 754) |
| Capacities.NearestWithinHalf | csi/internal/service/service.go:580-588 | the error is at most half a unit in the last place |
| Capacities.NearestFixesDoubles | csi/internal/service/service.go:580-588 | rounding leaves exactly the doubles unchanged |
| Capacities.NearestFallsShort | csi/internal/service/service.go:580-588 | when it makes a number smaller and when larger, by the remainder at its magnitude |
| Expansions.GivenCapacity | app/internal/service/service_volume.go:63-72 | the service reads back the double as an int64, if it fits |
| Expansions.ExpandStores | csi/internal/service/service.go:554-602 | a successful expansion stores and reports the larger of old and rounded required, and changes no other row |
| Expansions.ExpandIsExact | csi/internal/service/service.go:554-602 | the stored capacity is the larger of old and required exactly when the old one is, or the required one is a double |
| Expansions.ExpandFallsShort | csi/internal/service/service.go:554-602 | it is less than required exactly when the old one was and the required one rounds down |
| Expansions.ExpandIsClose | csi/internal/service/service.go:554-602 | it is within half a unit in the last place of the required one |
| Expansions.ExpandResizes | csi/internal/service/service.go:554-602 | after a successful expansion of a hosted volume its zvol is as large as its row says; without one the world is as it was |
| Expansions.ExpandCanFallShort | csi/internal/service/service.go:554-602 | a request for 2^53 + 1 bytes on a volume not yet hosted is answered with, and stores, 2^53 |
| Expansions.ExpandStrandsAttached | csi/internal/service/service.go:554-602 | an attached volume that was expanded stays attached over every later run |
| HostSyncs.HostRegistry.SyncHosts | app/main_app.go:39-126 | on success the table is the merged one without the hosts whose count reads zero, failed counts included; on a failed write it is a merge prefix, or merged and partly swept; with enough writes it succeeds |
| HostSyncs.HostRegistry.SweepStale | app/main_app.go:100-123 | only unlisted by-config hosts whose count reads zero are deleted, and on success all of them |
| HostSyncs.HostRegistry.DeleteHost | app/internal/service/service_host.go:270-302 | deletes the host unless a volume names it; a failed count or delete is reported and changes nothing |
| HostSyncs.MergedFields | app/main_app.go:84-94 | a listed host takes role and connection from its last entry, key and identifiers from the last entry that gives them |
| HostSyncs.SyncLeavesConfigured | app/main_app.go:39-126 | by-config hosts are exactly the configured ones and those a count shows to be named; other hosts are untouched |
| HostSyncs.SyncIsIdempotent | app/main_app.go:39-126 | a second sync changes nothing, even with duplicate IDs, exactly when it can count the references to every host kept for them alone |
| HostIntegrity.SyncKeepsReferenced | app/main_app.go:107-117 | however a sync ends, hosts named by volumes are still there unless their count failed |
| HostIntegrity.SyncIsExact | app/main_app.go:107-117 | a successful sync keeps every host that published and connected volumes need exactly when no count of a by-config, unlisted one of them failed |
| HostIntegrity.MisreadCountOrphans | app/main_app.go:110-117 | from the empty service: a run of successful steps and one failed count deletes the host a published volume names |
| HostIntegrity.RunKeepsIntegrity | app/internal/service/service_host.go:287-294 | with syncs that read those counts, deletions, creations and volume calls in any order, no published volume names a missing host |
| PageTokens.ReadShown | app/internal/service/lib.go:17-41 | an int64 printed in decimal is read back, and what follows it is left |
| PageTokens.ShownTokens | app/internal/service/lib.go:12-31 | the JSON a token stands for, with the keys limit and offset |
| PageTokens.GroupBits | app/internal/service/lib.go:17-31 | the four sextets of a group are its 24 bits, from the highest (section 4 of RFC 4648) |
| PageTokens.LettersAreUrlSafe | app/internal/service/lib.go:17-41 | the letters are the URL-safe alphabet and each stands for one sextet (section 5 of RFC 4648) |
| PageTokens.EncodedLength | app/internal/service/lib.go:17-31 | three bytes, or what is left of fewer, take four letters |
| PageTokens.StandardExamples | app/internal/service/lib.go:17-31 | the examples of section 10 of RFC 4648 |
| PageTokens.DecodeUndoesEncode | app/internal/service/lib.go:17-41 | padded base64url decoding undoes encoding for every byte sequence (section 5 of RFC 4648) |
| PageTokens.UnmarshalUndoesMarshal | app/internal/service/lib.go:17-41 | a page token is read back for every pair of int64 values, and is never empty |
| Paging.Clamped | app/internal/service/service_volume.go:194-200 | page sizes end between 1 and 100, and sizes in that range stay |
| Paging.PageSizes | app/internal/service/service_volume.go:194-200 | a page size that is not positive asks for 25 rows, one above 100 for 100 |
| Paging.TokenDecides | app/internal/service/service_volume.go:202-246 | a token decides where its page starts and how many rows it holds, whatever size the call asks for; a next token comes exactly with a full page |
| Paging.List | app/internal/service/service_volume.go:190-252 | one list call answers as specified |
| Paging.WalkFrom | app/internal/service/service_volume.go:202-246 | from any page on, the pages still to come are the rest of the table |
| Paging.PagesAreTheTable | app/internal/service/service_volume.go:190-252 | for every page size, following tokens ends after exactly N / size + 1 calls and yields the table without gap or repeat |
| UndoStacks.UndoStack.Push | lib/try/try.go:17-19 | adds to the top of the stack |
| UndoStacks.UndoStack.Undo | lib/try/try.go:22-30 | the loop unwinds the whole stack and collects one error per failing undo |
| UndoStacks.Do | lib/try/try.go:34-47 | runs steps until one fails, then unwinds; the original error first |
| UndoStacks.UnwindInTwo | lib/try/try.go:22-30 | undos pushed later run first, and errors come in running order |
| UndoStacks.EachRunsOnceInReverse | lib/try/try.go:22-30 | whatever the undos do, each runs exactly once, in reverse order of pushing, and each that fails is reported, in running order |
| UndoStacks.DoReports | lib/try/try.go:34-47 | a failing routine undoes every step it had done; its own error comes first, then one for each failing undo |
| UndoStacks.DoRestores | lib/try/try.go:34-47 | a routine of reversible steps that fails anywhere leaves the state it started from |

## Left out

- Shell text, targetcli and nvmetcli templates, SSH and local executors: each command package call is its abstract effect or probe; directories and file modes are not part of the world.
- Codes of errors inside a transaction: a failing command answers as an internal error, whichever code the source wraps it in.
- Database failures in volume handlers, and two handlers on one volume at once: a handler is one step against other handlers, since the row is read outside the transaction.
- HostSyncs.HostRegistry.SyncHosts: is one step against other requests, although the source counts references and deletes in separate statements; the error text and log lines are not modelled.
- HostSyncs.HostRegistry.DeleteHost: is one step as well, for the same reason.
- Portal addresses, endpoint passwords on the wire and the address Sync uses instead of the role endpoint.
- FleetRuns.RunIsExact: treats NVMe-oF ACLs like iSCSI ones, nested under their target; removing the client's shared host entry is not modelled.
- Syncers.VolumeSyncer.SyncConnect: takes probes as exact, although the session probe looks for a substring.
- HostIntegrity.RunKeepsIntegrity: is exact for successful syncs only; a sync that fails midway may stop before the host whose count failed.
- Syncers.VolumeSyncer.SyncVolumes: takes the rows in the order given, since the source asks the database for none, and collects IDs instead of messages.
- Conversions.FromDBToAPI: leaves out create and update times, which the row does not have here.
- Conversions.FromAPIToDB: leaves them out as well.
- Conversions.RoundTripCutsPayload: says nothing of these times.
- VolumeServices.VolumeService.DeleteVolume: answers a busy dataset as any failed destroy, with an internal error; the source has a code of its own for it.
- Encryption hooks, AES-GCM, Argon2, TLS, generated code, wiring, logging and configuration loading.
- Waiting for devices, retries and clocks; `StatsVolume`, `GetCapacity` and volume statistics.
- Refreshes.UpdateResizes: is about a zvol that is there; setting the size of a missing one is taken to do nothing, where the command fails.
- Creation times: listing order is the order of the given table.
- PageTokens.Unmarshal: reads the one JSON spelling the service writes; other spellings of the same object, and trailing data, are not modelled.
- Paging.List: is one list call; tokens the service did not issue may loop, as a limit of 0 does.
- Names.Sanitize: lower-cases ASCII letters only.
- Conversions.ApplyVolumeUpdate: takes a number out of int64 range to the least int64, as amd64 does; other platforms differ.
- UndoStacks.Do: takes the routine as a list of steps that each push one undo after succeeding.
- Host conversions between API and row, and UpdateHost, which changes neither names nor references.
