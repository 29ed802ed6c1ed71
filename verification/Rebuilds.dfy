/**
 * Rebuilding: a Sync on hosts that lost every target, ACL, session and mount of a
 * volume, but kept its zvol, leaves exactly the world its handlers had built.
 */
module Rebuilds {
  import opened Names
  import opened Volumes
  import opened Clusters
  import opened Plans
  import opened Lifecycles
  import opened Agreements
  import opened Syncers
  import opened Reconciliations
  import opened Builds
  import opened VolumeSyncs

  /** The hosts as they were before the volume, but with today's zvols and filesystems. */
  function Wiped(b: World, w: World): World {
    w.(targets := b.targets, sessions := b.sessions, mounts := b.mounts)
  }

  /** Nothing is mounted where Sync mounts for the row, or unmounts a stale path. */
  ghost predicate Clear(v: Volume, b: World) {
    && (v.IsStaged() || UmountsStale(v) ==> !IsMountPoint(b, v.clientHost, v.stagingPath))
    && (forall p :: p in v.targetPaths ==> !IsMountPoint(b, v.clientHost, p))
  }

  /**
   * A row Sync can act on: once a client was named the server must be remote, and a
   * client still named by a published but unconnected row must have an identifier.
   */
  ghost predicate SyncReady(hosts: Hosts, v: Volume) {
    v.clientHost != "" ==>
      && v.serverHost in hosts && hosts[v.serverHost].connection.Remote?
      && (v.status == PUBLISHED ==> InitiatorOf(hosts, v) != "")
  }

  /** The hosts the row names are known. */
  ghost predicate Known(hosts: Hosts, v: Volume) {
    && (v.serverHost != "" ==> Lookup(hosts, v.serverHost).Some?)
    && (v.clientHost != "" ==> v.serverHost != "" && Lookup(hosts, v.clientHost).Some?)
  }

  // The worlds after each phase.

  function Exporting(hosts: Hosts, v: Volume, w: World): World {
    if v.IsPublished() then Apply(Export(v.serverHost, TargetOf(hosts, v), v.datasetID), w) else w
  }

  function Linking(hosts: Hosts, v: Volume, w: World): World {
    if v.IsConnected()
    then Apply(Login(v.clientHost, v.serverHost, TargetOf(hosts, v), InitiatorOf(hosts, v)),
               Apply(Allow(v.serverHost, TargetOf(hosts, v), InitiatorOf(hosts, v)), w))
    else w
  }

  function Staging(hosts: Hosts, v: Volume, w: World): World {
    if v.IsStaged() then Apply(MountDevice(v.clientHost, TargetOf(hosts, v), v.stagingPath), w) else w
  }

  lemma ZfsRebuilds(hosts: Hosts, v: Volume, w: World, budget: nat)
    requires Rooted(hosts, v, w) && budget >= 1
    ensures var p := Perform(ZfsPhase(hosts, v, w), w, budget);
      p.reply == Done && p.run.world == w && p.run.left + 1 >= budget
  {
    var query := QueryZvol(v.serverHost, v.datasetID);
    ExecuteEmpty(w, budget);
    ExecuteOne(query, w, budget);
    assert [query] + [] == [query];
    hide Execute;
  }

  lemma PublishRebuilds(hosts: Hosts, v: Volume, w: World, budget: nat)
    requires Lifecycle(hosts, v) && NothingOf(v.id, w) && Known(hosts, v) && budget >= 1
    ensures var p := Perform(PublishPhase(hosts, v, w), w, budget);
      p.reply == Done && p.run.world == Exporting(hosts, v, w) && p.run.left + 1 >= budget
  {
    ExecuteEmpty(w, budget);
    ExecuteOne(Export(v.serverHost, TargetOf(hosts, v), v.datasetID), w, budget);
    if v.IsPublished() {
      OwnKeysAreNew(hosts, v, w);
    } else if v.serverHost != "" {
      UnpublishedHasNoTarget(hosts, v, w);
    }
    hide Execute, NothingOf, Apply, Owns;
  }

  /** Whatever target name an unpublished row would have, nothing by that name is exported. */
  lemma UnpublishedHasNoTarget(hosts: Hosts, v: Volume, w: World)
    requires ColonFree(v.id) && NothingOf(v.id, w)
    requires v.serverHost != "" && Lookup(hosts, v.serverHost).Some?
    ensures TargetOf(hosts, v) != "" ==>
      At(v.serverHost, TargetOf(hosts, v)) !in w.targets && At(v.clientHost, TargetOf(hosts, v)) !in w.sessions
  {
    var server := hosts[v.serverHost];
    if TargetID(server, v.transport.kind, v.id).Some? {
      TargetNameOwned(ClientID(server, v.transport.kind).value, v.id);
    }
    hide Owns;
  }

  lemma ConnectedRebuilds(hosts: Hosts, v: Volume, w: World, budget: nat)
    requires Lifecycle(hosts, v) && NothingOf(v.id, w) && v.IsConnected() && budget >= 2
    ensures var w1 := Exporting(hosts, v, w);
      var p := Perform(ConnectPhase(hosts, v, w1), w1, budget);
      && (p.reply == Done <==> hosts[v.serverHost].connection.Remote?)
      && (p.reply == Done ==> p.run.world == Linking(hosts, v, w1) && p.run.left + 2 >= budget)
  {
    var w1, target, initiator := Exporting(hosts, v, w), TargetOf(hosts, v), InitiatorOf(hosts, v);
    var allow, login := Allow(v.serverHost, target, initiator), Login(v.clientHost, v.serverHost, target, initiator);
    InitiatorNotEmpty(hosts, v);
    TargetNotEmpty(hosts, v);
    OwnKeysAreNew(hosts, v, w);
    assert !CheckAuthorized(v, w1, target, initiator) && !CheckConnected(v, w1, target);
    ExecuteTwo(allow, login, w1, budget);
    hide Execute, NothingOf, Exporting, Apply;
  }

  lemma PublishedStaysUnlinked(hosts: Hosts, v: Volume, w: World, budget: nat)
    requires Lifecycle(hosts, v) && NothingOf(v.id, w) && Known(hosts, v) && v.status == PUBLISHED && budget >= 1
    requires v.clientHost != "" && hosts[v.serverHost].connection.Remote?
    ensures var w1 := Exporting(hosts, v, w);
      var p := Perform(ConnectPhase(hosts, v, w1), w1, budget);
      && (p.reply == Done <==> InitiatorOf(hosts, v) != "")
      && (p.reply == Done ==> p.run.world == w1 && p.run.left == budget)
  {
    var w1, target, initiator := Exporting(hosts, v, w), TargetOf(hosts, v), InitiatorOf(hosts, v);
    TargetNotEmpty(hosts, v);
    OwnKeysAreNew(hosts, v, w);
    assert !CheckConnected(v, w1, target) && (CheckAuthorized(v, w1, target, initiator) <==> initiator == "");
    ExecuteEmpty(w1, budget);
    ExecuteOne(Deny(v.serverHost, target, initiator), w1, budget);
    hide Execute, NothingOf, Exporting, Apply, CheckAuthorized, CheckConnected;
    assert [] + [Deny(v.serverHost, target, initiator)] == [Deny(v.serverHost, target, initiator)];
  }

  lemma InitialStaysUnlinked(hosts: Hosts, v: Volume, w: World, budget: nat)
    requires Lifecycle(hosts, v) && NothingOf(v.id, w) && Known(hosts, v) && !v.IsPublished()
    requires v.clientHost != "" && hosts[v.serverHost].connection.Remote?
    ensures Perform(ConnectPhase(hosts, v, w), w, budget) == Progress(Run(w, budget, [], true), Done)
  {
    var target, initiator := TargetOf(hosts, v), InitiatorOf(hosts, v);
    UnpublishedHasNoTarget(hosts, v, w);
    assert !CheckConnected(v, w, target) && !CheckAuthorized(v, w, target, initiator);
    ExecuteEmpty(w, budget);
    hide Execute, NothingOf, CheckAuthorized, CheckConnected;
    assert ConnectPhase(hosts, v, w).script == [];
  }

  lemma ConnectRebuilds(hosts: Hosts, v: Volume, w: World, budget: nat)
    requires Lifecycle(hosts, v) && NothingOf(v.id, w) && Known(hosts, v) && budget >= 2
    ensures var w1 := Exporting(hosts, v, w);
      var p := Perform(ConnectPhase(hosts, v, w1), w1, budget);
      && (p.reply == Done <==> SyncReady(hosts, v))
      && (p.reply == Done ==> p.run.world == Linking(hosts, v, w1) && p.run.left + 2 >= budget)
  {
    var w1 := Exporting(hosts, v, w);
    ExecuteEmpty(w1, budget);
    if v.clientHost != "" {
      if v.IsConnected() {
        ConnectedRebuilds(hosts, v, w, budget);
      } else if hosts[v.serverHost].connection.Local? {
        assert ConnectPhase(hosts, v, w1) == Stop(Crashed);
      } else if v.IsPublished() {
        PublishedStaysUnlinked(hosts, v, w, budget);
      } else {
        InitialStaysUnlinked(hosts, v, w, budget);
      }
    } else {
      assert ConnectPhase(hosts, v, w1) == Go([]) && !v.IsConnected();
    }
    hide Execute, NothingOf, ConnectPhase, Apply, Lifecycle, InitiatorOf, TargetOf;
  }

  lemma StageRebuilds(hosts: Hosts, v: Volume, w: World, budget: nat)
    requires Lifecycle(hosts, v) && NothingOf(v.id, w) && Known(hosts, v) && SyncReady(hosts, v) && budget >= 5
    requires Clear(v, w) && FilesystemAgrees(v, w)
    ensures var w2 := Linking(hosts, v, Exporting(hosts, v, w));
      var p := Perform(StagePhase(hosts, v, w2), w2, budget);
      p.reply == Done && p.run.world == Staging(hosts, v, w2) && p.run.left + 5 >= budget
  {
    var w2, target := Linking(hosts, v, Exporting(hosts, v, w)), TargetOf(hosts, v);
    LinkedFields(hosts, v, w);
    ExecuteEmpty(w2, budget);
    if v.IsStaged() {
      StageResult(v, w2, target, budget);
      StageLeft(v, w2, target, budget);
      FormattedFields(v, w2, target);
      StagePhaseStages(hosts, v, w2);
    } else {
      StagePhaseIdles(hosts, v, w2);
    }
    hide Execute, NothingOf, StagePhase, Apply, Lifecycle, InitiatorOf, TargetOf, Lookup, Linking, Exporting, Formatted,
      Backing, HasFilesystem, Clear, StageScript;
  }

  lemma LinkedFields(hosts: Hosts, v: Volume, w: World)
    requires Lifecycle(hosts, v) && FilesystemAgrees(v, w)
    ensures var w2, target := Linking(hosts, v, Exporting(hosts, v, w)), TargetOf(hosts, v);
      && w2 == w.(targets := w2.targets, sessions := w2.sessions)
      && (v.IsConnected() ==> Backing(w2, v.clientHost, target).Some?)
      && (v.IsStaged() && v.mode == Filesystem ==> HasFilesystem(w2, v.clientHost, target))
  {
    hide Lifecycle, TargetOf, InitiatorOf;
  }

  lemma StagePhaseStages(hosts: Hosts, v: Volume, w: World)
    requires Lifecycle(hosts, v) && v.IsStaged() && SyncReady(hosts, v)
    requires !IsMountPoint(w, v.clientHost, v.stagingPath)
    ensures StagePhase(hosts, v, w) == Go(StageScript(v, w, TargetOf(hosts, v)))
  {
    hide StageScript, InitiatorOf;
  }

  lemma StagePhaseIdles(hosts: Hosts, v: Volume, w: World)
    requires !v.IsStaged() && Known(hosts, v) && Clear(v, w)
    ensures StagePhase(hosts, v, w) == Go([])
  {
  }

  lemma StageLeft(v: Volume, w: World, target: string, budget: nat)
    ensures Execute(StageScript(v, w, target), w, budget).left + 5 >= budget
  {
    ExecuteIsPrefix(StageScript(v, w, target), w, budget);
  }

  lemma MountOneBinds(v: Volume, path: string, w: World, budget: nat)
    requires NoEmptyStacks(w.mounts) && budget >= 3 && !IsMountPoint(w, v.clientHost, path)
    ensures var r := Execute(MountScript(v, path), w, budget);
      && r.ok && r.left + 3 >= budget
      && r.world == w.(mounts := r.world.mounts) && NoEmptyStacks(r.world.mounts)
    ensures var mounts := Execute(MountScript(v, path), w, budget).world.mounts;
      forall h, p :: MountsAt(mounts, h, p)
                  == if h == v.clientHost && p == path then [Bind(v.stagingPath)] else MountsAt(w.mounts, h, p)
  {
    MountResult(v, w, path, budget);
    PushedChanges(w.mounts, v.clientHost, path, Bind(v.stagingPath));
    PushedKeepsStacks(w.mounts, v.clientHost, path, Bind(v.stagingPath));
    hide Execute, MountScript, Pushed, MountsAt, NoEmptyStacks;
  }

  /** Mounting every listed path, where nothing is mounted, binds each once. */
  lemma {:induction false} MountAllBinds(v: Volume, paths: seq<string>, w: World, budget: nat)
    requires NoDuplicates(paths) && NoEmptyStacks(w.mounts) && budget >= 3 * |paths|
    requires forall p :: p in paths ==> !IsMountPoint(w, v.clientHost, p)
    ensures var p := MountAll(v, paths, w, budget);
      p.reply == Done && p.run.world == w.(mounts := p.run.world.mounts) && NoEmptyStacks(p.run.world.mounts)
    ensures var mounts := MountAll(v, paths, w, budget).run.world.mounts;
      forall h, p :: MountsAt(mounts, h, p)
                  == if h == v.clientHost && p in paths then [Bind(v.stagingPath)] else MountsAt(w.mounts, h, p)
    decreases |paths|
  {
    hide Execute, MountScript, MountsAt, NoEmptyStacks, NoDuplicates;
    if paths != [] {
      TailAvoidsHead(paths);
      MountOneBinds(v, paths[0], w, budget);
      var first := Execute(MountScript(v, paths[0]), w, budget);
      MountAllBinds(v, paths[1..], first.world, first.left);
    }
  }

  lemma MountRebuilds(hosts: Hosts, v: Volume, w: World, w3: World, budget: nat)
    requires Lifecycle(hosts, v) && Known(hosts, v) && Clear(v, w) && v.stagingPath !in v.targetPaths
    requires NoEmptyStacks(w.mounts)
    requires w3.mounts == Staging(hosts, v, w).mounts && budget >= 3 * |v.targetPaths|
    ensures var p := MountPhase(hosts, v, w3, budget);
      && p.reply == Done && p.run.world == w3.(mounts := p.run.world.mounts)
      && BuiltMounts(hosts, v, w.mounts, p.run.world.mounts)
  {
    assert NoDuplicates(v.targetPaths);
    hide Lifecycle, MountAll, UnmountAll, Staging, TargetOf, NoEmptyStacks, Clear, MountsAt, BuiltMounts,
      NoDuplicates, IsMountPoint;
    StagedOwns(hosts, v, w, w3);
    if v.clientHost != "" && v.stagingPath != "" {
      MountAllBinds(v, v.targetPaths, w3, budget);
    }
    BoundIsBuilt(hosts, v, w.mounts, w3.mounts, MountPhase(hosts, v, w3, budget).run.world.mounts);
  }

  lemma BoundIsBuilt(hosts: Hosts, v: Volume, base: MountTable, staged: MountTable, mounts: MountTable)
    requires NoEmptyStacks(mounts) && v.stagingPath !in v.targetPaths
    requires forall p :: p in v.targetPaths ==> MountsAt(base, v.clientHost, p) == []
    requires forall h, p ::
      var device := if v.IsStaged() && h == v.clientHost
        && p == v.stagingPath then [Device(TargetOf(hosts, v))] else [];
      MountsAt(staged, h, p) == MountsAt(base, h, p) + device
    requires forall h, p ::
      MountsAt(mounts, h, p)
      == if h == v.clientHost && p in v.targetPaths then [Bind(v.stagingPath)] else MountsAt(staged, h, p)
    ensures BuiltMounts(hosts, v, base, mounts)
  {
    hide TargetOf, MountsAt, NoEmptyStacks;
    forall h, p ensures MountsAt(mounts, h, p) == MountsAt(base, h, p) + OwnMounts(hosts, v, h, p) {
      assert MountsAt(staged, h, p) + [] == MountsAt(staged, h, p);
    }
  }

  /** After staging, the row's device is mounted and its target paths are still free. */
  lemma StagedOwns(hosts: Hosts, v: Volume, w: World, w3: World)
    requires Lifecycle(hosts, v) && Known(hosts, v) && Clear(v, w) && v.stagingPath !in v.targetPaths
    requires NoEmptyStacks(w.mounts)
    requires w3.mounts == Staging(hosts, v, w).mounts
    ensures NoEmptyStacks(w3.mounts) && (v.IsMounted() || v.targetPaths == [])
    ensures v.targetPaths != [] ==> v.clientHost != "" && v.stagingPath != ""
    ensures forall p :: p in v.targetPaths ==> !IsMountPoint(w3, v.clientHost, p)
    ensures forall p :: p in v.targetPaths ==> MountsAt(w.mounts, v.clientHost, p) == []
    ensures forall h, p ::
      var device := if v.IsStaged() && h == v.clientHost
        && p == v.stagingPath then [Device(TargetOf(hosts, v))] else [];
      MountsAt(w3.mounts, h, p) == MountsAt(w.mounts, h, p) + device
  {
    PushedChanges(w.mounts, v.clientHost, v.stagingPath, Device(TargetOf(hosts, v)));
    PushedKeepsStacks(w.mounts, v.clientHost, v.stagingPath, Device(TargetOf(hosts, v)));
    hide TargetOf, MountsAt, Pushed, NoEmptyStacks, Exported, Attached, PayloadNamesTarget;
    forall stack: seq<Source> ensures stack + [] == stack {
    }
  }

  lemma WipedFields(hosts: Hosts, v: Volume, b: World, w: World)
    requires BuiltOn(hosts, v, b, w)
    ensures var w0 := Wiped(b, w);
      && NothingOf(v.id, w0) && Rooted(hosts, v, w0) && Known(hosts, v) && (Clear(v, b) ==> Clear(v, w0))
      && FilesystemAgrees(v, w0) && v.stagingPath !in v.targetPaths && w0.mounts == b.mounts
  {
    hide Owns, BuiltTargets, BuiltSessions, BuiltMounts, Lookup, MountsAt;
  }

  lemma StagedMounts(hosts: Hosts, v: Volume, w: World)
    ensures Staging(hosts, v, Linking(hosts, v, Exporting(hosts, v, w))).mounts == Staging(hosts, v, w).mounts
  {
    RestoredFields(hosts, v, w);
    hide TargetOf, Pushed, Linking, Exporting;
  }

  /** The phases change the targets, the sessions and the mounts, one after the other. */
  lemma RestoredFields(hosts: Hosts, v: Volume, w: World)
    ensures var w1 := Exporting(hosts, v, w);
      var w2 := Linking(hosts, v, w1);
      w1 == w.(targets := w1.targets) && w2 == w.(targets := w2.targets, sessions := w2.sessions)
  {
    hide TargetOf, InitiatorOf;
  }

  lemma Overwritten(targets: map<At, Target>, key: At, dataset: string, initiator: string)
    ensures var exported := targets[key := Target(dataset, {})];
      exported[key := exported[key].(acl := exported[key].acl + {initiator})]
        == targets[key := Target(dataset, {initiator})]
  {
    assert {} + {initiator} == {initiator};
  }

  lemma RestoredLinks(hosts: Hosts, v: Volume, w: World)
    ensures var w2 := Linking(hosts, v, Exporting(hosts, v, w));
      w2.targets == BuiltTargets(hosts, v, w.targets) && w2.sessions == BuiltSessions(hosts, v, w.sessions)
  {
    hide TargetOf, InitiatorOf;
    if v.IsConnected() {
      Overwritten(w.targets, At(v.serverHost, TargetOf(hosts, v)), v.datasetID, InitiatorOf(hosts, v));
    }
  }

  /** What the phases leave of the wiped hosts is the world they were wiped from. */
  lemma RestoredIsBuilt(hosts: Hosts, v: Volume, b: World, w: World, restored: World)
    requires Lifecycle(hosts, v) && BuiltOn(hosts, v, b, w)
    requires restored ==
      Staging(hosts, v, Linking(hosts, v, Exporting(hosts, v, Wiped(b, w)))).(mounts := restored.mounts)
    requires BuiltMounts(hosts, v, b.mounts, restored.mounts)
    ensures restored == w
  {
    RestoredFields(hosts, v, Wiped(b, w));
    RestoredLinks(hosts, v, Wiped(b, w));
    hide TargetOf, InitiatorOf, Pushed, MountsAt, NoEmptyStacks, Lifecycle, OwnMounts, NothingOf, Rooted,
      Linking, Exporting, BuiltTargets, BuiltSessions;
    MountsExtensional(restored.mounts, w.mounts);
  }

  lemma ClearRebuilds(hosts: Hosts, v: Volume, b: World, w: World, budget: nat)
    requires Lifecycle(hosts, v) && BuiltOn(hosts, v, b, w) && NoEmptyStacks(b.mounts)
    requires budget >= 9 + 3 * |v.targetPaths|
    ensures var p := Sync(hosts, v, Wiped(b, w), budget);
      && (p.reply == Done ==> SyncReady(hosts, v))
      && (SyncReady(hosts, v) && Clear(v, b) ==> p.reply == Done && p.run.world == w)
  {
    hide *;
    var w0 := Wiped(b, w);
    var zfs := Perform(ZfsPhase(hosts, v, w0), w0, budget);
    var publish := Perform(PublishPhase(hosts, v, w0), w0, zfs.run.left);
    var w1 := Exporting(hosts, v, w0);
    var connect := Perform(ConnectPhase(hosts, v, w1), w1, publish.run.left);
    var w2 := Linking(hosts, v, w1);
    var stage := Perform(StagePhase(hosts, v, w2), w2, connect.run.left);
    var w3 := Staging(hosts, v, w2);
    WipedFields(hosts, v, b, w);
    SyncPhases(hosts, v, w0, budget);
    ZfsRebuilds(hosts, v, w0, budget);
    PublishRebuilds(hosts, v, w0, zfs.run.left);
    ConnectRebuilds(hosts, v, w0, publish.run.left);
    if SyncReady(hosts, v) && Clear(v, b) {
      StageRebuilds(hosts, v, w0, connect.run.left);
      StagedMounts(hosts, v, w0);
      MountRebuilds(hosts, v, w0, w3, stage.run.left);
      RestoredIsBuilt(hosts, v, b, w, MountPhase(hosts, v, w3, stage.run.left).run.world);
    }
  }

  lemma BuiltHeight(hosts: Hosts, v: Volume, b: World, w: World, path: string)
    requires BuiltOn(hosts, v, b, w)
    ensures Height(w, v.clientHost, path)
         == Height(b, v.clientHost, path) + if Uses(v, v.clientHost, path) then 1 else 0
  {
    hide TargetOf, InitiatorOf, NothingOf, Rooted, MountsAt, NoEmptyStacks;
  }

  lemma WipedHeight(b: World, w: World, host: string, path: string)
    ensures Height(Wiped(b, w), host, path) == Height(b, host, path)
  {
  }

  /** A Sync that restores the world was not misled by a mount already there. */
  lemma RestoredWasClear(hosts: Hosts, v: Volume, b: World, w: World, budget: nat)
    requires Lifecycle(hosts, v) && BuiltOn(hosts, v, b, w)
    requires var p := Sync(hosts, v, Wiped(b, w), budget); p.reply == Done && p.run.world == w
    ensures Clear(v, b)
  {
    hide Lifecycle, BuiltOn, Sync, Height, Wiped;
    forall path
      ensures Height(b, v.clientHost, path) + (if Uses(v, v.clientHost, path) then 1 else 0)
           == HeightAfter(v, Height(b, v.clientHost, path), v.clientHost, path)
    {
      BuiltHeight(hosts, v, b, w, path);
      WipedHeight(b, w, v.clientHost, path);
      SyncHeights(hosts, v, Wiped(b, w), budget, v.clientHost, path);
    }
    HeightsTellClear(v, b);
  }

  lemma HeightsTellClear(v: Volume, b: World)
    requires forall path {:trigger Uses(v, v.clientHost, path)} ::
      Height(b, v.clientHost, path) + (if Uses(v, v.clientHost, path) then 1 else 0)
      == HeightAfter(v, Height(b, v.clientHost, path), v.clientHost, path)
    ensures Clear(v, b)
  {
    hide MountsAt;
    assert Uses(v, v.clientHost, v.stagingPath) || !v.IsStaged();
    forall p | p in v.targetPaths ensures !IsMountPoint(b, v.clientHost, p) {
      assert Uses(v, v.clientHost, p);
    }
  }

  /**
   * Wiped of everything of the volume, the hosts are put back exactly as they were, exactly
   * for a row Sync can act on, over a base with nothing mounted where it mounts.
   */
  lemma RebuildIsExact(hosts: Hosts, v: Volume, b: World, w: World, budget: nat)
    requires Lifecycle(hosts, v) && BuiltOn(hosts, v, b, w) && NoEmptyStacks(b.mounts)
    requires budget >= 9 + 3 * |v.targetPaths|
    ensures var p := Sync(hosts, v, Wiped(b, w), budget);
      p.reply == Done && p.run.world == w <==> SyncReady(hosts, v) && Clear(v, b)
  {
    hide Lifecycle, BuiltOn, NoEmptyStacks, Sync, Wiped, SyncReady, Clear;
    ClearRebuilds(hosts, v, b, w, budget);
    var p := Sync(hosts, v, Wiped(b, w), budget);
    if p.reply == Done && p.run.world == w {
      RestoredWasClear(hosts, v, b, w, budget);
    }
  }

  // -- Rebuilding what a run built ------------------------------------------------------

  datatype Attempt = Attempt(op: Op, budget: nat)

  datatype State = State(volume: Volume, world: World)

  function RunCalls(hosts: Hosts, s: State, calls: seq<Attempt>): State
    decreases |calls|
  {
    if calls == [] then s
    else
      var o := Handle(calls[0].op, hosts, s.volume, s.world, calls[0].budget);
      RunCalls(hosts, State(o.volume, o.run.world), calls[1..])
  }

  /** Every call of the run is valid and answers without an error. */
  predicate AllSucceed(hosts: Hosts, s: State, calls: seq<Attempt>)
    decreases |calls|
  {
    calls == [] ||
    var o := Handle(calls[0].op, hosts, s.volume, s.world, calls[0].budget);
    && Validated(calls[0].op) && o.reply.Ok?
    && AllSucceed(hosts, State(o.volume, o.run.world), calls[1..])
  }

  /** Every call of the run that takes effect is admissible. */
  predicate AllAdmissible(hosts: Hosts, s: State, calls: seq<Attempt>)
    decreases |calls|
  {
    calls == [] ||
    var o := Handle(calls[0].op, hosts, s.volume, s.world, calls[0].budget);
    && (Effective(calls[0].op, hosts, s.volume, s.world, calls[0].budget) ==> Admissible(calls[0].op, s.volume))
    && AllAdmissible(hosts, State(o.volume, o.run.world), calls[1..])
  }

  /** The world is always the base plus exactly what the row of the time calls for. */
  ghost predicate AlwaysBuilt(hosts: Hosts, b: World, s: State, calls: seq<Attempt>)
    decreases |calls|
  {
    && BuiltOn(hosts, s.volume, b, s.world)
    && (calls == [] ||
        var o := Handle(calls[0].op, hosts, s.volume, s.world, calls[0].budget);
        AlwaysBuilt(hosts, b, State(o.volume, o.run.world), calls[1..]))
  }

  lemma SuccessBuilds(op: Op, hosts: Hosts, v: Volume, b: World, w: World, budget: nat)
    requires Lifecycle(hosts, v) && BuiltOn(hosts, v, b, w) && Validated(op)
    requires Handle(op, hosts, v, w, budget).reply.Ok?
    ensures var o := Handle(op, hosts, v, w, budget);
      && Lifecycle(hosts, o.volume)
      && (BuiltOn(hosts, o.volume, b, o.run.world)
          <==> (Effective(op, hosts, v, w, budget) ==> Admissible(op, v)))
  {
    hide Lifecycle, BuiltOn, PlanOf, Persist, Execute, Admissible;
    HandleKeepsLifecycle(op, hosts, v, w, budget);
    if PlanOf(op, hosts, v, w).Act? {
      CallBuilds(op, hosts, v, b, w, budget);
    }
  }

  /**
   * Over every run of successful calls the world is always the base plus exactly what the
   * row calls for, exactly when every call that takes effect is admissible.
   */
  lemma {:induction false} RunBuilds(hosts: Hosts, b: World, s: State, calls: seq<Attempt>)
    requires Lifecycle(hosts, s.volume) && BuiltOn(hosts, s.volume, b, s.world) && AllSucceed(hosts, s, calls)
    ensures AlwaysBuilt(hosts, b, s, calls) <==> AllAdmissible(hosts, s, calls)
    ensures var r := RunCalls(hosts, s, calls);
      Lifecycle(hosts, r.volume) && (AlwaysBuilt(hosts, b, s, calls) ==> BuiltOn(hosts, r.volume, b, r.world))
    decreases |calls|
  {
    hide Lifecycle, BuiltOn, Handle, Admissible, Effective;
    if calls != [] {
      SuccessBuilds(calls[0].op, hosts, s.volume, b, s.world, calls[0].budget);
      var o := Handle(calls[0].op, hosts, s.volume, s.world, calls[0].budget);
      var next := State(o.volume, o.run.world);
      if BuiltOn(hosts, o.volume, b, o.run.world) {
        RunBuilds(hosts, b, next, calls[1..]);
      } else {
        NotBuilt(hosts, b, next, calls[1..]);
        RunLifecycle(hosts, next, calls[1..]);
      }
    }
  }

  lemma NotBuilt(hosts: Hosts, b: World, s: State, calls: seq<Attempt>)
    requires !BuiltOn(hosts, s.volume, b, s.world)
    ensures !AlwaysBuilt(hosts, b, s, calls)
  {
    hide BuiltOn;
  }

  lemma {:induction false} RunLifecycle(hosts: Hosts, s: State, calls: seq<Attempt>)
    requires Lifecycle(hosts, s.volume) && AllSucceed(hosts, s, calls)
    ensures Lifecycle(hosts, RunCalls(hosts, s, calls).volume)
    decreases |calls|
  {
    hide Lifecycle, Handle;
    if calls != [] {
      var o := Handle(calls[0].op, hosts, s.volume, s.world, calls[0].budget);
      HandleKeepsLifecycle(calls[0].op, hosts, s.volume, s.world, calls[0].budget);
      RunLifecycle(hosts, State(o.volume, o.run.world), calls[1..]);
    }
  }

  /** A row as the CSI driver creates it, on hosts that show nothing of it. */
  ghost predicate Starts(v: Volume, b: World) {
    && ColonFree(v.id) && v.status == INITIAL
    && v.serverHost == "" && v.clientHost == "" && v.stagingPath == "" && v.targetPaths == []
    && NothingOf(v.id, b) && NoEmptyStacks(b.mounts)
  }

  lemma StartIsBuilt(hosts: Hosts, v: Volume, b: World)
    requires Starts(v, b)
    ensures Lifecycle(hosts, v) && BuiltOn(hosts, v, b, b) && NoEmptyStacks(b.mounts)
  {
    hide Owns, MountsAt;
    forall stack: seq<Source> ensures stack + [] == stack {
    }
  }

  /**
   * Any run of successful, admissible calls on a new volume, then the loss of everything but
   * zvols, then a Sync: the hosts are exactly as the calls had left them, and no filesystem
   * was formatted again, exactly when Sync can act on the row and no mount is in its way.
   */
  lemma {:induction false} RebuildRefinesHandlers(hosts: Hosts, v: Volume, b: World, calls: seq<Attempt>, budget: nat)
    requires Starts(v, b) && AllSucceed(hosts, State(v, b), calls) && AllAdmissible(hosts, State(v, b), calls)
    requires budget >= 9 + 3 * |RunCalls(hosts, State(v, b), calls).volume.targetPaths|
    ensures var s := RunCalls(hosts, State(v, b), calls);
      var p := Sync(hosts, s.volume, Wiped(b, s.world), budget);
      p.reply == Done && p.run.world == s.world <==> SyncReady(hosts, s.volume) && Clear(s.volume, b)
  {
    hide *;
    StartIsBuilt(hosts, v, b);
    RunBuilds(hosts, b, State(v, b), calls);
    var s := RunCalls(hosts, State(v, b), calls);
    RebuildIsExact(hosts, s.volume, b, s.world, budget);
  }
}
