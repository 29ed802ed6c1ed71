/** What a successful Sync establishes, from any world at all. */
module Reconciliations {
  import opened Names
  import opened Volumes
  import opened Clusters
  import opened Plans
  import opened Lifecycles
  import opened Syncers

  /** A row counts on a mount point for its staging path or a listed target path. */
  predicate Uses(v: Volume, host: string, path: string) {
    host == v.clientHost && ((v.IsStaged() && path == v.stagingPath) || path in v.targetPaths)
  }

  /** Sync unmounts once whatever is mounted on the stored staging path of an unstaged row. */
  predicate UmountsStale(v: Volume) {
    !v.IsStaged() && v.serverHost != "" && v.clientHost != "" && v.stagingPath != ""
  }

  /** The ACL entry and the session of a connected row. */
  ghost predicate LinkClaimed(hosts: Hosts, v: Volume, w: World) {
    var key := At(v.serverHost, TargetOf(hosts, v));
    v.IsConnected() ==>
      && key in w.targets && InitiatorOf(hosts, v) in w.targets[key].acl
      && At(v.clientHost, TargetOf(hosts, v)) in w.sessions
  }

  ghost predicate StoreClaimed(hosts: Hosts, v: Volume, w: World) {
    v.IsPublished() ==> At(v.serverHost, v.datasetID) in w.zvols && At(v.serverHost, TargetOf(hosts, v)) in w.targets
  }

  /** Something is mounted wherever the row counts on a mount. */
  ghost predicate MountsClaimed(v: Volume, w: World) {
    forall p :: Uses(v, v.clientHost, p) ==> IsMountPoint(w, v.clientHost, p)
  }

  /** Everything the row's status claims is there. */
  ghost predicate Claimed(hosts: Hosts, v: Volume, w: World) {
    StoreClaimed(hosts, v, w) && LinkClaimed(hosts, v, w) && MountsClaimed(v, w)
  }

  /** No phase has anything to repair. */
  ghost predicate Settled(hosts: Hosts, v: Volume, w: World) {
    SettledBesidesStaging(hosts, v, w) && StagePhase(hosts, v, w) == Go([])
  }

  ghost predicate SettledBesidesStaging(hosts: Hosts, v: Volume, w: World) {
    && (v.serverHost != "" ==> Lookup(hosts, v.serverHost).Some? && At(v.serverHost, v.datasetID) in w.zvols)
    && PublishPhase(hosts, v, w) == Go([])
    && ConnectPhase(hosts, v, w) == Go([])
    && (v.clientHost != "" && v.stagingPath != "" ==>
          && Lookup(hosts, v.clientHost).Some?
          && forall p :: p in v.targetPaths ==> IsMountPoint(w, v.clientHost, p))
  }

  /** A stale staging path of an unstaged volume with more than one mount stacked on it. */
  predicate StackedStaging(v: Volume, w: World) {
    UmountsStale(v) && Height(w, v.clientHost, v.stagingPath) >= 2
  }

  lemma ZfsDone(hosts: Hosts, v: Volume, w: World, budget: nat)
    requires Perform(ZfsPhase(hosts, v, w), w, budget).reply == Done
    ensures var w1 := Perform(ZfsPhase(hosts, v, w), w, budget).run.world;
      && w1 == w.(zvols := w1.zvols)
      && (v.serverHost != "" ==> Lookup(hosts, v.serverHost).Some? && At(v.serverHost, v.datasetID) in w1.zvols)
  {
    var query, create :=
      QueryZvol(v.serverHost, v.datasetID), CreateZvol(v.serverHost, v.datasetID, v.capacityBytes);
    ExecuteOne(query, w, budget);
    ExecuteTwo(query, create, w, budget);
    assert [query] + [] == [query];
  }

  lemma PublishDone(hosts: Hosts, v: Volume, w: World, budget: nat)
    requires Lifecycle(hosts, v)
    requires Perform(PublishPhase(hosts, v, w), w, budget).reply == Done
    ensures var w1 := Perform(PublishPhase(hosts, v, w), w, budget).run.world;
      && w1 == w.(targets := w1.targets)
      && PublishPhase(hosts, v, w1) == Go([])
      && (v.IsPublished() ==> At(v.serverHost, TargetOf(hosts, v)) in w1.targets)
  {
    if v.IsPublished() {
      TargetNotEmpty(hosts, v);
      ExecuteOne(Export(v.serverHost, TargetOf(hosts, v), v.datasetID), w, budget);
    } else if Lookup(hosts, v.serverHost).Some? {
      ExecuteOne(Unexport(v.serverHost, TargetOf(hosts, v)), w, budget);
    }
  }

  /** The four ACL and session repairs act on one target and one session. */
  function Linked(v: Volume, w: World, target: string, initiator: string): World
    requires At(v.serverHost, target) in w.targets
  {
    var key := At(v.serverHost, target);
    w.(targets := w.targets[key := w.targets[key].(acl := w.targets[key].acl + {initiator})],
       sessions := if At(v.clientHost, target) in w.sessions then w.sessions
                   else w.sessions[At(v.clientHost, target) := Session(v.serverHost, initiator)])
  }

  lemma LinkDone(v: Volume, w: World, target: string, initiator: string, budget: nat)
    requires v.transport.kind != Unspecified && target != "" && initiator != "" && At(v.serverHost, target) in w.targets
    ensures var script :=
        (if CheckAuthorized(v, w, target, initiator) then [] else [Allow(v.serverHost, target, initiator)])
        + if CheckConnected(v, w, target) then [] else [Login(v.clientHost, v.serverHost, target, initiator)];
      Execute(script, w, budget).ok ==> Execute(script, w, budget).world == Linked(v, w, target, initiator)
  {
    hide Execute;
    var allow, login :=
      Allow(v.serverHost, target, initiator), Login(v.clientHost, v.serverHost, target, initiator);
    var key := At(v.serverHost, target);
    ExecuteEmpty(w, budget);
    ExecuteOne(allow, w, budget);
    ExecuteOne(login, w, budget);
    ExecuteTwo(allow, login, w, budget);
    var none: seq<Command> := [];
    assert none + [login] == [login] && [allow] + none == [allow] && none + none == none;
    if initiator in w.targets[key].acl {
      assert w.targets[key].acl + {initiator} == w.targets[key].acl;
      assert w.targets[key := w.targets[key]] == w.targets;
    }
  }

  lemma UnlinkDone(v: Volume, w: World, target: string, initiator: string, budget: nat)
    ensures var script :=
        (if CheckConnected(v, w, target) then [Logout(v.clientHost, target)] else [])
        + if CheckAuthorized(v, w, target, initiator) then [Deny(v.serverHost, target, initiator)] else [];
      var w1 := Execute(script, w, budget).world;
      Execute(script, w, budget).ok ==>
        && w1 == w.(targets := w1.targets, sessions := w1.sessions) && w1.targets.Keys == w.targets.Keys
        && !CheckConnected(v, w1, target) && !CheckAuthorized(v, w1, target, initiator)
  {
    hide Execute;
    var logout, deny := Logout(v.clientHost, target), Deny(v.serverHost, target, initiator);
    ExecuteEmpty(w, budget);
    ExecuteOne(logout, w, budget);
    ExecuteOne(deny, w, budget);
    ExecuteTwo(logout, deny, w, budget);
    var none: seq<Command> := [];
    assert none + [deny] == [deny] && [logout] + none == [logout] && none + none == none;
  }

  lemma ConnectDone(hosts: Hosts, v: Volume, w: World, budget: nat)
    requires Lifecycle(hosts, v)
    requires Perform(ConnectPhase(hosts, v, w), w, budget).reply == Done
    requires v.IsPublished() ==> At(v.serverHost, TargetOf(hosts, v)) in w.targets
    ensures var w1 := Perform(ConnectPhase(hosts, v, w), w, budget).run.world;
      && w1 == w.(targets := w1.targets, sessions := w1.sessions) && w1.targets.Keys == w.targets.Keys
      && ConnectPhase(hosts, v, w1) == Go([])
      && (v.IsConnected() ==> w1 == Linked(v, w, TargetOf(hosts, v), InitiatorOf(hosts, v)))
  {
    ExecuteEmpty(w, budget);
    if v.serverHost != "" && v.clientHost != "" {
      var target, initiator := TargetOf(hosts, v), InitiatorOf(hosts, v);
      if v.IsConnected() {
        InitiatorNotEmpty(hosts, v);
        TargetNotEmpty(hosts, v);
        LinkDone(v, w, target, initiator, budget);
      } else {
        UnlinkDone(v, w, target, initiator, budget);
      }
      hide Execute, Apply;
    }
  }

  lemma ConnectClaims(hosts: Hosts, v: Volume, w: World, budget: nat)
    requires Lifecycle(hosts, v)
    requires Perform(ConnectPhase(hosts, v, w), w, budget).reply == Done
    requires v.IsPublished() ==> At(v.serverHost, TargetOf(hosts, v)) in w.targets
    ensures LinkClaimed(hosts, v, Perform(ConnectPhase(hosts, v, w), w, budget).run.world)
  {
    hide Perform, ConnectPhase, TargetOf, InitiatorOf, Lifecycle;
    ConnectDone(hosts, v, w, budget);
  }

  lemma LinkClaimedLater(hosts: Hosts, v: Volume, w: World, w1: World)
    requires LinkClaimed(hosts, v, w) && w1.targets == w.targets && w1.sessions == w.sessions
    ensures LinkClaimed(hosts, v, w1)
  {
  }

  /** Every mount point stays one. */
  ghost predicate MountPointsKept(w: World, w1: World) {
    forall h, p :: IsMountPoint(w, h, p) ==> IsMountPoint(w1, h, p)
  }

  lemma FormattedKeepsMounts(v: Volume, w: World, target: string)
    ensures var w1 := Formatted(v, w, target); w1 == w.(filesystems := w1.filesystems)
  {
    hide Backing;
  }

  lemma StagedDone(hosts: Hosts, v: Volume, w: World, budget: nat)
    requires Lifecycle(hosts, v) && v.IsStaged()
    requires Perform(StagePhase(hosts, v, w), w, budget).reply == Done
    ensures var w1 := Perform(StagePhase(hosts, v, w), w, budget).run.world;
      w1 == w.(mounts := w1.mounts, filesystems := w1.filesystems) && IsMountPoint(w1, v.clientHost, v.stagingPath)
  {
    hide Execute, Pushed, StageScript, Formatted;
    var target := TargetOf(hosts, v);
    FormattedKeepsMounts(v, w, target);
    ExecuteEmpty(w, budget);
    StageResult(v, w, target, budget);
    PushedChanges(w.mounts, v.clientHost, v.stagingPath, Device(target));
  }

  lemma UnstagedDone(hosts: Hosts, v: Volume, w: World, budget: nat)
    requires !v.IsStaged() && Perform(StagePhase(hosts, v, w), w, budget).reply == Done
    ensures var w1 := Perform(StagePhase(hosts, v, w), w, budget).run.world;
      && (w1 == w || w1 == Apply(Umount(v.clientHost, v.stagingPath), w))
      && (StagePhase(hosts, v, w1) == Go([]) <==> !StackedStaging(v, w))
  {
    ExecuteEmpty(w, budget);
    ExecuteOne(Umount(v.clientHost, v.stagingPath), w, budget);
    PoppedChanges(w.mounts, v.clientHost, v.stagingPath);
    hide Execute, Popped;
  }

  lemma StageDone(hosts: Hosts, v: Volume, w: World, budget: nat)
    requires Lifecycle(hosts, v)
    requires Perform(StagePhase(hosts, v, w), w, budget).reply == Done
    ensures var w1 := Perform(StagePhase(hosts, v, w), w, budget).run.world;
      && w1 == w.(mounts := w1.mounts, filesystems := w1.filesystems)
      && (v.IsStaged() ==> IsMountPoint(w1, v.clientHost, v.stagingPath))
      && (!v.IsStaged() ==> w1 == w || w1 == Apply(Umount(v.clientHost, v.stagingPath), w))
      && (StagePhase(hosts, v, w1) == Go([]) <==> !StackedStaging(v, w))
  {
    hide Perform, Lifecycle, IsMountPoint, Lookup;
    if v.IsStaged() {
      StagedDone(hosts, v, w, budget);
      StagedIsIdle(hosts, v, w, budget);
    } else {
      UnstagedDone(hosts, v, w, budget);
    }
  }

  lemma StagedIsIdle(hosts: Hosts, v: Volume, w: World, budget: nat)
    requires v.IsStaged() && Perform(StagePhase(hosts, v, w), w, budget).reply == Done
    ensures forall w1 :: IsMountPoint(w1, v.clientHost, v.stagingPath) ==> StagePhase(hosts, v, w1) == Go([])
  {
    hide Execute, IsMountPoint, StageScript;
  }

  lemma MountOneDone(v: Volume, path: string, w: World, budget: nat)
    requires Execute(MountScript(v, path), w, budget).ok
    ensures var w1 := Execute(MountScript(v, path), w, budget).world;
      w1 == w.(mounts := w1.mounts) && MountPointsKept(w, w1) && IsMountPoint(w1, v.clientHost, path)
  {
    MountResult(v, w, path, budget);
    PushedChanges(w.mounts, v.clientHost, path, Bind(v.stagingPath));
    hide Execute, Pushed, MountScript, MountsAt;
  }

  lemma {:induction false} MountAllDone(v: Volume, paths: seq<string>, w: World, budget: nat)
    requires MountAll(v, paths, w, budget).reply == Done
    ensures var w1 := MountAll(v, paths, w, budget).run.world;
      && w1 == w.(mounts := w1.mounts) && MountPointsKept(w, w1)
      && (forall p :: p in paths ==> IsMountPoint(w1, v.clientHost, p))
    decreases |paths|
  {
    hide Execute, MountScript, IsMountPoint;
    if paths != [] {
      var path := paths[0];
      if IsMountPoint(w, v.clientHost, path) {
        MountAllDone(v, paths[1..], w, budget);
      } else {
        MountOneDone(v, path, w, budget);
        var first := Execute(MountScript(v, path), w, budget);
        MountAllDone(v, paths[1..], first.world, first.left);
      }
    }
  }

  lemma MountDone(hosts: Hosts, v: Volume, w: World, budget: nat)
    requires Lifecycle(hosts, v)
    requires MountPhase(hosts, v, w, budget).reply == Done
    ensures var w1 := MountPhase(hosts, v, w, budget).run.world;
      && w1 == w.(mounts := w1.mounts) && MountPointsKept(w, w1)
      && (!v.IsMounted() ==> w1 == w)
      && (v.clientHost != "" && v.stagingPath != "" ==>
            Lookup(hosts, v.clientHost).Some? && forall p :: p in v.targetPaths ==> IsMountPoint(w1, v.clientHost, p))
  {
    if v.clientHost != "" && v.stagingPath != "" && Lookup(hosts, v.clientHost).Some? {
      MountAllDone(v, v.targetPaths, w, budget);
    }
  }

  lemma {:induction false} MountAllNeverUnmounts(v: Volume, paths: seq<string>, w: World, budget: nat, c: Command)
    requires c in MountAll(v, paths, w, budget).run.log
    ensures !c.Umount?
    decreases |paths|
  {
    hide Execute, IsMountPoint;
    if paths != [] {
      if IsMountPoint(w, v.clientHost, paths[0]) {
        MountAllNeverUnmounts(v, paths[1..], w, budget, c);
      } else {
        ExecuteIsPrefix(MountScript(v, paths[0]), w, budget);
        var first := Execute(MountScript(v, paths[0]), w, budget);
        assert c in first.log ==> c in MountScript(v, paths[0]);
        if first.ok && c !in first.log {
          MountAllNeverUnmounts(v, paths[1..], first.world, first.left, c);
        }
      }
    }
  }

  /** The unmount loop of the mount phase never fires for a row of the lifecycle. */
  lemma MountPhaseNeverUnmounts(hosts: Hosts, v: Volume, w: World, budget: nat, c: Command)
    requires Lifecycle(hosts, v) && c in MountPhase(hosts, v, w, budget).run.log
    ensures !c.Umount?
  {
    hide MountAll, Execute, Lookup;
    LifecycleFields(hosts, v);
    if c in MountAll(v, v.targetPaths, w, budget).run.log {
      MountAllNeverUnmounts(v, v.targetPaths, w, budget, c);
    }
  }

  /** The publish and connect phases look at no more than the targets and sessions. */
  lemma PhasesRead(hosts: Hosts, v: Volume, w: World, w1: World)
    ensures w.targets.Keys == w1.targets.Keys ==> PublishPhase(hosts, v, w) == PublishPhase(hosts, v, w1)
    ensures w.targets == w1.targets && w.sessions == w1.sessions ==>
              ConnectPhase(hosts, v, w) == ConnectPhase(hosts, v, w1)
  {
  }

  /** Nothing but the mounts decides whether the staging phase is idle. */
  lemma StagePhaseIdle(hosts: Hosts, v: Volume, w: World, w1: World)
    requires v.IsStaged() ==>
      IsMountPoint(w, v.clientHost, v.stagingPath) && IsMountPoint(w1, v.clientHost, v.stagingPath)
    requires !v.IsStaged() ==> w1.mounts == w.mounts
    ensures StagePhase(hosts, v, w) == Go([]) <==> StagePhase(hosts, v, w1) == Go([])
  {
    hide MountsAt;
  }

  lemma LifecycleFields(hosts: Hosts, v: Volume)
    requires Lifecycle(hosts, v)
    ensures v.IsMounted() || v.targetPaths == []
    ensures v.IsStaged() ==> v.clientHost != "" && v.stagingPath != ""
    ensures v.IsPublished() ==> v.serverHost != ""
  {
  }

  /** A successful Sync, from any world, leaves everything the row claims in place. */
  lemma SyncClaims(hosts: Hosts, v: Volume, w: World, budget: nat)
    requires Lifecycle(hosts, v) && Sync(hosts, v, w, budget).reply == Done
    ensures Claimed(hosts, v, Sync(hosts, v, w, budget).run.world)
  {
    var a := Perform(PhaseAt(0, hosts, v, w), w, budget).run;
    var b := Perform(PhaseAt(1, hosts, v, a.world), a.world, a.left).run;
    var c := Perform(PhaseAt(2, hosts, v, b.world), b.world, b.left).run;
    var d := Perform(PhaseAt(3, hosts, v, c.world), c.world, c.left).run;
    var e := MountPhase(hosts, v, d.world, d.left).run;
    hide Perform, MountPhase, Execute, ZfsPhase, PublishPhase, ConnectPhase, StagePhase,
      Lookup, TargetOf, InitiatorOf, IsMountPoint, StackedStaging, Sync, SyncFrom, Lifecycle, Linked, LinkClaimed;
    LifecycleFields(hosts, v);
    SyncPhases(hosts, v, w, budget);
    ZfsDone(hosts, v, w, budget);
    PublishDone(hosts, v, a.world, a.left);
    ConnectDone(hosts, v, b.world, b.left);
    ConnectClaims(hosts, v, b.world, b.left);
    StageDone(hosts, v, c.world, c.left);
    MountDone(hosts, v, d.world, d.left);
    LinkClaimedLater(hosts, v, c.world, e.world);
  }

  /** A target nobody publishes, a session nobody connects, and an ACL entry of either, are gone. */
  ghost predicate NoStrays(hosts: Hosts, v: Volume, w: World) {
    var target := TargetOf(hosts, v);
    var key := At(v.serverHost, target);
    target != "" ==>
      && (!v.IsPublished() ==> key !in w.targets)
      && (!v.IsConnected() && v.clientHost != "" ==>
            && At(v.clientHost, target) !in w.sessions
            && (key in w.targets ==> InitiatorOf(hosts, v) !in w.targets[key].acl))
  }

  lemma TargetsGone(hosts: Hosts, v: Volume, w: World, budget: nat)
    requires !v.IsPublished() && TargetOf(hosts, v) != ""
    requires Perform(PublishPhase(hosts, v, w), w, budget).reply == Done
    ensures At(v.serverHost, TargetOf(hosts, v)) !in Perform(PublishPhase(hosts, v, w), w, budget).run.world.targets
  {
    TargetHasHost(hosts, v);
    ExecuteEmpty(w, budget);
    ExecuteOne(Unexport(v.serverHost, TargetOf(hosts, v)), w, budget);
    hide Execute, TargetID;
  }

  /** Only a known server and a transport give a target name. */
  lemma TargetHasHost(hosts: Hosts, v: Volume)
    requires TargetOf(hosts, v) != ""
    ensures Lookup(hosts, v.serverHost).Some? && v.serverHost != "" && v.transport.kind != Unspecified
    ensures SyncTarget(hosts[v.serverHost], v) == TargetOf(hosts, v)
  {
  }

  lemma LinksGone(hosts: Hosts, v: Volume, w: World, budget: nat)
    requires !v.IsConnected() && v.clientHost != "" && TargetOf(hosts, v) != ""
    requires Perform(ConnectPhase(hosts, v, w), w, budget).reply == Done
    ensures var w1 := Perform(ConnectPhase(hosts, v, w), w, budget).run.world;
      var key := At(v.serverHost, TargetOf(hosts, v));
      && At(v.clientHost, TargetOf(hosts, v)) !in w1.sessions && w1.targets.Keys == w.targets.Keys
      && (key in w1.targets ==> InitiatorOf(hosts, v) !in w1.targets[key].acl)
  {
    var target, initiator := TargetOf(hosts, v), InitiatorOf(hosts, v);
    TargetHasHost(hosts, v);
    UnlinkDone(v, w, target, initiator, budget);
    hide Execute, TargetID, ClientID, TargetOf;
  }

  /** A successful Sync, from any world, also takes away what the row's status no longer claims. */
  lemma SyncClearsStrays(hosts: Hosts, v: Volume, w: World, budget: nat)
    requires Lifecycle(hosts, v) && Sync(hosts, v, w, budget).reply == Done
    ensures NoStrays(hosts, v, Sync(hosts, v, w, budget).run.world)
  {
    var a := Perform(PhaseAt(0, hosts, v, w), w, budget).run;
    var b := Perform(PhaseAt(1, hosts, v, a.world), a.world, a.left).run;
    var c := Perform(PhaseAt(2, hosts, v, b.world), b.world, b.left).run;
    var d := Perform(PhaseAt(3, hosts, v, c.world), c.world, c.left).run;
    var e := MountPhase(hosts, v, d.world, d.left).run;
    hide Perform, MountPhase, ZfsPhase, PublishPhase, ConnectPhase, StagePhase, TargetOf, InitiatorOf, Sync, Lifecycle,
      Linked, Lookup, StackedStaging, IsMountPoint;
    SyncPhases(hosts, v, w, budget);
    ZfsDone(hosts, v, w, budget);
    PublishDone(hosts, v, a.world, a.left);
    ConnectDone(hosts, v, b.world, b.left);
    StageDone(hosts, v, c.world, c.left);
    MountDone(hosts, v, d.world, d.left);
    if TargetOf(hosts, v) != "" && !v.IsPublished() {
      TargetsGone(hosts, v, a.world, a.left);
    }
    if TargetOf(hosts, v) != "" && !v.IsConnected() && v.clientHost != "" {
      LinksGone(hosts, v, b.world, b.left);
    }
  }

  /** It leaves nothing more to repair unless a stale staging path had mounts stacked on it. */
  lemma SyncSettles(hosts: Hosts, v: Volume, w: World, budget: nat)
    requires Lifecycle(hosts, v) && Sync(hosts, v, w, budget).reply == Done
    ensures var w1 := Sync(hosts, v, w, budget).run.world;
      SettledBesidesStaging(hosts, v, w1) && (Settled(hosts, v, w1) <==> !StackedStaging(v, w))
  {
    var a := Perform(PhaseAt(0, hosts, v, w), w, budget).run;
    var b := Perform(PhaseAt(1, hosts, v, a.world), a.world, a.left).run;
    var c := Perform(PhaseAt(2, hosts, v, b.world), b.world, b.left).run;
    var d := Perform(PhaseAt(3, hosts, v, c.world), c.world, c.left).run;
    var e := MountPhase(hosts, v, d.world, d.left).run;
    hide Perform, MountPhase, Execute, ZfsPhase, PublishPhase, ConnectPhase, StagePhase,
      Lookup, TargetOf, InitiatorOf, IsMountPoint, StackedStaging, Sync, SyncFrom, Lifecycle, Linked;
    SyncPhases(hosts, v, w, budget);
    ZfsDone(hosts, v, w, budget);
    PublishDone(hosts, v, a.world, a.left);
    ConnectDone(hosts, v, b.world, b.left);
    StageDone(hosts, v, c.world, c.left);
    MountDone(hosts, v, d.world, d.left);
    PhasesRead(hosts, v, b.world, e.world);
    PhasesRead(hosts, v, c.world, e.world);
    StagePhaseIdle(hosts, v, d.world, e.world);
    SameStacking(v, w, c.world);
  }

  lemma SameStacking(v: Volume, w: World, w1: World)
    ensures w1.mounts == w.mounts ==> StackedStaging(v, w) == StackedStaging(v, w1)
  {
  }

  /** A Sync succeeds exactly when its five phases do, each on the world the last one left. */
  lemma SyncPhases(hosts: Hosts, v: Volume, w: World, budget: nat)
    ensures var a := Perform(ZfsPhase(hosts, v, w), w, budget);
      var b := Perform(PublishPhase(hosts, v, a.run.world), a.run.world, a.run.left);
      var c := Perform(ConnectPhase(hosts, v, b.run.world), b.run.world, b.run.left);
      var d := Perform(StagePhase(hosts, v, c.run.world), c.run.world, c.run.left);
      var e := MountPhase(hosts, v, d.run.world, d.run.left);
      var all := a.reply == Done && b.reply == Done && c.reply == Done && d.reply == Done && e.reply == Done;
      && (Sync(hosts, v, w, budget).reply == Done <==> all)
      && (Sync(hosts, v, w, budget).reply == Done ==> Sync(hosts, v, w, budget).run.world == e.run.world)
  {
    hide Perform, MountPhase, ZfsPhase, PublishPhase, ConnectPhase, StagePhase;
    var a := Perform(PhaseAt(0, hosts, v, w), w, budget);
    var b := Perform(PhaseAt(1, hosts, v, a.run.world), a.run.world, a.run.left);
    var c := Perform(PhaseAt(2, hosts, v, b.run.world), b.run.world, b.run.left);
    var d := Perform(PhaseAt(3, hosts, v, c.run.world), c.run.world, c.run.left);
    var rest := SyncFrom(3, hosts, v, c.run.world, c.run.left);
    assert d.reply == Done ==> rest == Prefixed(d.run.log, MountPhase(hosts, v, d.run.world, d.run.left));
    var most := SyncFrom(1, hosts, v, a.run.world, a.run.left);
    assert b.reply == Done && c.reply == Done ==> most.reply == rest.reply && most.run.world == rest.run.world;
  }

  ghost predicate OnlyQueries(log: seq<Command>) {
    forall c :: c in log ==> !Mutates(c)
  }

  lemma {:induction false} MountAllQuiet(v: Volume, paths: seq<string>, w: World, budget: nat)
    requires forall p :: p in paths ==> IsMountPoint(w, v.clientHost, p)
    ensures MountAll(v, paths, w, budget) == Progress(Run(w, budget, [], true), Done)
    decreases |paths|
  {
    if paths != [] {
      MountAllQuiet(v, paths[1..], w, budget);
    }
  }

  lemma MountPhaseQuiet(hosts: Hosts, v: Volume, w: World, budget: nat)
    requires Lifecycle(hosts, v) && SettledBesidesStaging(hosts, v, w)
    ensures MountPhase(hosts, v, w, budget) == Progress(Run(w, budget, [], true), Done)
  {
    if v.clientHost != "" && v.stagingPath != "" {
      MountAllQuiet(v, v.targetPaths, w, budget);
      PrefixedEmpty(MountAll(v, v.targetPaths, w, budget));
    }
  }

  /** With the zvol there and nothing to publish or connect, Sync comes to its staging phase. */
  lemma SyncReachesStage(hosts: Hosts, v: Volume, w: World, budget: nat)
    requires v.serverHost != "" ==> Lookup(hosts, v.serverHost).Some? && At(v.serverHost, v.datasetID) in w.zvols
    requires PublishPhase(hosts, v, w) == Go([]) && ConnectPhase(hosts, v, w) == Go([])
    ensures var query := [QueryZvol(v.serverHost, v.datasetID)];
      Sync(hosts, v, w, budget) ==
        if v.serverHost == "" then SyncFrom(3, hosts, v, w, budget)
        else if budget == 0 then Progress(Run(w, 0, [], false), Failed)
        else Prefixed(query, SyncFrom(3, hosts, v, w, budget - 1))
  {
    var query := [QueryZvol(v.serverHost, v.datasetID)];
    ExecuteEmpty(w, budget);
    ExecuteOne(query[0], w, budget);
    assert query + [] == query;
    hide Execute, PublishPhase, ConnectPhase, StagePhase;
    var left := if v.serverHost == "" then budget else if budget == 0 then 0 else budget - 1;
    ExecuteEmpty(w, left);
    PrefixedEmpty(SyncFrom(3, hosts, v, w, left));
    assert SyncFrom(2, hosts, v, w, left) == SyncFrom(3, hosts, v, w, left);
    assert SyncFrom(1, hosts, v, w, left) == SyncFrom(3, hosts, v, w, left);
    PrefixedEmpty(SyncFrom(1, hosts, v, w, left));
  }

  /** Sync changes nothing in a settled world. */
  lemma SettledIsQuiet(hosts: Hosts, v: Volume, w: World, budget: nat)
    requires Lifecycle(hosts, v) && Settled(hosts, v, w)
    ensures var p := Sync(hosts, v, w, budget); p.run.world == w && OnlyQueries(p.run.log)
  {
    SyncReachesStage(hosts, v, w, budget);
    var left := if v.serverHost == "" then budget else if budget == 0 then 0 else budget - 1;
    MountPhaseQuiet(hosts, v, w, left);
    ExecuteEmpty(w, left);
    PrefixedEmpty(SyncFrom(4, hosts, v, w, left));
    hide Execute, Sync, StagePhase, MountPhase, Settled;
  }

  lemma SecondIsNoQuery(log: seq<Command>)
    requires |log| >= 2 && Mutates(log[1])
    ensures !OnlyQueries(log)
  {
    assert log[1] in log;
  }

  lemma PrefixedRun(log: seq<Command>, p: Progress)
    ensures Prefixed(log, p).run.world == p.run.world && Prefixed(log, p).run.log == log + p.run.log
  {
  }

  lemma StackedPhases(hosts: Hosts, v: Volume, w: World)
    requires SettledBesidesStaging(hosts, v, w) && !v.IsStaged() && StagePhase(hosts, v, w) != Go([])
    ensures var umount := Umount(v.clientHost, v.stagingPath);
      && StagePhase(hosts, v, w) == Go([umount]) && v.serverHost != "" && Mutates(umount)
      && IsMountPoint(w, v.clientHost, v.stagingPath)
      && Lookup(hosts, v.serverHost).Some? && At(v.serverHost, v.datasetID) in w.zvols
      && PublishPhase(hosts, v, w) == Go([]) && ConnectPhase(hosts, v, w) == Go([])
  {
    hide PublishPhase, ConnectPhase, Lookup, IsMountPoint, StageScript;
  }

  /** Over a stacked stale staging path, another Sync takes one more mount away. */
  lemma StackedIsNotQuiet(hosts: Hosts, v: Volume, w: World, budget: nat)
    requires Lifecycle(hosts, v) && SettledBesidesStaging(hosts, v, w) && !v.IsStaged()
    requires StagePhase(hosts, v, w) != Go([]) && budget >= 2
    ensures var p := Sync(hosts, v, w, budget).run; p.world != w && !OnlyQueries(p.log)
  {
    hide *;
    var query, umount := QueryZvol(v.serverHost, v.datasetID), Umount(v.clientHost, v.stagingPath);
    StackedPhases(hosts, v, w);
    UmountOnce(hosts, v, w, budget - 1);
    SyncReachesStage(hosts, v, w, budget);
    var rest := SyncFrom(3, hosts, v, w, budget - 1);
    PrefixedRun([query], rest);
    var log := Sync(hosts, v, w, budget).run.log;
    assert log[1] == rest.run.log[0];
    SecondIsNoQuery(log);
  }

  lemma UmountOnce(hosts: Hosts, v: Volume, w: World, budget: nat)
    requires Lifecycle(hosts, v) && !v.IsStaged() && budget >= 1
    requires IsMountPoint(w, v.clientHost, v.stagingPath)
    requires StagePhase(hosts, v, w) == Go([Umount(v.clientHost, v.stagingPath)])
    ensures var r := SyncFrom(3, hosts, v, w, budget).run;
      r.world != w && r.log != [] && r.log[0] == Umount(v.clientHost, v.stagingPath)
  {
    var umount := Umount(v.clientHost, v.stagingPath);
    var w1 := Apply(umount, w);
    ExecuteOne(umount, w, budget);
    PoppedChanges(w.mounts, v.clientHost, v.stagingPath);
    assert w1 != w by {
      assert |MountsAt(w1.mounts, v.clientHost, v.stagingPath)| < |MountsAt(w.mounts, v.clientHost, v.stagingPath)|;
    }
    hide Execute, StagePhase, Popped, MountsAt, Apply;
    MountDone(hosts, v, w1, budget - 1);
  }

  /**
   * Sync is idempotent exactly when no stale staging path had mounts stacked on it: one
   * `umount` takes one mount away, and the next Sync finds the mount point still there.
   */
  lemma SyncIdempotent(hosts: Hosts, v: Volume, w: World, budget: nat, again: nat)
    requires Lifecycle(hosts, v) && Sync(hosts, v, w, budget).reply == Done && again >= 2
    ensures var w1 := Sync(hosts, v, w, budget).run.world;
      var second := Sync(hosts, v, w1, again).run;
      (OnlyQueries(second.log) <==> !StackedStaging(v, w)) && (second.world == w1 <==> !StackedStaging(v, w))
  {
    var w1 := Sync(hosts, v, w, budget).run.world;
    SyncSettles(hosts, v, w, budget);
    if !StackedStaging(v, w) {
      SettledIsQuiet(hosts, v, w1, again);
    } else {
      StackedIsNotQuiet(hosts, v, w1, again);
    }
  }
}
