/**
 * The exact world that successful handlers build for a volume over whatever was there
 * before, and the proof that a Sync rebuilds the same world from the bare hosts.
 */
module Builds {
  import opened Wrappers
  import opened Names
  import opened Volumes
  import opened Clusters
  import opened Plans
  import opened Lifecycles
  import opened Links
  import opened Agreements

  /** The row's target with its ACL, and no other, is added to the base. */
  function BuiltTargets(hosts: Hosts, v: Volume, base: map<At, Target>): map<At, Target> {
    if !v.IsPublished() then base
    else base[At(v.serverHost, TargetOf(hosts, v)) :=
                Target(v.datasetID, if v.IsConnected() then {InitiatorOf(hosts, v)} else {})]
  }

  function BuiltSessions(hosts: Hosts, v: Volume, base: map<At, Session>): map<At, Session> {
    if !v.IsConnected() then base
    else base[At(v.clientHost, TargetOf(hosts, v)) := Session(v.serverHost, InitiatorOf(hosts, v))]
  }

  /** What the row mounts on a mount point. */
  function OwnMounts(hosts: Hosts, v: Volume, host: string, path: string): seq<Source> {
    if host != v.clientHost then []
    else if v.IsStaged() && path == v.stagingPath then [Device(TargetOf(hosts, v))]
    else if path in v.targetPaths then [Bind(v.stagingPath)]
    else []
  }

  ghost predicate BuiltMounts(hosts: Hosts, v: Volume, base: MountTable, mounts: MountTable) {
    && NoEmptyStacks(mounts)
    && forall h, p :: MountsAt(mounts, h, p) == MountsAt(base, h, p) + OwnMounts(hosts, v, h, p)
  }

  /** Hosts once named by the row are there, and so is its zvol. */
  ghost predicate Rooted(hosts: Hosts, v: Volume, w: World) {
    && (v.serverHost != "" ==> Lookup(hosts, v.serverHost).Some? && At(v.serverHost, v.datasetID) in w.zvols)
    && (v.clientHost != "" ==> v.serverHost != "" && Lookup(hosts, v.clientHost).Some?)
    && v.stagingPath !in v.targetPaths
    && FilesystemAgrees(v, w)
  }

  /** The world is the base plus exactly what the row's status calls for. */
  ghost predicate BuiltOn(hosts: Hosts, v: Volume, b: World, w: World) {
    && NothingOf(v.id, b)
    && w.targets == BuiltTargets(hosts, v, b.targets)
    && w.sessions == BuiltSessions(hosts, v, b.sessions)
    && BuiltMounts(hosts, v, b.mounts, w.mounts)
    && Rooted(hosts, v, w)
  }

  /** The world a call leaves when it takes the row from v to u. */
  function Effect(op: Op, hosts: Hosts, v: Volume, u: Volume, w: World): World {
    var target := TargetOf(hosts, v);
    match op
    case Publish(_, server) =>
      var key := At(server, v.datasetID);
      Apply(Export(server, TargetOf(hosts, u), v.datasetID),
            if key in w.zvols then w else w.(zvols := w.zvols[key := v.capacityBytes]))
    case Unpublish => Apply(Unexport(v.serverHost, target), w)
    case Connect(client) =>
      Apply(Login(client, v.serverHost, target, InitiatorOf(hosts, u)),
            Apply(Allow(v.serverHost, target, InitiatorOf(hosts, u)), w))
    case Disconnect =>
      Apply(Deny(v.serverHost, target, InitiatorOf(hosts, v)), Apply(Logout(v.clientHost, target), w))
    case Stage(path) => Apply(MountDevice(v.clientHost, target, path), Formatted(v, w, target))
    case Unstage => Apply(Umount(v.clientHost, v.stagingPath), w)
    case Mount(path) => Apply(MountBind(v.clientHost, v.stagingPath, path), w)
    case Unmount(path) => Apply(Umount(v.clientHost, path), w)
  }

  lemma OwnKeysAreNew(hosts: Hosts, v: Volume, b: World)
    requires Lifecycle(hosts, v) && v.IsPublished() && NothingOf(v.id, b)
    ensures At(v.serverHost, TargetOf(hosts, v)) !in b.targets
    ensures At(v.clientHost, TargetOf(hosts, v)) !in b.sessions
  {
    TargetIsOwned(hosts, v);
    hide Lifecycle, TargetOf, Owns, MountsAt;
  }

  lemma PublishBuilds(hosts: Hosts, v: Volume, b: World, w: World, u: Volume, kind: TransportKind, server: string)
    requires Lifecycle(hosts, v) && BuiltOn(hosts, v, b, w) && Moves(Publish(kind, server), v, u)
    requires Lookup(hosts, server).Some?
    ensures BuiltOn(hosts, u, b, Effect(Publish(kind, server), hosts, v, u, w))
  {
    assert v.targetPaths == [] && server != "";
    hide Lifecycle, TargetOf, InitiatorOf, BuiltMounts, NothingOf, Lookup;
    IdleBuilds(hosts, v, u, b.mounts, w.mounts);
  }

  /** Rows that mount nothing build the same mounts. */
  lemma IdleBuilds(hosts: Hosts, v: Volume, u: Volume, base: MountTable, mounts: MountTable)
    requires BuiltMounts(hosts, v, base, mounts)
    requires !v.IsStaged() && !u.IsStaged() && v.targetPaths == [] && u.targetPaths == []
    ensures BuiltMounts(hosts, u, base, mounts)
  {
    hide MountsAt, TargetOf;
  }

  lemma UnpublishBuilds(hosts: Hosts, v: Volume, b: World, w: World, u: Volume)
    requires Lifecycle(hosts, v) && BuiltOn(hosts, v, b, w) && Moves(Unpublish, v, u)
    ensures BuiltOn(hosts, u, b, Effect(Unpublish, hosts, v, u, w))
  {
    assert v.targetPaths == [];
    hide Lifecycle, TargetOf, InitiatorOf, BuiltMounts, NothingOf, Lookup;
    OwnKeysAreNew(hosts, v, b);
    IdleBuilds(hosts, v, u, b.mounts, w.mounts);
  }

  lemma ConnectBuilds(hosts: Hosts, v: Volume, b: World, w: World, u: Volume, client: string)
    requires Lifecycle(hosts, v) && BuiltOn(hosts, v, b, w) && Moves(Connect(client), v, u)
    requires Lookup(hosts, client).Some?
    ensures BuiltOn(hosts, u, b, Effect(Connect(client), hosts, v, u, w))
  {
    assert TargetOf(hosts, u) == TargetOf(hosts, v) && v.serverHost != "" && v.targetPaths == [];
    hide Lifecycle, TargetOf, InitiatorOf, BuiltMounts, NothingOf, Lookup;
    IdleBuilds(hosts, v, u, b.mounts, w.mounts);
    assert {} + {InitiatorOf(hosts, u)} == {InitiatorOf(hosts, u)};
  }

  lemma DisconnectBuilds(hosts: Hosts, v: Volume, b: World, w: World, u: Volume)
    requires Lifecycle(hosts, v) && BuiltOn(hosts, v, b, w) && Moves(Disconnect, v, u) && v.status == CONNECTED
    ensures BuiltOn(hosts, u, b, Effect(Disconnect, hosts, v, u, w))
  {
    assert TargetOf(hosts, u) == TargetOf(hosts, v) && v.targetPaths == [];
    hide Lifecycle, TargetOf, InitiatorOf, BuiltMounts, NothingOf, Lookup;
    OwnKeysAreNew(hosts, v, b);
    IdleBuilds(hosts, v, u, b.mounts, w.mounts);
    assert {InitiatorOf(hosts, v)} - {InitiatorOf(hosts, v)} == {};
  }

  /** Mounting adds to one mount point what the new row mounts there. */
  lemma PushBuilds(hosts: Hosts, v: Volume, u: Volume, base: MountTable, mounts: MountTable, path: string,
                   source: Source)
    requires BuiltMounts(hosts, v, base, mounts)
    requires OwnMounts(hosts, v, v.clientHost, path) == [] && OwnMounts(hosts, u, v.clientHost, path) == [source]
    requires forall h, p :: h != v.clientHost || p != path ==> OwnMounts(hosts, u, h, p) == OwnMounts(hosts, v, h, p)
    ensures BuiltMounts(hosts, u, base, Pushed(mounts, v.clientHost, path, source))
  {
    PushedChanges(mounts, v.clientHost, path, source);
    PushedKeepsStacks(mounts, v.clientHost, path, source);
    hide OwnMounts, MountsAt, Pushed, NoEmptyStacks;
    var stack := MountsAt(base, v.clientHost, path);
    assert stack + [] == stack;
  }

  /** Unmounting takes from one mount point what the old row mounted there. */
  lemma PopBuilds(hosts: Hosts, v: Volume, u: Volume, base: MountTable, mounts: MountTable, path: string,
                  source: Source)
    requires BuiltMounts(hosts, v, base, mounts)
    requires OwnMounts(hosts, v, v.clientHost, path) == [source] && OwnMounts(hosts, u, v.clientHost, path) == []
    requires forall h, p :: h != v.clientHost || p != path ==> OwnMounts(hosts, u, h, p) == OwnMounts(hosts, v, h, p)
    ensures BuiltMounts(hosts, u, base, Popped(mounts, v.clientHost, path))
  {
    PoppedChanges(mounts, v.clientHost, path);
    PushedKeepsStacks(mounts, v.clientHost, path, source);
    hide OwnMounts, MountsAt, Popped, NoEmptyStacks;
    var stack := MountsAt(base, v.clientHost, path);
    assert (stack + [source])[..|stack|] == stack + [];
  }

  /** Rows of the same target build the same targets and sessions. */
  lemma SameTargetBuilds(hosts: Hosts, v: Volume, u: Volume, b: World, w: World, w1: World)
    requires BuiltOn(hosts, v, b, w) && SameTarget(v, u)
    requires w1.targets == w.targets && w1.sessions == w.sessions
    requires BuiltMounts(hosts, u, b.mounts, w1.mounts) && Rooted(hosts, u, w1)
    ensures BuiltOn(hosts, u, b, w1)
  {
    assert TargetOf(hosts, u) == TargetOf(hosts, v) && InitiatorOf(hosts, u) == InitiatorOf(hosts, v);
    hide TargetOf, InitiatorOf, NothingOf, BuiltMounts, Rooted;
  }

  /** The zvol behind the device of a connected volume is the row's own. */
  lemma BuiltBacking(hosts: Hosts, v: Volume, b: World, w: World)
    requires BuiltOn(hosts, v, b, w) && v.IsConnected()
    ensures Backing(w, v.clientHost, TargetOf(hosts, v)) == Some(At(v.serverHost, v.datasetID))
  {
    hide TargetOf, InitiatorOf, BuiltMounts, Rooted, NothingOf;
  }

  lemma StageOwns(hosts: Hosts, v: Volume, u: Volume, path: string)
    requires Lifecycle(hosts, v) && Moves(Stage(path), v, u)
    ensures OwnMounts(hosts, v, v.clientHost, path) == []
    ensures OwnMounts(hosts, u, v.clientHost, path) == [Device(TargetOf(hosts, v))]
    ensures forall h, p :: h != v.clientHost || p != path ==> OwnMounts(hosts, u, h, p) == OwnMounts(hosts, v, h, p)
    ensures SameTarget(v, u) && u.targetPaths == [] && u.mode == v.mode
  {
    assert TargetOf(hosts, u) == TargetOf(hosts, v) && v.targetPaths == [];
    hide TargetOf, Lifecycle;
  }

  lemma StageBuilds(hosts: Hosts, v: Volume, b: World, w: World, u: Volume, path: string)
    requires Lifecycle(hosts, v) && BuiltOn(hosts, v, b, w) && Moves(Stage(path), v, u)
    ensures BuiltOn(hosts, u, b, Effect(Stage(path), hosts, v, u, w))
  {
    var target := TargetOf(hosts, v);
    var w1 := Effect(Stage(path), hosts, v, u, w);
    hide Lifecycle, TargetOf, InitiatorOf, NothingOf, Pushed, BuiltMounts, Backing, Formatted, Lookup,
      OwnMounts, BuiltTargets, BuiltSessions;
    StageOwns(hosts, v, u, path);
    BuiltBacking(hosts, v, b, w);
    FormattedFields(v, w, target);
    PushBuilds(hosts, v, u, b.mounts, w.mounts, path, Device(target));
    SameTargetBuilds(hosts, v, u, b, w, w1);
  }

  lemma FormattedFields(v: Volume, w: World, target: string)
    ensures var w0 := Formatted(v, w, target);
      && w0 == w.(filesystems := w0.filesystems)
      && (v.mode == Filesystem && Backing(w, v.clientHost, target).Some? ==>
            Backing(w, v.clientHost, target).value in w0.filesystems)
      && (HasFilesystem(w, v.clientHost, target) ==> w0 == w)
  {
    hide Backing;
  }

  lemma UnstageOwns(hosts: Hosts, v: Volume, u: Volume)
    requires Lifecycle(hosts, v) && Moves(Unstage, v, u)
    ensures OwnMounts(hosts, v, v.clientHost, v.stagingPath) == [Device(TargetOf(hosts, v))]
    ensures OwnMounts(hosts, u, v.clientHost, v.stagingPath) == []
    ensures forall h, p :: h != v.clientHost || p != v.stagingPath
              ==> OwnMounts(hosts, u, h, p) == OwnMounts(hosts, v, h, p)
    ensures SameTarget(v, u) && u.targetPaths == [] && !u.IsStaged()
  {
    assert TargetOf(hosts, u) == TargetOf(hosts, v) && v.targetPaths == [];
    hide TargetOf, Lifecycle;
  }

  lemma UnstageBuilds(hosts: Hosts, v: Volume, b: World, w: World, u: Volume)
    requires Lifecycle(hosts, v) && BuiltOn(hosts, v, b, w) && Moves(Unstage, v, u)
    ensures BuiltOn(hosts, u, b, Effect(Unstage, hosts, v, u, w))
  {
    hide Lifecycle, TargetOf, InitiatorOf, NothingOf, Popped, BuiltMounts, Lookup, OwnMounts,
      BuiltTargets, BuiltSessions;
    UnstageOwns(hosts, v, u);
    PopBuilds(hosts, v, u, b.mounts, w.mounts, v.stagingPath, Device(TargetOf(hosts, v)));
    SameTargetBuilds(hosts, v, u, b, w, Apply(Umount(v.clientHost, v.stagingPath), w));
  }

  lemma MountOwns(hosts: Hosts, v: Volume, u: Volume, path: string)
    requires Moves(Mount(path), v, u) && path != v.stagingPath && v.stagingPath !in v.targetPaths
    ensures OwnMounts(hosts, v, v.clientHost, path) == []
    ensures OwnMounts(hosts, u, v.clientHost, path) == [Bind(v.stagingPath)]
    ensures forall h, p :: h != v.clientHost || p != path ==> OwnMounts(hosts, u, h, p) == OwnMounts(hosts, v, h, p)
    ensures SameTarget(v, u) && u.stagingPath !in u.targetPaths && u.IsStaged()
  {
    assert TargetOf(hosts, u) == TargetOf(hosts, v);
    hide TargetOf;
  }

  lemma MountBuilds(hosts: Hosts, v: Volume, b: World, w: World, u: Volume, path: string)
    requires BuiltOn(hosts, v, b, w) && Moves(Mount(path), v, u) && path != v.stagingPath
    ensures BuiltOn(hosts, u, b, Effect(Mount(path), hosts, v, u, w))
  {
    hide TargetOf, InitiatorOf, NothingOf, Pushed, BuiltMounts, Lookup, OwnMounts, BuiltTargets, BuiltSessions;
    MountOwns(hosts, v, u, path);
    PushBuilds(hosts, v, u, b.mounts, w.mounts, path, Bind(v.stagingPath));
    SameTargetBuilds(hosts, v, u, b, w, Apply(MountBind(v.clientHost, v.stagingPath, path), w));
  }

  lemma UnmountOwns(hosts: Hosts, v: Volume, u: Volume, path: string)
    requires Lifecycle(hosts, v) && Moves(Unmount(path), v, u) && v.stagingPath !in v.targetPaths
    ensures OwnMounts(hosts, v, v.clientHost, path) == [Bind(v.stagingPath)]
    ensures OwnMounts(hosts, u, v.clientHost, path) == []
    ensures forall h, p :: h != v.clientHost || p != path ==> OwnMounts(hosts, u, h, p) == OwnMounts(hosts, v, h, p)
    ensures SameTarget(v, u) && u.stagingPath !in u.targetPaths && v.IsStaged()
    ensures u.serverHost == v.serverHost && u.clientHost == v.clientHost && u.datasetID == v.datasetID
  {
    StagedPaths(hosts, v);
    hide Lifecycle, IndexOf, Without, TargetID;
    assert TargetOf(hosts, u) == TargetOf(hosts, v);
    WithoutIsRemoval(v.targetPaths, path);
  }

  lemma StagedPaths(hosts: Hosts, v: Volume)
    requires Lifecycle(hosts, v) && v.targetPaths != []
    ensures v.status == MOUNTED && NoDuplicates(v.targetPaths)
  {
  }

  lemma UnmountBuilds(hosts: Hosts, v: Volume, b: World, w: World, u: Volume, path: string)
    requires Lifecycle(hosts, v) && BuiltOn(hosts, v, b, w) && Moves(Unmount(path), v, u)
    ensures BuiltOn(hosts, u, b, Effect(Unmount(path), hosts, v, u, w))
  {
    hide Lifecycle, TargetOf, InitiatorOf, NothingOf, Popped, BuiltMounts, Lookup, OwnMounts, Moves,
      BuiltTargets, BuiltSessions;
    UnmountOwns(hosts, v, u, path);
    PopBuilds(hosts, v, u, b.mounts, w.mounts, path, Bind(v.stagingPath));
    SameTargetBuilds(hosts, v, u, b, w, Apply(Umount(v.clientHost, path), w));
  }

  // -- Effective calls ------------------------------------------------------------------

  lemma PublishHasEffect(hosts: Hosts, v: Volume, w: World, kind: TransportKind, server: string, budget: nat)
    requires PublishPlan(hosts, v, w, kind, server).Act?
    ensures var plan := PublishPlan(hosts, v, w, kind, server);
      var r := Execute(plan.script, w, budget);
      (r.ok ==> r.world == Effect(Publish(kind, server), hosts, v, Persist(v, plan.given), w))
      && (budget >= 3 ==> r.ok) && Lookup(hosts, server).Some?
  {
    var plan := PublishPlan(hosts, v, w, kind, server);
    PublishedTarget(hosts, v, w, kind, server);
    PublishResult(plan.given, w, TargetOf(hosts, Persist(v, plan.given)), budget);
    hide Execute, PublishPlan, TargetOf, PublishScript, Persist, Lookup;
  }

  lemma PublishedTarget(hosts: Hosts, v: Volume, w: World, kind: TransportKind, server: string)
    requires PublishPlan(hosts, v, w, kind, server).Act?
    ensures var plan := PublishPlan(hosts, v, w, kind, server);
      && plan.script == PublishScript(plan.given, w, TargetOf(hosts, Persist(v, plan.given)))
      && plan.given.serverHost == server && plan.given.datasetID == v.datasetID
      && plan.given.capacityBytes == v.capacityBytes
      && Lookup(hosts, server).Some?
  {
    hide TargetName, PublishScript, ClientID;
  }

  /** The scripts of the link calls. */
  lemma LinkScripts(op: Op, hosts: Hosts, v: Volume, w: World)
    requires Lifecycle(hosts, v) && PlanOf(op, hosts, v, w).Act? && (op.Unpublish? || op.Connect? || op.Disconnect?)
    ensures var plan := PlanOf(op, hosts, v, w);
      var u, target := Persist(v, plan.given), TargetOf(hosts, v);
      && (op.Unpublish? ==> plan.script == [Unexport(v.serverHost, target)])
      && (op.Connect? ==>
            && plan.script == [Allow(v.serverHost, target, InitiatorOf(hosts, u))]
                              + [Login(op.clientHost, v.serverHost, target, InitiatorOf(hosts, u))]
            && Lookup(hosts, op.clientHost).Some?)
      && (op.Disconnect? ==>
            plan.script == [Logout(v.clientHost, target)] + [Deny(v.serverHost, target, InitiatorOf(hosts, v))])
  {
    hide TargetName, ClientID;
  }

  lemma LinkHasEffect(op: Op, hosts: Hosts, v: Volume, w: World, budget: nat)
    requires Lifecycle(hosts, v) && PlanOf(op, hosts, v, w).Act? && (op.Unpublish? || op.Connect? || op.Disconnect?)
    ensures var plan := PlanOf(op, hosts, v, w);
      var r := Execute(plan.script, w, budget);
      r.ok ==> r.world == Effect(op, hosts, v, Persist(v, plan.given), w)
  {
    var u, target := Persist(v, PlanOf(op, hosts, v, w).given), TargetOf(hosts, v);
    hide Execute, PlanOf, TargetOf, InitiatorOf, Apply, Persist, Lifecycle;
    LinkScripts(op, hosts, v, w);
    match op {
      case Unpublish => ExecuteOne(Unexport(v.serverHost, target), w, budget);
      case Connect(client) =>
        ExecuteTwo(Allow(v.serverHost, target, InitiatorOf(hosts, u)),
                   Login(client, v.serverHost, target, InitiatorOf(hosts, u)), w, budget);
      case _ =>
        ExecuteTwo(Logout(v.clientHost, target), Deny(v.serverHost, target, InitiatorOf(hosts, v)), w, budget);
    }
  }

  lemma MountHasEffect(op: Op, hosts: Hosts, v: Volume, w: World, budget: nat)
    requires Lifecycle(hosts, v) && PlanOf(op, hosts, v, w).Act?
    requires op.Stage? || op.Unstage? || op.Mount? || op.Unmount?
    ensures var plan := PlanOf(op, hosts, v, w);
      var r := Execute(plan.script, w, budget);
      r.ok ==> r.world == Effect(op, hosts, v, Persist(v, plan.given), w)
  {
    hide Execute, Apply, Lifecycle, Formatted, TargetOf, Lookup, StageScript, MountScript;
    match op {
      case Stage(path) =>
        PayloadTarget(hosts, v, w, path);
        StageResult(StagePlan(hosts, v, w, path).given, w, TargetOf(hosts, v), budget);
        SameFormatted(v, StagePlan(hosts, v, w, path).given, w, TargetOf(hosts, v));
      case Unstage => ExecuteOne(Umount(v.clientHost, v.stagingPath), w, budget);
      case Mount(path) => MountResult(MountPlan(hosts, v, path).given, w, path, budget);
      case Unmount(path) => ExecuteOne(Umount(v.clientHost, path), w, budget);
      case _ =>
    }
  }

  lemma PayloadTarget(hosts: Hosts, v: Volume, w: World, path: string)
    requires Lifecycle(hosts, v) && StagePlan(hosts, v, w, path).Act?
    ensures v.transport.Payload().Some? && v.transport.Payload().value.targetID == TargetOf(hosts, v)
  {
    hide TargetOf;
  }

  lemma SameFormatted(v: Volume, u: Volume, w: World, target: string)
    requires u.mode == v.mode && u.clientHost == v.clientHost
    ensures Formatted(u, w, target) == Formatted(v, w, target)
  {
  }

  lemma CallHasEffect(op: Op, hosts: Hosts, v: Volume, w: World, budget: nat)
    requires Lifecycle(hosts, v) && Effective(op, hosts, v, w, budget)
    ensures var o := Handle(op, hosts, v, w, budget); o.run.world == Effect(op, hosts, v, o.volume, w)
  {
    hide Execute, PlanOf, Persist, Effect, Lifecycle;
    if op.Publish? {
      PublishActs(hosts, v, w, op.kind, op.serverHost);
      PublishHasEffect(hosts, v, w, op.kind, op.serverHost, budget);
    } else if op.Unpublish? || op.Connect? || op.Disconnect? {
      LinkHasEffect(op, hosts, v, w, budget);
    } else {
      MountHasEffect(op, hosts, v, w, budget);
    }
  }

  lemma PublishActs(hosts: Hosts, v: Volume, w: World, kind: TransportKind, server: string)
    ensures PlanOf(Publish(kind, server), hosts, v, w) == PublishPlan(hosts, v, w, kind, server)
  {
    hide PublishPlan;
  }

  lemma AdmissibleBuilds(op: Op, hosts: Hosts, v: Volume, b: World, w: World, budget: nat)
    requires Lifecycle(hosts, v) && BuiltOn(hosts, v, b, w) && Admissible(op, v)
    requires Effective(op, hosts, v, w, budget)
    ensures var o := Handle(op, hosts, v, w, budget); BuiltOn(hosts, o.volume, b, o.run.world)
  {
    CallHasEffect(op, hosts, v, w, budget);
    CallMovesAdmissible(op, hosts, v, w, budget);
    var u := Handle(op, hosts, v, w, budget).volume;
    hide *;
    match op
    case Publish(kind, server) => PublishBuilds(hosts, v, b, w, u, kind, server);
    case Unpublish => UnpublishBuilds(hosts, v, b, w, u);
    case Connect(client) => ConnectBuilds(hosts, v, b, w, u, client);
    case Disconnect => DisconnectBuilds(hosts, v, b, w, u);
    case Stage(path) => StageBuilds(hosts, v, b, w, u, path);
    case Unstage => UnstageBuilds(hosts, v, b, w, u);
    case Mount(path) => MountBuilds(hosts, v, b, w, u, path);
    case Unmount(path) => UnmountBuilds(hosts, v, b, w, u, path);
  }

  /** The device a disconnect leaves mounted is more than the new row builds. */
  lemma StagedDisconnectLeaves(hosts: Hosts, v: Volume, u: Volume, b: World, w: World, w1: World)
    requires BuiltOn(hosts, v, b, w) && v.IsStaged() && Moves(Disconnect, v, u) && w1.mounts == w.mounts
    requires v.IsMounted() <==> v.targetPaths != []
    ensures !BuiltOn(hosts, u, b, w1)
  {
    hide TargetOf, InitiatorOf, NothingOf, Rooted, MountsAt;
    var base := MountsAt(b.mounts, v.clientHost, v.stagingPath);
    assert |MountsAt(w.mounts, v.clientHost, v.stagingPath)| == |base| + 1;
  }

  lemma MountedOverStaging(hosts: Hosts, v: Volume, u: Volume, b: World, w1: World)
    requires Moves(Mount(v.stagingPath), v, u)
    ensures !BuiltOn(hosts, u, b, w1)
  {
    assert v.stagingPath in u.targetPaths;
    hide TargetOf, InitiatorOf, NothingOf, BuiltMounts, BuiltTargets, BuiltSessions;
  }

  /** An effective call takes the world its row built to the world the new row builds exactly when it is admissible. */
  lemma CallBuilds(op: Op, hosts: Hosts, v: Volume, b: World, w: World, budget: nat)
    requires Lifecycle(hosts, v) && BuiltOn(hosts, v, b, w) && Validated(op)
    requires Effective(op, hosts, v, w, budget)
    ensures var o := Handle(op, hosts, v, w, budget); BuiltOn(hosts, o.volume, b, o.run.world) <==> Admissible(op, v)
  {
    var o := Handle(op, hosts, v, w, budget);
    hide Lifecycle, BuiltOn, Effective, Handle, Moves;
    if Admissible(op, v) {
      AdmissibleBuilds(op, hosts, v, b, w, budget);
    } else {
      LifecycleStatus(hosts, v);
      CallMoves(op, hosts, v, w, budget);
      if op.Disconnect? {
        CallSides(op, hosts, v, w, budget);
        StagedDisconnectLeaves(hosts, v, o.volume, b, w, o.run.world);
      } else {
        MountedOverStaging(hosts, v, o.volume, b, o.run.world);
      }
    }
  }

  lemma CallMovesAdmissible(op: Op, hosts: Hosts, v: Volume, w: World, budget: nat)
    requires Lifecycle(hosts, v) && Admissible(op, v) && Effective(op, hosts, v, w, budget)
    ensures var u := Handle(op, hosts, v, w, budget).volume; Moves(op, v, u)
    ensures op.Publish? ==> Lookup(hosts, op.serverHost).Some?
    ensures op.Connect? ==> Lookup(hosts, op.clientHost).Some?
    ensures op.Disconnect? ==> v.status == CONNECTED
    ensures op.Mount? ==> op.mountPath != v.stagingPath
  {
    CallMoves(op, hosts, v, w, budget);
    PlanLooksUp(op, hosts, v, w);
    hide Moves, Handle, PlanOf, Lookup;
    assert op.Disconnect? ==> Moves(op, v, Handle(op, hosts, v, w, budget).volume);
    DisconnectMoves(op, v, Handle(op, hosts, v, w, budget).volume);
  }

  lemma DisconnectMoves(op: Op, v: Volume, u: Volume)
    requires Moves(op, v, u) && Admissible(op, v)
    ensures op.Disconnect? ==> v.status == CONNECTED
  {
  }

  lemma PlanLooksUp(op: Op, hosts: Hosts, v: Volume, w: World)
    requires PlanOf(op, hosts, v, w).Act?
    ensures op.Publish? ==> Lookup(hosts, op.serverHost).Some?
    ensures op.Connect? ==> Lookup(hosts, op.clientHost).Some?
  {
    hide TargetID, ClientID, Lookup, PublishScript, StageScript, MountScript;
  }
}
