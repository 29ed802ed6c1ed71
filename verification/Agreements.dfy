/** Agreement between a volume's row and the hosts, under every pattern of command failures. */
module Agreements {
  import opened Names
  import opened Volumes
  import opened Clusters
  import opened Plans
  import opened Lifecycles
  import opened Links

  /** The last mount on a mount point is the given one. */
  predicate OnTop(mounts: MountTable, host: string, path: string, source: Source) {
    var stack := MountsAt(mounts, host, path);
    stack != [] && stack[|stack| - 1] == source
  }

  predicate IsDeviceOf(v: Volume, source: Source) {
    source.Device? && Owns(v.id, source.target)
  }

  /**
   * The volume's device is mounted exactly while staged, once, on top of the staging
   * path; and every listed target path has a bind of the staging path on top.
   */
  ghost predicate MountsAgree(hosts: Hosts, v: Volume, mounts: MountTable) {
    && (forall h, p, i :: (0 <= i < |MountsAt(mounts, h, p)| && IsDeviceOf(v, MountsAt(mounts, h, p)[i])) ==>
          v.IsStaged() && h == v.clientHost && p == v.stagingPath && i == |MountsAt(mounts, h, p)| - 1)
    && (v.IsStaged() ==> OnTop(mounts, v.clientHost, v.stagingPath, Device(TargetOf(hosts, v))))
    && (forall p :: p in v.targetPaths ==> OnTop(mounts, v.clientHost, p, Bind(v.stagingPath)))
  }

  /** A filesystem volume is staged only once its zvol holds a filesystem. */
  ghost predicate FilesystemAgrees(v: Volume, w: World) {
    v.IsStaged() && v.mode == Filesystem ==> At(v.serverHost, v.datasetID) in w.filesystems
  }

  /** Nothing on the hosts belongs to the volume. */
  ghost predicate NothingOf(id: string, w: World) {
    && (forall k :: k in w.targets ==> !Owns(id, k.name))
    && (forall k :: k in w.sessions ==> !Owns(id, k.name))
    && (forall h, p, i :: 0 <= i < |MountsAt(w.mounts, h, p)| && MountsAt(w.mounts, h, p)[i].Device?
          ==> !Owns(id, MountsAt(w.mounts, h, p)[i].target))
  }

  ghost predicate Agree(hosts: Hosts, v: Volume, w: World) {
    && LinksAgree(hosts, v, w)
    && MountsAgree(hosts, v, w.mounts)
    && FilesystemAgrees(v, w)
  }

  ghost function Agreed(hosts: Hosts): (Volume, World) -> bool {
    (v, w) => Agree(hosts, v, w)
  }

  /**
   * Calls the world properties are about: a staged volume is not disconnected, and
   * no target path is the staging path itself.
   */
  predicate Admissible(op: Op, v: Volume) {
    && Validated(op)
    && (op.Disconnect? ==> !v.IsStaged())
    && (op.Mount? ==> op.mountPath != v.stagingPath)
  }

  lemma FormatKeepsAgreement(hosts: Hosts, v: Volume, w: World, host: string, target: string)
    requires Agree(hosts, v, w)
    ensures Agree(hosts, v, Apply(Format(host, target), w))
  {
    hide TargetOf, InitiatorOf, Owns;
  }

  /** Mount changes between rows of the same target are judged on the mounts alone. */
  lemma MountsDecide(hosts: Hosts, v: Volume, u: Volume, w: World, mounts: MountTable)
    requires Agree(hosts, v, w) && SameTarget(v, u)
    requires MountsAgree(hosts, u, mounts) && FilesystemAgrees(u, w)
    ensures Agree(hosts, u, w.(mounts := mounts))
  {
    assert TargetOf(hosts, u) == TargetOf(hosts, v) && InitiatorOf(hosts, u) == InitiatorOf(hosts, v);
    hide TargetOf, InitiatorOf, Owns, MountsAgree;
  }

  lemma DeviceMountDecides(hosts: Hosts, v: Volume, u: Volume, mounts: MountTable)
    requires MountsAgree(hosts, v, mounts) && v.status == CONNECTED && v.targetPaths == []
    requires u == v.(status := STAGED, stagingPath := u.stagingPath)
    ensures MountsAgree(hosts, u, Pushed(mounts, v.clientHost, u.stagingPath, Device(TargetOf(hosts, v))))
  {
    assert TargetOf(hosts, u) == TargetOf(hosts, v);
    PushedChanges(mounts, v.clientHost, u.stagingPath, Device(TargetOf(hosts, v)));
    hide MountsAt, Pushed, TargetOf, Owns;
  }

  lemma DeviceMountAgrees(hosts: Hosts, v: Volume, u: Volume, w: World)
    requires Agree(hosts, v, w) && v.status == CONNECTED && v.targetPaths == []
    requires u == v.(status := STAGED, stagingPath := u.stagingPath)
    requires v.mode == Filesystem ==> At(v.serverHost, v.datasetID) in w.filesystems
    ensures Agree(hosts, u, Apply(MountDevice(v.clientHost, TargetOf(hosts, v), u.stagingPath), w))
  {
    hide TargetOf, TargetsAgree, SessionsAgree, MountsAgree, Pushed;
    var mounts := Pushed(w.mounts, v.clientHost, u.stagingPath, Device(TargetOf(hosts, v)));
    DeviceMountDecides(hosts, v, u, w.mounts);
    MountsDecide(hosts, v, u, w, mounts);
  }

  lemma StagingUmountDecides(hosts: Hosts, v: Volume, u: Volume, mounts: MountTable)
    requires MountsAgree(hosts, v, mounts) && v.status == STAGED && v.targetPaths == []
    requires u == v.(status := CONNECTED)
    ensures MountsAgree(hosts, u, Popped(mounts, v.clientHost, v.stagingPath))
  {
    PoppedChanges(mounts, v.clientHost, v.stagingPath);
    hide MountsAt, Popped, TargetOf, Owns;
  }

  lemma StagingUmountAgrees(hosts: Hosts, v: Volume, u: Volume, w: World)
    requires Agree(hosts, v, w) && v.status == STAGED && v.targetPaths == []
    requires u == v.(status := CONNECTED)
    ensures Agree(hosts, u, Apply(Umount(v.clientHost, v.stagingPath), w))
  {
    hide TargetOf, TargetsAgree, SessionsAgree, MountsAgree, Popped;
    StagingUmountDecides(hosts, v, u, w.mounts);
    MountsDecide(hosts, v, u, w, Popped(w.mounts, v.clientHost, v.stagingPath));
  }

  lemma BindMountAgrees(hosts: Hosts, v: Volume, u: Volume, w: World, path: string)
    requires Agree(hosts, v, w) && v.IsStaged() && path != v.stagingPath && path !in v.targetPaths
    requires u == v.(status := MOUNTED, targetPaths := v.targetPaths + [path])
    ensures var w1 := Apply(MountBind(v.clientHost, v.stagingPath, path), w);
      Agree(hosts, v, w1) && Agree(hosts, u, w1)
  {
    var mounts := Pushed(w.mounts, v.clientHost, path, Bind(v.stagingPath));
    hide MountsAgree, TargetsAgree, SessionsAgree, Pushed;
    BindKeepsMounts(hosts, v, u, w.mounts, path);
    MountsDecide(hosts, v, v, w, mounts);
    MountsDecide(hosts, v, u, w, mounts);
  }

  lemma BindKeepsMounts(hosts: Hosts, v: Volume, u: Volume, mounts: MountTable, path: string)
    requires MountsAgree(hosts, v, mounts) && v.IsStaged() && path != v.stagingPath && path !in v.targetPaths
    requires u == v.(status := MOUNTED, targetPaths := v.targetPaths + [path])
    ensures var after := Pushed(mounts, v.clientHost, path, Bind(v.stagingPath));
      MountsAgree(hosts, v, after) && MountsAgree(hosts, u, after)
  {
    assert TargetOf(hosts, u) == TargetOf(hosts, v);
    hide MountsAt, Pushed, TargetOf, Owns;
    BindKeepsOld(hosts, v, mounts, path);
    PushedChanges(mounts, v.clientHost, path, Bind(v.stagingPath));
  }

  lemma BindKeepsOld(hosts: Hosts, v: Volume, mounts: MountTable, path: string)
    requires MountsAgree(hosts, v, mounts) && v.IsStaged() && path != v.stagingPath && path !in v.targetPaths
    ensures MountsAgree(hosts, v, Pushed(mounts, v.clientHost, path, Bind(v.stagingPath)))
  {
    PushedChanges(mounts, v.clientHost, path, Bind(v.stagingPath));
    hide MountsAt, Pushed, TargetOf, Owns;
  }

  lemma BindUmountDecides(hosts: Hosts, v: Volume, u: Volume, mounts: MountTable, path: string)
    requires MountsAgree(hosts, v, mounts) && v.IsStaged() && path in v.targetPaths
    requires u == v.(status := u.status, targetPaths := u.targetPaths) && u.IsStaged()
    requires forall p :: p in u.targetPaths ==> p in v.targetPaths && p != path
    ensures MountsAgree(hosts, u, Popped(mounts, v.clientHost, path))
  {
    assert TargetOf(hosts, u) == TargetOf(hosts, v);
    PoppedChanges(mounts, v.clientHost, path);
    hide MountsAt, Popped, TargetOf, Owns;
  }

  lemma BindUmountAgrees(hosts: Hosts, v: Volume, u: Volume, w: World, path: string)
    requires Agree(hosts, v, w) && v.IsStaged() && path in v.targetPaths
    requires u == v.(status := u.status, targetPaths := u.targetPaths) && u.IsStaged()
    requires forall p :: p in u.targetPaths ==> p in v.targetPaths && p != path
    ensures Agree(hosts, u, Apply(Umount(v.clientHost, path), w))
  {
    hide TargetOf, TargetsAgree, SessionsAgree, MountsAgree, Popped;
    BindUmountDecides(hosts, v, u, w.mounts, path);
    MountsDecide(hosts, v, u, w, Popped(w.mounts, v.clientHost, path));
  }

  // -- Whole transactions ---------------------------------------------------------------

  /** The zvol behind a connected volume's device is the row's own. */
  lemma BackingIsOwn(hosts: Hosts, v: Volume, w: World)
    requires Lifecycle(hosts, v) && Agree(hosts, v, w) && v.IsConnected()
    requires Backing(w, v.clientHost, TargetOf(hosts, v)).Some?
    ensures Backing(w, v.clientHost, TargetOf(hosts, v)).value == At(v.serverHost, v.datasetID)
  {
    TargetIsOwned(hosts, v);
  }

  function StageTail(v: Volume, target: string): seq<Command> {
    [MakePath(v.clientHost, v.stagingPath)] + [MountDevice(v.clientHost, target, v.stagingPath)]
  }

  lemma StageTailAgrees(hosts: Hosts, v: Volume, u: Volume, w: World)
    requires Agree(hosts, v, w) && v.status == CONNECTED && v.targetPaths == []
    requires u == v.(status := STAGED, stagingPath := u.stagingPath)
    requires v.mode == Filesystem ==> At(v.serverHost, v.datasetID) in w.filesystems
    ensures Transacts(Agreed(hosts), v, u, StageTail(u, TargetOf(hosts, v)), w)
  {
    DeviceMountAgrees(hosts, v, u, w);
    hide Agree, Transacts, TargetOf;
    var device := MountDevice(v.clientHost, TargetOf(hosts, v), u.stagingPath);
    TransactsLast(Agreed(hosts), v, u, device, w);
    TransactsFirst(Agreed(hosts), v, u, MakePath(v.clientHost, u.stagingPath), [device], w);
  }

  /** Once the device is there, the rest of the staging script formats and mounts it. */
  lemma StageRestAgrees(hosts: Hosts, v: Volume, u: Volume, w: World)
    requires Lifecycle(hosts, v) && Agree(hosts, v, w) && v.status == CONNECTED && v.targetPaths == []
    requires u == v.(status := STAGED, stagingPath := u.stagingPath)
    requires Backing(w, v.clientHost, TargetOf(hosts, v)).Some?
    ensures Transacts(Agreed(hosts), v, u, FormatScript(u, w, TargetOf(hosts, v)) + StageTail(u, TargetOf(hosts, v)), w)
  {
    var target, client := TargetOf(hosts, v), v.clientHost;
    var query, format, tail := QueryFilesystem(client, target), Format(client, target), StageTail(u, target);
    PrepareFormats(hosts, v, w);
    hide Agree, Transacts, TargetOf, StageTail, Lifecycle, Apply, Backing, HasFilesystem;
    if u.mode != Filesystem {
      StageTailAgrees(hosts, v, u, w);
      assert [] + tail == tail;
    } else if HasFilesystem(w, client, target) {
      StageTailAgrees(hosts, v, u, w);
      TransactsFirst(Agreed(hosts), v, u, query, tail, w);
    } else {
      FormatKeepsAgreement(hosts, v, w, client, target);
      StageTailAgrees(hosts, v, u, Apply(format, w));
      TransactsFirst(Agreed(hosts), v, u, format, tail, w);
      TransactsFirst(Agreed(hosts), v, u, query, [format] + tail, w);
      assert [query] + ([format] + tail) == ([query] + [format]) + tail;
    }
  }

  /** Formatting the device of a connected volume formats the row's own zvol. */
  lemma PrepareFormats(hosts: Hosts, v: Volume, w: World)
    requires Lifecycle(hosts, v) && Agree(hosts, v, w) && v.IsConnected()
    requires Backing(w, v.clientHost, TargetOf(hosts, v)).Some?
    ensures var target, key := TargetOf(hosts, v), At(v.serverHost, v.datasetID);
      && Apply(QueryFilesystem(v.clientHost, target), w) == w
      && key in Apply(Format(v.clientHost, target), w).filesystems
      && (HasFilesystem(w, v.clientHost, target) ==> key in w.filesystems)
  {
    BackingIsOwn(hosts, v, w);
    hide Agree, Lifecycle, TargetOf;
  }

  lemma StageAgrees(hosts: Hosts, v: Volume, w: World, path: string)
    requires Lifecycle(hosts, v) && Agree(hosts, v, w) && path != ""
    requires StagePlan(hosts, v, w, path).Act?
    ensures var plan := StagePlan(hosts, v, w, path);
      Transacts(Agreed(hosts), v, Persist(v, plan.given), plan.script, w)
  {
    var plan := StagePlan(hosts, v, w, path);
    var u, target, client := Persist(v, plan.given), TargetOf(hosts, v), v.clientHost;
    var find, rest := FindDevice(client, target), FormatScript(u, w, target) + StageTail(u, target);
    PlanMoves(Stage(path), hosts, v, w);
    assert plan.script == [find] + rest && Apply(find, w) == w && v.targetPaths == [];
    assert Answers(find, w) ==> Backing(w, client, target).Some?;
    hide Agree, Transacts, Execute, FormatScript, Apply, Answers, Backing, StagePlan, Persist, Lifecycle, StageTail;
    if Answers(find, w) {
      StageRestAgrees(hosts, v, u, w);
    }
    TransactsFirst(Agreed(hosts), v, u, find, rest, w);
  }

  lemma MountSteps(v: Volume, w: World, path: string)
    ensures var make, bind, chmod :=
        MakePath(v.clientHost, path), MountBind(v.clientHost, v.stagingPath, path), Chmod(v.clientHost, path);
      && Apply(make, w) == w && Apply(chmod, Apply(bind, w)) == Apply(bind, w)
      && MountScript(v, path) == if v.mode == Filesystem then [make] + ([bind] + [chmod]) else [make] + [bind]
  {
    hide Pushed;
  }

  lemma MountScriptAgrees(hosts: Hosts, v: Volume, u: Volume, w: World, path: string)
    requires Agree(hosts, v, w) && v.IsStaged() && path != v.stagingPath && path !in v.targetPaths
    requires u == v.(status := MOUNTED, targetPaths := v.targetPaths + [path])
    ensures Transacts(Agreed(hosts), v, u, MountScript(u, path), w)
  {
    hide Agree, Transacts, Apply, Answers, MountScript;
    var make, bind, chmod :=
      MakePath(v.clientHost, path), MountBind(v.clientHost, v.stagingPath, path), Chmod(v.clientHost, path);
    MountSteps(u, w, path);
    BindMountAgrees(hosts, v, u, w, path);
    if v.mode == Filesystem {
      TransactsLast(Agreed(hosts), v, u, chmod, Apply(bind, w));
      TransactsFirst(Agreed(hosts), v, u, bind, [chmod], w);
      TransactsFirst(Agreed(hosts), v, u, make, [bind] + [chmod], w);
    } else {
      TransactsLast(Agreed(hosts), v, u, bind, w);
      TransactsFirst(Agreed(hosts), v, u, make, [bind], w);
    }
  }

  lemma MountAgrees(hosts: Hosts, v: Volume, w: World, path: string)
    requires Lifecycle(hosts, v) && Agree(hosts, v, w) && path != v.stagingPath
    requires MountPlan(hosts, v, path).Act?
    ensures var plan := MountPlan(hosts, v, path);
      Transacts(Agreed(hosts), v, Persist(v, plan.given), plan.script, w)
  {
    var plan := MountPlan(hosts, v, path);
    var u := Persist(v, plan.given);
    assert u == v.(status := MOUNTED, targetPaths := v.targetPaths + [path]);
    MountScriptAgrees(hosts, v, u, w, path);
  }

  lemma UnmountAgrees(hosts: Hosts, v: Volume, w: World, path: string)
    requires Lifecycle(hosts, v) && Agree(hosts, v, w)
    requires UnmountPlan(hosts, v, path).Act?
    ensures var plan := UnmountPlan(hosts, v, path);
      Transacts(Agreed(hosts), v, Persist(v, plan.given), plan.script, w)
  {
    var plan := UnmountPlan(hosts, v, path);
    var u := Persist(v, plan.given);
    WithoutIsRemoval(v.targetPaths, path);
    BindUmountAgrees(hosts, v, u, w, path);
    TransactsLast(Agreed(hosts), v, u, Umount(v.clientHost, path), w);
  }

  lemma UnstageAgrees(hosts: Hosts, v: Volume, w: World)
    requires Lifecycle(hosts, v) && Agree(hosts, v, w)
    requires UnstagePlan(hosts, v).Act?
    ensures var plan := UnstagePlan(hosts, v);
      Transacts(Agreed(hosts), v, Persist(v, plan.given), plan.script, w)
  {
    var plan := UnstagePlan(hosts, v);
    var u := Persist(v, plan.given);
    assert u == v.(status := CONNECTED);
    StagingUmountAgrees(hosts, v, u, w);
    TransactsLast(Agreed(hosts), v, u, Umount(v.clientHost, v.stagingPath), w);
  }

  // -- All calls ------------------------------------------------------------------------

  /** Rows that count on no mounts. */
  predicate Idle(v: Volume) {
    !v.IsStaged() && v.targetPaths == []
  }

  lemma IdleMountsAgree(hosts: Hosts, v: Volume, u: Volume, w: World)
    requires MountsAgree(hosts, v, w.mounts) && Idle(v) && Idle(u) && u.id == v.id
    ensures MountsAgree(hosts, u, w.mounts) && FilesystemAgrees(u, w)
  {
    hide MountsAt, TargetOf, Owns;
  }

  lemma LinkMovesAreIdle(op: Op, v: Volume, u: Volume)
    requires Moves(op, v, u) && LinkCall(op) && INITIAL <= v.status && (v.IsMounted() <==> v.targetPaths != [])
    ensures !v.IsStaged() ==> Idle(v) && Idle(u)
    ensures v.IsStaged() ==> op.Disconnect?
    ensures !u.IsStaged() && u.id == v.id
  {
  }

  /**
   * The call gets as far as what may disturb mounts: a disconnect or a staging that takes
   * effect, or a mount that has bound its path, whether or not it then fails.
   */
  predicate Reaches(op: Op, hosts: Hosts, v: Volume, w: World, budget: nat) {
    || ((op.Disconnect? || op.Stage?) && Effective(op, hosts, v, w, budget))
    || (op.Mount? && PlanOf(op, hosts, v, w).Act? && budget >= 2)
  }

  lemma LinkCallKeepsAgreement(op: Op, hosts: Hosts, v: Volume, w: World, budget: nat)
    requires LinkCall(op) && Lifecycle(hosts, v) && Agree(hosts, v, w) && Validated(op)
    requires Reaches(op, hosts, v, w, budget) ==> Admissible(op, v)
    ensures var o := Handle(op, hosts, v, w, budget); Agree(hosts, o.volume, o.run.world)
  {
    var o := Handle(op, hosts, v, w, budget);
    LifecycleStatus(hosts, v);
    hide Handle, Lifecycle, LinksAgree, MountsAgree, Effective, Moves, Idle;
    HandleKeepsLinks(op, hosts, v, w, budget);
    CallSides(op, hosts, v, w, budget);
    CallMoves(op, hosts, v, w, budget);
    SameMountsAgree(hosts, v, w, o.run.world);
    if o.volume != v {
      LinkMovesAreIdle(op, v, o.volume);
      IdleMountsAgree(hosts, v, o.volume, o.run.world);
    }
  }

  lemma SameMountsAgree(hosts: Hosts, v: Volume, w: World, w1: World)
    requires MountsAgree(hosts, v, w.mounts) && FilesystemAgrees(v, w)
    requires w1.mounts == w.mounts && w1.filesystems == w.filesystems
    ensures MountsAgree(hosts, v, w1.mounts) && FilesystemAgrees(v, w1)
  {
    hide MountsAgree;
  }

  /** What a mount has done to the world once its bind ran, and before. */
  lemma MountReaches(v: Volume, path: string, w: World, budget: nat)
    ensures var r := Execute(MountScript(v, path), w, budget);
      r.world == if budget >= 2 then Apply(MountBind(v.clientHost, v.stagingPath, path), w) else w
  {
    var make, bind, chmod :=
      MakePath(v.clientHost, path), MountBind(v.clientHost, v.stagingPath, path), Chmod(v.clientHost, path);
    MountSteps(v, w, path);
    hide Apply, Execute, MountScript;
    ExecuteAppend([make], if v.mode == Filesystem then [bind] + [chmod] else [bind], w, budget);
    ExecuteOne(make, w, budget);
    if budget > 0 {
      ExecuteAppend([bind], [chmod], w, budget - 1);
      ExecuteOne(bind, w, budget - 1);
      if budget > 1 {
        ExecuteOne(chmod, Apply(bind, w), budget - 2);
      }
    }
  }

  lemma MountCallKeepsAgreement(hosts: Hosts, v: Volume, w: World, path: string, budget: nat)
    requires Lifecycle(hosts, v) && Agree(hosts, v, w) && PlanOf(Mount(path), hosts, v, w).Act?
    requires budget >= 2 ==> path != v.stagingPath
    ensures var o := Handle(Mount(path), hosts, v, w, budget); Agree(hosts, o.volume, o.run.world)
  {
    if path != v.stagingPath {
      hide Agree, Lifecycle, Execute, MountPlan, Persist;
      MountAgrees(hosts, v, w, path);
    } else {
      var u := MountPlan(hosts, v, path).given;
      hide Agree, Lifecycle, Execute, MountScript, Lookup;
      MountReaches(u, path, w, budget);
      MountTooShort(u, path, w, budget);
    }
  }

  lemma MountTooShort(v: Volume, path: string, w: World, budget: nat)
    requires budget < 2
    ensures !Execute(MountScript(v, path), w, budget).ok
  {
    MountSteps(v, w, path);
    ExecuteIsPrefix(MountScript(v, path), w, budget);
    hide Execute;
  }

  /** Under any failures, a call that is admissible where it matters keeps row and hosts in agreement. */
  lemma HandleKeepsAgreement(op: Op, hosts: Hosts, v: Volume, w: World, budget: nat)
    requires Lifecycle(hosts, v) && Agree(hosts, v, w) && Validated(op)
    requires Reaches(op, hosts, v, w, budget) ==> Admissible(op, v)
    ensures var o := Handle(op, hosts, v, w, budget);
      Lifecycle(hosts, o.volume) && Agree(hosts, o.volume, o.run.world)
  {
    hide Agree, Execute, Lifecycle, Effective, Persist, PublishPlan, UnpublishPlan, ConnectPlan, DisconnectPlan,
      StagePlan, UnstagePlan, MountPlan, UnmountPlan;
    HandleKeepsLifecycle(op, hosts, v, w, budget);
    if LinkCall(op) {
      LinkCallKeepsAgreement(op, hosts, v, w, budget);
    } else if PlanOf(op, hosts, v, w).Act? {
      match op
      case Stage(path) => StageAgrees(hosts, v, w, path);
      case Unstage => UnstageAgrees(hosts, v, w);
      case Mount(path) => MountCallKeepsAgreement(hosts, v, w, path, budget);
      case Unmount(path) => UnmountAgrees(hosts, v, w, path);
      case _ =>
    }
  }

  // -- Exactly the calls that keep agreement --------------------------------------------

  /** A mounted device of a volume that is not staged breaks agreement. */
  lemma MountedDeviceDisagrees(hosts: Hosts, v: Volume, u: Volume, mounts: MountTable)
    requires Lifecycle(hosts, v) && v.IsStaged() && MountsAgree(hosts, v, mounts)
    requires u.id == v.id && !u.IsStaged()
    ensures !MountsAgree(hosts, u, mounts)
  {
    TargetIsOwned(hosts, v);
    var stack := MountsAt(mounts, v.clientHost, v.stagingPath);
    assert IsDeviceOf(u, stack[|stack| - 1]);
    hide Lifecycle, TargetOf, Owns, MountsAt;
  }

  /** So does a bind that covers the staging path. */
  lemma CoveredStagingDisagrees(hosts: Hosts, v: Volume, u: Volume, mounts: MountTable)
    requires u.IsStaged() && u.clientHost == v.clientHost && u.stagingPath == v.stagingPath
    ensures !MountsAgree(hosts, u, Pushed(mounts, v.clientHost, v.stagingPath, Bind(v.stagingPath)))
  {
    PushedChanges(mounts, v.clientHost, v.stagingPath, Bind(v.stagingPath));
    hide MountsAt, Pushed, TargetOf;
  }

  lemma MountOverStagingDisagrees(hosts: Hosts, v: Volume, w: World, budget: nat)
    requires PlanOf(Mount(v.stagingPath), hosts, v, w).Act? && budget >= 2
    ensures var o := Handle(Mount(v.stagingPath), hosts, v, w, budget);
      !MountsAgree(hosts, o.volume, o.run.world.mounts)
  {
    var o := Handle(Mount(v.stagingPath), hosts, v, w, budget);
    MountReaches(MountPlan(hosts, v, v.stagingPath).given, v.stagingPath, w, budget);
    MountKeepsStaging(hosts, v, w, budget);
    hide Handle, Execute, MountsAgree, MountScript, Pushed, Lookup;
    CoveredStagingDisagrees(hosts, v, o.volume, w.mounts);
  }

  lemma MountKeepsStaging(hosts: Hosts, v: Volume, w: World, budget: nat)
    requires PlanOf(Mount(v.stagingPath), hosts, v, w).Act?
    ensures var o := Handle(Mount(v.stagingPath), hosts, v, w, budget);
      && o.volume.IsStaged() && o.volume.clientHost == v.clientHost && o.volume.stagingPath == v.stagingPath
      && o.run == Execute(MountScript(MountPlan(hosts, v, v.stagingPath).given, v.stagingPath), w, budget)
      && MountPlan(hosts, v, v.stagingPath).given.clientHost == v.clientHost
      && MountPlan(hosts, v, v.stagingPath).given.stagingPath == v.stagingPath
  {
    hide Execute, MountScript, Lookup;
  }

  /** A call, failing anywhere, keeps row and hosts in agreement exactly when it is admissible where it matters. */
  lemma AdmissibleIsExact(op: Op, hosts: Hosts, v: Volume, w: World, budget: nat)
    requires Lifecycle(hosts, v) && Agree(hosts, v, w) && Validated(op)
    ensures var o := Handle(op, hosts, v, w, budget);
      Agree(hosts, o.volume, o.run.world) <==> (Reaches(op, hosts, v, w, budget) ==> Admissible(op, v))
  {
    hide Lifecycle, Effective, Handle, LinksAgree, MountsAgree, FilesystemAgrees, PlanOf, Moves;
    var o := Handle(op, hosts, v, w, budget);
    if Reaches(op, hosts, v, w, budget) ==> Admissible(op, v) {
      HandleKeepsAgreement(op, hosts, v, w, budget);
    } else if op.Disconnect? {
      LifecycleStatus(hosts, v);
      CallMoves(op, hosts, v, w, budget);
      CallSides(op, hosts, v, w, budget);
      LinkMovesAreIdle(op, v, o.volume);
      MountedDeviceDisagrees(hosts, v, o.volume, w.mounts);
    } else {
      MountOverStagingDisagrees(hosts, v, w, budget);
    }
  }
}
