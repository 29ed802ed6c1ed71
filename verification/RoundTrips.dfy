/** Bringing a volume up for a pod through CSI and taking it down again leaves no trace. */
module RoundTrips {
  import opened Wrappers
  import opened Names
  import opened Volumes
  import opened Clusters
  import opened Conversions
  import opened Plans
  import opened VolumeServices
  import opened Lifecycles
  import opened Transports
  import opened Agreements
  import opened Builds
  import opened CsiDrivers

  /** The two hosts can serve and mount volumes over the transport. */
  ghost predicate Deployable(hosts: Hosts, kind: TransportKind, server: string, node: string) {
    && Lookup(hosts, server).Some? && hosts[server].role.Server?
    && ClientID(hosts[server], Concrete(kind)).Some?
    && Lookup(hosts, node).Some? && ClientID(hosts[node], Concrete(kind)).Some?
  }

  /** Worlds with the same zvols and filesystems but for one. */
  ghost predicate SameElsewhere(key: At, b: World, w: World) {
    w.zvols - {key} == b.zvols - {key} && w.filesystems - {key} == b.filesystems - {key}
  }

  /** The row follows the lifecycle on its two hosts, and can go on. */
  ghost predicate Placed(hosts: Hosts, v: Volume, server: string, node: string) {
    && Lifecycle(hosts, v) && Deployable(hosts, v.transport.kind, server, node)
    && (v.IsPublished() ==> v.serverHost == server && v.transport.Payload().Some?)
    && (v.IsConnected() ==> v.clientHost == node)
  }

  /** The volume is up to a status on its two hosts, over the base world. */
  ghost predicate Up(hosts: Hosts, v: Volume, b: World, w: World, server: string, node: string) {
    Placed(hosts, v, server, node) && BuiltOn(hosts, v, b, w) && SameElsewhere(At(server, v.datasetID), b, w)
  }

  lemma EffectKeepsStores(op: Op, hosts: Hosts, v: Volume, u: Volume, w: World)
    requires !op.Publish? && !op.Stage?
    ensures var w1 := Effect(op, hosts, v, u, w); w1.zvols == w.zvols && w1.filesystems == w.filesystems
  {
    hide TargetOf, InitiatorOf, Pushed, Popped;
  }

  lemma PublishElsewhere(hosts: Hosts, v: Volume, u: Volume, b: World, w: World, kind: TransportKind, server: string)
    requires SameElsewhere(At(server, v.datasetID), b, w)
    ensures SameElsewhere(At(server, v.datasetID), b, Effect(Publish(kind, server), hosts, v, u, w))
  {
    hide TargetOf;
  }

  lemma FormattedElsewhere(v: Volume, w: World, target: string, key: At)
    requires Backing(w, v.clientHost, target) == Some(key)
    ensures var w0 := Formatted(v, w, target); w0.zvols == w.zvols && w0.filesystems - {key} == w.filesystems - {key}
  {
    hide Backing;
  }

  lemma StageElsewhere(hosts: Hosts, v: Volume, u: Volume, b: World, w: World, path: string)
    requires BuiltOn(hosts, v, b, w) && SameElsewhere(At(v.serverHost, v.datasetID), b, w) && v.IsConnected()
    ensures SameElsewhere(At(v.serverHost, v.datasetID), b, Effect(Stage(path), hosts, v, u, w))
  {
    hide TargetOf, InitiatorOf, Pushed, BuiltOn, Backing, Formatted;
    BuiltBacking(hosts, v, b, w);
    FormattedElsewhere(v, w, TargetOf(hosts, v), At(v.serverHost, v.datasetID));
  }

  lemma EffectElsewhere(op: Op, hosts: Hosts, v: Volume, u: Volume, b: World, w: World, server: string)
    requires BuiltOn(hosts, v, b, w) && SameElsewhere(At(server, v.datasetID), b, w)
    requires op.Publish? ==> op.serverHost == server
    requires op.Stage? ==> v.IsConnected() && v.serverHost == server
    ensures SameElsewhere(At(server, v.datasetID), b, Effect(op, hosts, v, u, w))
  {
    hide Effect, BuiltOn;
    match op {
      case Publish(kind, _) => PublishElsewhere(hosts, v, u, b, w, kind, server);
      case Stage(path) => StageElsewhere(hosts, v, u, b, w, path);
      case _ => EffectKeepsStores(op, hosts, v, u, w);
    }
  }

  lemma PublishGoes(hosts: Hosts, v: Volume, w: World, server: string, node: string, budget: nat)
    requires Placed(hosts, v, server, node) && v.status == INITIAL && budget >= 3
    ensures Effective(Publish(v.transport.kind, server), hosts, v, w, budget)
    ensures Handle(Publish(v.transport.kind, server), hosts, v, w, budget).run.left + 3 >= budget
    ensures var u := Handle(Publish(v.transport.kind, server), hosts, v, w, budget).volume;
      u.transport.Payload().Some? && u.transport.kind == Concrete(v.transport.kind)
  {
    var kind := v.transport.kind;
    PublishActsHere(hosts, v, w, kind, server, node);
    var plan := PublishPlan(hosts, v, w, kind, server);
    PublishHasEffect(hosts, v, w, kind, server, budget);
    ExecuteIsPrefix(plan.script, w, budget);
    hide Execute, PublishPlan, Lifecycle, Effect, Deployable, Persist;
  }

  lemma PublishActsHere(hosts: Hosts, v: Volume, w: World, kind: TransportKind, server: string, node: string)
    requires !v.IsPublished() && Deployable(hosts, kind, server, node)
    ensures var plan := PublishPlan(hosts, v, w, kind, server);
      && plan.Act? && |plan.script| <= 3
      && Persist(v, plan.given).transport.Payload().Some?
      && Persist(v, plan.given).transport.kind == Concrete(kind)
  {
    hide ClientID, TargetName;
  }

  lemma ConnectGoes(hosts: Hosts, v: Volume, w: World, server: string, node: string, budget: nat)
    requires Placed(hosts, v, server, node) && v.status == PUBLISHED && budget >= 2
    ensures Effective(Connect(node), hosts, v, w, budget)
    ensures Handle(Connect(node), hosts, v, w, budget).reply.volume.clientHost == node
    ensures Handle(Connect(node), hosts, v, w, budget).volume.transport.Payload().Some?
  {
    ConnectActsHere(hosts, v, w, server, node);
    var plan := ConnectPlan(hosts, v, node);
    assert PlanOf(Connect(node), hosts, v, w) == plan;
    LinkScripts(Connect(node), hosts, v, w);
    var u, target := Persist(v, plan.given), TargetOf(hosts, v);
    hide Execute, PlanOf, ConnectPlan, Lifecycle, Deployable, Persist, TargetOf, InitiatorOf,
      Apply;
    ExecuteTwo(Allow(v.serverHost, target, InitiatorOf(hosts, u)),
               Login(node, v.serverHost, target, InitiatorOf(hosts, u)), w, budget);
  }

  lemma ConnectActsHere(hosts: Hosts, v: Volume, w: World, server: string, node: string)
    requires Lifecycle(hosts, v) && v.status == PUBLISHED && Deployable(hosts, v.transport.kind, server, node)
    requires v.serverHost == server && v.transport.Payload().Some?
    ensures var plan := ConnectPlan(hosts, v, node);
      plan.Act? && plan.given.clientHost == node && Persist(v, plan.given).transport.Payload().Some?
  {
    hide ClientID, TargetName;
  }

  lemma DisconnectGoes(hosts: Hosts, v: Volume, w: World, server: string, node: string, budget: nat)
    requires Placed(hosts, v, server, node) && CONNECTED <= v.status <= STAGED && budget >= 2
    ensures Effective(Disconnect, hosts, v, w, budget)
    ensures Handle(Disconnect, hosts, v, w, budget).volume.transport.Payload().Some?
  {
    DisconnectActsHere(hosts, v, w);
    var plan := DisconnectPlan(hosts, v);
    assert PlanOf(Disconnect, hosts, v, w) == plan;
    LinkScripts(Disconnect, hosts, v, w);
    InitiatorNotEmpty(hosts, v);
    var target := TargetOf(hosts, v);
    hide Execute, PlanOf, DisconnectPlan, Lifecycle, Deployable, Persist, TargetOf,
      InitiatorOf, Apply;
    ExecuteTwo(Logout(v.clientHost, target), Deny(v.serverHost, target, InitiatorOf(hosts, v)), w, budget);
  }

  lemma DisconnectActsHere(hosts: Hosts, v: Volume, w: World)
    requires Lifecycle(hosts, v) && CONNECTED <= v.status <= STAGED && v.transport.Payload().Some?
    ensures var plan := DisconnectPlan(hosts, v);
      plan.Act? && Persist(v, plan.given).transport.Payload().Some?
  {
    hide ClientID, TargetName;
  }

  lemma UnpublishGoes(hosts: Hosts, v: Volume, w: World, budget: nat)
    requires Lifecycle(hosts, v) && v.status == PUBLISHED && budget >= 1
    ensures Effective(Unpublish, hosts, v, w, budget)
  {
    ExecuteOne(Unexport(v.serverHost, TargetOf(hosts, v)), w, budget);
    assert UnpublishPlan(hosts, v).script == [Unexport(v.serverHost, TargetOf(hosts, v))];
    hide Execute, TargetOf, TargetID;
  }

  lemma StageGoes(hosts: Hosts, v: Volume, w: World, server: string, node: string, path: string, budget: nat)
    requires Placed(hosts, v, server, node) && v.status == CONNECTED && budget >= 5
    requires Backing(w, v.clientHost, TargetOf(hosts, v)).Some?
    ensures Effective(Stage(path), hosts, v, w, budget)
  {
    var given := v.(stagingPath := path, status := STAGED);
    PayloadHere(hosts, v, w, path);
    StageResult(given, w, TargetOf(hosts, v), budget);
    hide Execute, Lifecycle, Deployable, TargetOf, StageScript, Backing, StagePlan, Formatted, Apply;
  }

  lemma PayloadHere(hosts: Hosts, v: Volume, w: World, path: string)
    requires Lifecycle(hosts, v) && v.status == CONNECTED && v.transport.Payload().Some?
    ensures var given := v.(stagingPath := path, status := STAGED);
      PlanOf(Stage(path), hosts, v, w) == Act(given, StageScript(given, w, TargetOf(hosts, v)))
  {
    hide StageScript, ClientID, TargetName;
  }

  lemma UnstageGoes(hosts: Hosts, v: Volume, w: World, budget: nat)
    requires Lifecycle(hosts, v) && v.status == STAGED && budget >= 1
    ensures Effective(Unstage, hosts, v, w, budget) && Handle(Unstage, hosts, v, w, budget).run.left == budget - 1
  {
    ExecuteOne(Umount(v.clientHost, v.stagingPath), w, budget);
    hide Execute;
  }

  lemma MountGoes(hosts: Hosts, v: Volume, w: World, path: string, budget: nat)
    requires Lifecycle(hosts, v) && v.IsStaged() && path !in v.targetPaths && budget >= 3
    ensures Effective(Mount(path), hosts, v, w, budget)
  {
    MountResult(MountPlan(hosts, v, path).given, w, path, budget);
    hide Execute, MountScript;
  }

  lemma UnmountGoes(hosts: Hosts, v: Volume, w: World, path: string, budget: nat)
    requires Lifecycle(hosts, v) && path in v.targetPaths && budget >= 1
    ensures Effective(Unmount(path), hosts, v, w, budget)
  {
    ExecuteOne(Umount(v.clientHost, path), w, budget);
    hide Execute;
  }

  // -- One CSI call ---------------------------------------------------------------------

  /** An effective call takes the volume up or down over the same base. */
  lemma CallStaysUp(op: Op, hosts: Hosts, v: Volume, b: World, w: World, server: string, node: string, budget: nat)
    requires Up(hosts, v, b, w, server, node) && Admissible(op, v) && Effective(op, hosts, v, w, budget)
    requires !op.Unpublish?
    requires op.Publish? ==> op.serverHost == server
    requires op.Connect? ==> op.clientHost == node
    requires var u := Handle(op, hosts, v, w, budget).volume;
      u.transport.Payload().Some? && Concrete(u.transport.kind) == Concrete(v.transport.kind)
    ensures var o := Handle(op, hosts, v, w, budget);
      Up(hosts, o.volume, b, o.run.world, server, node) && Moves(op, v, o.volume)
  {
    var u := Handle(op, hosts, v, w, budget).volume;
    MovesAfford(op, hosts, v, w, budget, server);
    hide Effective, Handle, Lifecycle, BuiltOn, SameElsewhere, Admissible, Deployable, Effect;
    CallMovesAdmissible(op, hosts, v, w, budget);
    AdmissibleBuilds(op, hosts, v, b, w, budget);
    CallHasEffect(op, hosts, v, w, budget);
    HandleKeepsLifecycle(op, hosts, v, w, budget);
    EffectElsewhere(op, hosts, v, u, b, w, server);
    SameDeployable(hosts, v.transport.kind, u.transport.kind, server, node);
  }

  lemma MovesAfford(op: Op, hosts: Hosts, v: Volume, w: World, budget: nat, server: string)
    requires Lifecycle(hosts, v) && Admissible(op, v) && Effective(op, hosts, v, w, budget)
    requires v.IsPublished() ==> v.serverHost == server
    ensures Validated(op) && (op.Stage? ==> v.IsConnected() && v.serverHost == server)
  {
    CallMoves(op, hosts, v, w, budget);
    hide Handle, Effective, Lifecycle;
  }

  lemma SameDeployable(hosts: Hosts, k1: TransportKind, k2: TransportKind, server: string, node: string)
    requires Deployable(hosts, k1, server, node) && Concrete(k1) == Concrete(k2)
    ensures Deployable(hosts, k2, server, node)
  {
  }

  /** The table holds the volume, up to a status. */
  ghost predicate Holds(hosts: Hosts, rows: Table, id: string, b: World, w: World, server: string, node: string) {
    id in rows && rows[id].id == id && Up(hosts, rows[id], b, w, server, node)
  }

  lemma CallKeepsKind(op: Op, hosts: Hosts, v: Volume, w: World, budget: nat)
    requires Lifecycle(hosts, v) && Validated(op)
    ensures var u := Handle(op, hosts, v, w, budget).volume;
      && (op.Stage? || op.Unstage? || op.Mount? || op.Unmount? ==> u.transport == v.transport)
      && (op.Connect? || op.Disconnect? ==> u.transport.kind == v.transport.kind)
  {
    CallMoves(op, hosts, v, w, budget);
    hide Handle, Effective, Lifecycle, IndexOf, Without;
  }

  /** The answer and table of one effective call. */
  lemma ServeStaysUp(op: Op, hosts: Hosts, rows: Table, id: string, b: World, w: World, server: string, node: string,
                     budget: nat)
    requires Holds(hosts, rows, id, b, w, server, node)
    requires Admissible(op, rows[id]) && Effective(op, hosts, rows[id], w, budget) && !op.Unpublish?
    requires op.Publish? ==> op.serverHost == server
    requires op.Connect? ==> op.clientHost == node
    requires var u := Handle(op, hosts, rows[id], w, budget).volume;
      u.transport.Payload().Some? && Concrete(u.transport.kind) == Concrete(rows[id].transport.kind)
    ensures var s := Serve(op, id, hosts, rows, w, budget);
      && s.reply.Ok? && Holds(hosts, s.rows, id, b, s.run.world, server, node)
      && s.rows == rows[id := s.rows[id]] && Moves(op, rows[id], s.rows[id])
      && s.run == Handle(op, hosts, rows[id], w, budget).run && s.reply == Handle(op, hosts, rows[id], w, budget).reply
      && s.rows[id] == Handle(op, hosts, rows[id], w, budget).volume
  {
    var o := Handle(op, hosts, rows[id], w, budget);
    assert o.reply.Ok? && o.volume.id == rows[id].id by {
      HandleKeepsID(op, hosts, rows[id], w, budget);
    }
    hide Handle, Effective, Moves, Up;
    CallStaysUp(op, hosts, rows[id], b, w, server, node, budget);
  }

  lemma GetSends(t: Task, id: string, hosts: Hosts, rows: Table, w: World, budget: nat)
    requires !t.Finished? && RequestOf(t) == Get(id) && id in rows
    ensures Alone(t, hosts, rows, w, budget) == Alone(Resume(t, Ok(rows[id])), hosts, rows, w, budget)
  {
    AloneSends(t, hosts, rows, w, budget);
    hide Alone, Resume, RequestOf;
  }

  lemma CallSends(t: Task, id: string, op: Op, hosts: Hosts, rows: Table, w: World, budget: nat)
    requires !t.Finished? && RequestOf(t) == Request.Call(id, op)
    ensures var s := Serve(op, id, hosts, rows, w, budget);
      Alone(t, hosts, rows, w, budget) == Alone(Resume(t, s.reply), hosts, s.rows, s.run.world, s.run.left)
  {
    AloneSends(t, hosts, rows, w, budget);
    hide Alone, Resume, RequestOf, Serve;
  }

  /** ControllerPublishVolume exports the volume and logs the node in. */
  lemma AttachGoes(hosts: Hosts, rows: Table, id: string, b: World, w: World, server: string, node: string, budget: nat)
    requires Holds(hosts, rows, id, b, w, server, node) && rows[id].status == INITIAL && budget >= 5
    ensures var r := Alone(AttachGet(id, node, server), hosts, rows, w, budget);
      && r.reply == Succeeded && Holds(hosts, r.rows, id, b, r.world, server, node)
      && r.rows == rows[id := r.rows[id]] && r.rows[id].status == CONNECTED
      && r.rows[id].targetPaths == [] && r.rows[id].datasetID == rows[id].datasetID
  {
    var v, kind := rows[id], rows[id].transport.kind;
    hide Handle, Alone, Effective, Up, Admissible, Serve, Answer;
    GetSends(AttachGet(id, node, server), id, hosts, rows, w, budget);
    PublishUp(hosts, rows, id, b, w, server, node, budget);
    CallSends(AttachPublish(id, node, server, kind), id, Publish(kind, server), hosts, rows, w, budget);
    var s := Serve(Publish(kind, server), id, hosts, rows, w, budget);
    ConnectUp(hosts, s.rows, id, b, s.run.world, server, node, s.run.left);
    CallSends(AttachConnect(id, node), id, Connect(node), hosts, s.rows, s.run.world, s.run.left);
    var t := Serve(Connect(node), id, hosts, s.rows, s.run.world, s.run.left);
    AloneEnds(Succeeded, hosts, t.rows, t.run.world, t.run.left);
  }

  lemma PublishUp(hosts: Hosts, rows: Table, id: string, b: World, w: World, server: string, node: string, budget: nat)
    requires Holds(hosts, rows, id, b, w, server, node) && rows[id].status == INITIAL && budget >= 3
    ensures var s := Serve(Publish(rows[id].transport.kind, server), id, hosts, rows, w, budget);
      && s.reply.Ok? && Holds(hosts, s.rows, id, b, s.run.world, server, node) && s.rows == rows[id := s.rows[id]]
      && s.rows[id].status == PUBLISHED && s.rows[id].targetPaths == [] && s.rows[id].datasetID == rows[id].datasetID
      && s.run.left + 3 >= budget
  {
    var v := rows[id];
    InitialHasNoPaths(hosts, v, b, w, server, node);
    hide Handle, Serve, Effective, Up;
    PublishGoes(hosts, v, w, server, node, budget);
    ServeStaysUp(Publish(v.transport.kind, server), hosts, rows, id, b, w, server, node, budget);
  }

  lemma InitialHasNoPaths(hosts: Hosts, v: Volume, b: World, w: World, server: string, node: string)
    requires Up(hosts, v, b, w, server, node)
    ensures v.status < MOUNTED ==> v.targetPaths == []
    ensures v.IsPublished() ==> v.transport.Payload().Some?
    ensures v.IsConnected() ==> v.clientHost == node
    ensures Lifecycle(hosts, v) && Placed(hosts, v, server, node)
  {
  }

  lemma ConnectUp(hosts: Hosts, rows: Table, id: string, b: World, w: World, server: string, node: string, budget: nat)
    requires Holds(hosts, rows, id, b, w, server, node) && rows[id].status == PUBLISHED && budget >= 2
    ensures var s := Serve(Connect(node), id, hosts, rows, w, budget);
      && s.reply.Ok? && Holds(hosts, s.rows, id, b, s.run.world, server, node) && s.rows == rows[id := s.rows[id]]
      && s.rows[id].status == CONNECTED && s.rows[id].targetPaths == [] && s.rows[id].datasetID == rows[id].datasetID
      && s.reply.volume.clientHost == node && s.run.left + 2 >= budget
  {
    var v := rows[id];
    InitialHasNoPaths(hosts, v, b, w, server, node);
    ConnectLeft(hosts, v, w, node, budget);
    hide Handle, Serve, Effective, Up, Lifecycle;
    ConnectGoes(hosts, v, w, server, node, budget);
    CallKeepsKind(Connect(node), hosts, v, w, budget);
    ServeStaysUp(Connect(node), hosts, rows, id, b, w, server, node, budget);
  }

  lemma ConnectLeft(hosts: Hosts, v: Volume, w: World, node: string, budget: nat)
    ensures Handle(Connect(node), hosts, v, w, budget).run.left + 2 >= budget
  {
    var plan := ConnectPlan(hosts, v, node);
    if plan.Act? {
      assert |plan.script| == 2;
      ExecuteIsPrefix(plan.script, w, budget);
    }
    hide Execute, ConnectPlan;
  }

  lemma UpBacking(hosts: Hosts, v: Volume, b: World, w: World, server: string, node: string)
    requires Up(hosts, v, b, w, server, node) && v.IsConnected()
    ensures Backing(w, v.clientHost, TargetOf(hosts, v)).Some?
  {
    hide Placed, BuiltOn, SameElsewhere, TargetOf, Backing;
    BuiltBacking(hosts, v, b, w);
  }

  lemma StageUp(hosts: Hosts, rows: Table, id: string, b: World, w: World, server: string, node: string,
                path: string, budget: nat)
    requires Holds(hosts, rows, id, b, w, server, node) && rows[id].status == CONNECTED && path != "" && budget >= 5
    ensures var r := Alone(StageStage(id, path), hosts, rows, w, budget);
      && r.reply == Succeeded && Holds(hosts, r.rows, id, b, r.world, server, node)
      && r.rows == rows[id := r.rows[id]] && r.rows[id].status == STAGED && r.rows[id].stagingPath == path
      && r.rows[id].targetPaths == [] && r.rows[id].datasetID == rows[id].datasetID
  {
    var v := rows[id];
    InitialHasNoPaths(hosts, v, b, w, server, node);
    hide Handle, Alone, Effective, Up, Serve, Lifecycle, Answer;
    CallSends(StageStage(id, path), id, Stage(path), hosts, rows, w, budget);
    UpBacking(hosts, v, b, w, server, node);
    StageGoes(hosts, v, w, server, node, path, budget);
    CallKeepsKind(Stage(path), hosts, v, w, budget);
    ServeStaysUp(Stage(path), hosts, rows, id, b, w, server, node, budget);
    var s := Serve(Stage(path), id, hosts, rows, w, budget);
    AloneEnds(Succeeded, hosts, s.rows, s.run.world, s.run.left);
  }

  lemma ConnectStageUp(hosts: Hosts, rows: Table, id: string, b: World, w: World, server: string, node: string,
                       path: string, budget: nat)
    requires Holds(hosts, rows, id, b, w, server, node) && rows[id].status == PUBLISHED && path != "" && budget >= 7
    ensures var r := Alone(StageConnect(id, node, path), hosts, rows, w, budget);
      && r.reply == Succeeded && Holds(hosts, r.rows, id, b, r.world, server, node)
      && r.rows == rows[id := r.rows[id]] && r.rows[id].status == STAGED && r.rows[id].stagingPath == path
      && r.rows[id].targetPaths == [] && r.rows[id].datasetID == rows[id].datasetID
  {
    hide Handle, Alone, Effective, Up, Serve, Lifecycle, Answer;
    CallSends(StageConnect(id, node, path), id, Connect(node), hosts, rows, w, budget);
    ConnectUp(hosts, rows, id, b, w, server, node, budget);
    var s := Serve(Connect(node), id, hosts, rows, w, budget);
    StageUp(hosts, s.rows, id, b, s.run.world, server, node, path, s.run.left);
  }

  /** NodeStageVolume connects the volume, if it has been logged out, and mounts the device. */
  lemma NodeStageGoes(hosts: Hosts, rows: Table, id: string, b: World, w: World, server: string, node: string,
                      path: string, budget: nat)
    requires Holds(hosts, rows, id, b, w, server, node) && PUBLISHED <= rows[id].status <= CONNECTED
    requires path != "" && budget >= (if rows[id].status == PUBLISHED then 7 else 5)
    ensures var r := Alone(StageGet(id, node, path), hosts, rows, w, budget);
      && r.reply == Succeeded && Holds(hosts, r.rows, id, b, r.world, server, node)
      && r.rows == rows[id := r.rows[id]] && r.rows[id].status == STAGED && r.rows[id].stagingPath == path
      && r.rows[id].targetPaths == [] && r.rows[id].datasetID == rows[id].datasetID
  {
    hide Handle, Alone, Effective, Up, Serve, Lifecycle, Answer;
    InitialHasNoPaths(hosts, rows[id], b, w, server, node);
    GetSends(StageGet(id, node, path), id, hosts, rows, w, budget);
    if rows[id].status == CONNECTED {
      StageUp(hosts, rows, id, b, w, server, node, path, budget);
    } else {
      ConnectStageUp(hosts, rows, id, b, w, server, node, path, budget);
    }
  }

  /** NodePublishVolume binds one more path. */
  lemma NodePublishGoes(hosts: Hosts, rows: Table, id: string, b: World, w: World, server: string, node: string,
                        path: string, budget: nat)
    requires Holds(hosts, rows, id, b, w, server, node) && rows[id].IsStaged() && budget >= 3
    requires path != "" && path != rows[id].stagingPath && path !in rows[id].targetPaths
    ensures var r := Alone(MountCall(id, path), hosts, rows, w, budget);
      && r.reply == Succeeded && Holds(hosts, r.rows, id, b, r.world, server, node)
      && r.rows == rows[id := r.rows[id]] && r.rows[id].IsStaged() && r.rows[id].stagingPath == rows[id].stagingPath
      && r.rows[id].targetPaths == rows[id].targetPaths + [path] && r.rows[id].datasetID == rows[id].datasetID
  {
    var v := rows[id];
    InitialHasNoPaths(hosts, v, b, w, server, node);
    hide Handle, Alone, Effective, Up, Serve, Lifecycle, Answer;
    CallSends(MountCall(id, path), id, Mount(path), hosts, rows, w, budget);
    MountGoes(hosts, v, w, path, budget);
    CallKeepsKind(Mount(path), hosts, v, w, budget);
    ServeStaysUp(Mount(path), hosts, rows, id, b, w, server, node, budget);
    var s := Serve(Mount(path), id, hosts, rows, w, budget);
    AloneEnds(Succeeded, hosts, s.rows, s.run.world, s.run.left);
  }

  /** NodeUnpublishVolume unbinds a path. */
  lemma NodeUnpublishGoes(hosts: Hosts, rows: Table, id: string, b: World, w: World, server: string, node: string,
                          path: string, budget: nat)
    requires Holds(hosts, rows, id, b, w, server, node) && path in rows[id].targetPaths && budget >= 1
    ensures var r := Alone(UnmountCall(id, path), hosts, rows, w, budget);
      && r.reply == Succeeded && Holds(hosts, r.rows, id, b, r.world, server, node)
      && r.rows == rows[id := r.rows[id]] && r.rows[id].IsStaged()
      && (forall p :: p in r.rows[id].targetPaths <==> p in rows[id].targetPaths && p != path)
      && r.rows[id].datasetID == rows[id].datasetID
  {
    var v := rows[id];
    UnmountAffords(hosts, v, b, w, server, node, path);
    hide Handle, Alone, Effective, Up, Serve, Lifecycle, Answer, IndexOf, Without;
    CallSends(UnmountCall(id, path), id, Unmount(path), hosts, rows, w, budget);
    UnmountGoes(hosts, v, w, path, budget);
    CallKeepsKind(Unmount(path), hosts, v, w, budget);
    ServeStaysUp(Unmount(path), hosts, rows, id, b, w, server, node, budget);
    var s := Serve(Unmount(path), id, hosts, rows, w, budget);
    AloneEnds(Succeeded, hosts, s.rows, s.run.world, s.run.left);
  }

  lemma UnmountAffords(hosts: Hosts, v: Volume, b: World, w: World, server: string, node: string, path: string)
    requires Up(hosts, v, b, w, server, node) && path in v.targetPaths
    ensures v.status == MOUNTED && v.transport.Payload().Some? && Lifecycle(hosts, v)
    ensures forall p :: p in Without(v.targetPaths, IndexOf(v.targetPaths, path)) <==> p in v.targetPaths && p != path
  {
    WithoutIsRemoval(v.targetPaths, path);
    hide BuiltOn, IndexOf, Without;
  }

  /** NodeUnstageVolume unmounts the device, if it is mounted, and logs the node out. */
  lemma NodeUnstageGoes(hosts: Hosts, rows: Table, id: string, b: World, w: World, server: string, node: string,
                        budget: nat)
    requires Holds(hosts, rows, id, b, w, server, node) && rows[id].IsConnected() && rows[id].targetPaths == []
    requires budget >= 3
    ensures var r := Alone(UnstageGet(id, node), hosts, rows, w, budget);
      && r.reply == Succeeded && Holds(hosts, r.rows, id, b, r.world, server, node)
      && r.rows == rows[id := r.rows[id]] && r.rows[id].status == PUBLISHED && r.rows[id].targetPaths == []
      && r.rows[id].datasetID == rows[id].datasetID && r.rows[id].clientHost == node
  {
    hide Handle, Alone, Effective, Up, Serve, Lifecycle, Answer;
    GetSends(UnstageGet(id, node), id, hosts, rows, w, budget);
    InitialHasNoPaths(hosts, rows[id], b, w, server, node);
    if rows[id].IsStaged() {
      StagedOnly(hosts, rows[id], b, w, server, node);
      UnstageUp(hosts, rows, id, b, w, server, node, budget);
      CallSends(UnstageUnstage(id, true), id, Unstage, hosts, rows, w, budget);
      var s := Serve(Unstage, id, hosts, rows, w, budget);
      LogoutGoes(hosts, s.rows, id, b, s.run.world, server, node, s.run.left);
    } else {
      LogoutGoes(hosts, rows, id, b, w, server, node, budget);
    }
  }

  lemma UnstageUp(hosts: Hosts, rows: Table, id: string, b: World, w: World, server: string, node: string, budget: nat)
    requires Holds(hosts, rows, id, b, w, server, node) && rows[id].status == STAGED && budget >= 1
    ensures var s := Serve(Unstage, id, hosts, rows, w, budget);
      && s.reply.Ok? && Holds(hosts, s.rows, id, b, s.run.world, server, node) && s.rows == rows[id := s.rows[id]]
      && s.rows[id].status == CONNECTED && s.rows[id].datasetID == rows[id].datasetID && s.run.left == budget - 1
  {
    var v := rows[id];
    InitialHasNoPaths(hosts, v, b, w, server, node);
    hide Handle, Serve, Effective, Up, Lifecycle;
    UnstageGoes(hosts, v, w, budget);
    CallKeepsKind(Unstage, hosts, v, w, budget);
    ServeStaysUp(Unstage, hosts, rows, id, b, w, server, node, budget);
  }

  lemma LogoutGoes(hosts: Hosts, rows: Table, id: string, b: World, w: World, server: string, node: string, budget: nat)
    requires Holds(hosts, rows, id, b, w, server, node) && rows[id].status == CONNECTED && budget >= 2
    ensures var r := Alone(UnstageDisconnect(id), hosts, rows, w, budget);
      && r.reply == Succeeded && Holds(hosts, r.rows, id, b, r.world, server, node)
      && r.rows == rows[id := r.rows[id]] && r.rows[id].status == PUBLISHED && r.rows[id].targetPaths == []
      && r.rows[id].datasetID == rows[id].datasetID && r.rows[id].clientHost == node
  {
    var v := rows[id];
    InitialHasNoPaths(hosts, v, b, w, server, node);
    hide Handle, Alone, Effective, Up, Serve, Lifecycle, Answer;
    CallSends(UnstageDisconnect(id), id, Disconnect, hosts, rows, w, budget);
    DisconnectGoes(hosts, v, w, server, node, budget);
    CallKeepsKind(Disconnect, hosts, v, w, budget);
    ServeStaysUp(Disconnect, hosts, rows, id, b, w, server, node, budget);
    var t := Serve(Disconnect, id, hosts, rows, w, budget);
    AloneEnds(Succeeded, hosts, t.rows, t.run.world, t.run.left);
  }

  lemma StagedOnly(hosts: Hosts, v: Volume, b: World, w: World, server: string, node: string)
    requires Up(hosts, v, b, w, server, node) && v.IsStaged() && v.targetPaths == []
    ensures v.status == STAGED && v.clientHost == node && v.transport.Payload().Some? && Lifecycle(hosts, v)
  {
  }

  // -- Taking it down -------------------------------------------------------------------

  /** Only the zvol and its filesystem are left over the base world. */
  ghost predicate Down(hosts: Hosts, v: Volume, b: World, w: World, server: string) {
    && v.status == INITIAL && v.serverHost == server && Lookup(hosts, server).Some? && v.targetPaths == []
    && BuiltOn(hosts, v, b, w) && SameElsewhere(At(server, v.datasetID), b, w)
  }

  lemma UnpublishDown(hosts: Hosts, v: Volume, b: World, w: World, server: string, node: string, budget: nat)
    requires Up(hosts, v, b, w, server, node) && v.status == PUBLISHED && budget >= 1
    ensures var o := Handle(Unpublish, hosts, v, w, budget);
      && o.reply.Ok? && Down(hosts, o.volume, b, o.run.world, server)
      && o.volume.id == v.id && o.volume.datasetID == v.datasetID
  {
    var u := Handle(Unpublish, hosts, v, w, budget).volume;
    UnpublishGoes(hosts, v, w, budget);
    UnpublishRow(hosts, v, w, budget);
    hide Handle, Lifecycle, BuiltOn, SameElsewhere, Effect;
    CallBuilds(Unpublish, hosts, v, b, w, budget);
    CallHasEffect(Unpublish, hosts, v, w, budget);
    EffectElsewhere(Unpublish, hosts, v, u, b, w, server);
  }

  lemma UnpublishRow(hosts: Hosts, v: Volume, w: World, budget: nat)
    requires Lifecycle(hosts, v) && v.status == PUBLISHED && Effective(Unpublish, hosts, v, w, budget)
    ensures var o := Handle(Unpublish, hosts, v, w, budget);
      o.reply.Ok? && o.volume == v.(status := INITIAL, transport := Bare(Unspecified)) && v.targetPaths == []
    ensures Lookup(hosts, v.serverHost).Some?
  {
    CallMoves(Unpublish, hosts, v, w, budget);
    hide PlanOf, Execute, Persist;
  }

  lemma UnexportGoes(hosts: Hosts, rows: Table, id: string, b: World, w: World, server: string, node: string,
                     budget: nat)
    requires Holds(hosts, rows, id, b, w, server, node) && rows[id].status == PUBLISHED && budget >= 1
    ensures var r := Alone(DetachUnpublish(id), hosts, rows, w, budget);
      && r.reply == Succeeded && id in r.rows && r.rows == rows[id := r.rows[id]]
      && Down(hosts, r.rows[id], b, r.world, server) && r.rows[id].datasetID == rows[id].datasetID
  {
    hide Handle, Alone, Up, Answer, Down;
    UnpublishDown(hosts, rows[id], b, w, server, node, budget);
    CallSends(DetachUnpublish(id), id, Unpublish, hosts, rows, w, budget);
    var s := Serve(Unpublish, id, hosts, rows, w, budget);
    AloneEnds(Succeeded, hosts, s.rows, s.run.world, s.run.left);
  }

  lemma DisconnectUp(hosts: Hosts, rows: Table, id: string, b: World, w: World, server: string, node: string,
                     budget: nat)
    requires Holds(hosts, rows, id, b, w, server, node) && rows[id].status == CONNECTED && budget >= 3
    ensures var s := Serve(Disconnect, id, hosts, rows, w, budget);
      && s.reply.Ok? && Holds(hosts, s.rows, id, b, s.run.world, server, node) && s.rows == rows[id := s.rows[id]]
      && s.rows[id].status == PUBLISHED && s.rows[id].datasetID == rows[id].datasetID && s.run.left >= 1
  {
    var v := rows[id];
    InitialHasNoPaths(hosts, v, b, w, server, node);
    DisconnectLeft(hosts, v, w, budget);
    hide Handle, Serve, Effective, Up, Lifecycle;
    DisconnectGoes(hosts, v, w, server, node, budget);
    CallKeepsKind(Disconnect, hosts, v, w, budget);
    ServeStaysUp(Disconnect, hosts, rows, id, b, w, server, node, budget);
  }

  lemma DisconnectLeft(hosts: Hosts, v: Volume, w: World, budget: nat)
    requires budget >= 3
    ensures Handle(Disconnect, hosts, v, w, budget).run.left >= 1
  {
    var plan := DisconnectPlan(hosts, v);
    if plan.Act? {
      assert |plan.script| == 2;
      ExecuteIsPrefix(plan.script, w, budget);
    }
    hide Execute, DisconnectPlan;
  }

  /** ControllerUnpublishVolume on the volume's node logs it out, if it is attached, and takes the target away. */
  lemma DetachGoes(hosts: Hosts, rows: Table, id: string, b: World, w: World, server: string, node: string, budget: nat)
    requires Holds(hosts, rows, id, b, w, server, node) && PUBLISHED <= rows[id].status <= CONNECTED
    requires rows[id].clientHost == node && budget >= 3
    ensures var r := Alone(DetachGet(id, node), hosts, rows, w, budget);
      && r.reply == Succeeded && id in r.rows && r.rows == rows[id := r.rows[id]]
      && Down(hosts, r.rows[id], b, r.world, server) && r.rows[id].datasetID == rows[id].datasetID
  {
    hide Handle, Alone, Up, Answer, Down, Serve;
    GetSends(DetachGet(id, node), id, hosts, rows, w, budget);
    if rows[id].status == CONNECTED {
      DisconnectUp(hosts, rows, id, b, w, server, node, budget);
      CallSends(DetachDisconnect(id), id, Disconnect, hosts, rows, w, budget);
      var s := Serve(Disconnect, id, hosts, rows, w, budget);
      UnexportGoes(hosts, s.rows, id, b, s.run.world, server, node, s.run.left);
    } else {
      UnexportGoes(hosts, rows, id, b, w, server, node, budget);
    }
  }

  /** With its zvol destroyed, nothing of the volume is left. */
  lemma DownIsBase(hosts: Hosts, v: Volume, b: World, w: World, server: string)
    requires Down(hosts, v, b, w, server) && NoEmptyStacks(b.mounts)
    requires At(server, v.datasetID) !in b.zvols && At(server, v.datasetID) !in b.filesystems
    ensures Apply(DestroyZvol(server, v.datasetID), w) == b
  {
    var key := At(server, v.datasetID);
    assert b.zvols - {key} == b.zvols && b.filesystems - {key} == b.filesystems;
    forall h, p ensures MountsAt(w.mounts, h, p) == MountsAt(b.mounts, h, p) {
      assert MountsAt(b.mounts, h, p) + [] == MountsAt(b.mounts, h, p);
    }
    MountsExtensional(w.mounts, b.mounts);
  }

  /** DeleteVolume destroys the zvol and the row. */
  lemma DeleteGoes(hosts: Hosts, rows: Table, id: string, b: World, w: World, server: string, budget: nat)
    requires id in rows && Down(hosts, rows[id], b, w, server) && NoEmptyStacks(b.mounts) && budget >= 1
    requires At(server, rows[id].datasetID) !in b.zvols && At(server, rows[id].datasetID) !in b.filesystems
    ensures Alone(DeleteCall(id), hosts, rows, w, budget) == CsiResult(rows - {id}, b, budget - 1, Succeeded)
  {
    DownIsBase(hosts, rows[id], b, w, server);
    ExecuteOne(DestroyZvol(server, rows[id].datasetID), w, budget);
    hide Execute, Alone, BuiltOn, SameElsewhere, Apply;
    AloneSends(DeleteCall(id), hosts, rows, w, budget);
    AloneEnds(Succeeded, hosts, rows - {id}, b, budget - 1);
  }

  // -- The whole journey ----------------------------------------------------------------

  datatype Journey = Journey(rows: Table, world: World, ok: bool)

  /** CSI calls one after the other, until one fails. */
  function RunAll(tasks: seq<Task>, hosts: Hosts, rows: Table, w: World, budget: nat): Journey
    decreases |tasks|
  {
    if tasks == [] then Journey(rows, w, true)
    else
      var r := Alone(tasks[0], hosts, rows, w, budget);
      if r.reply != Succeeded then Journey(r.rows, r.world, false)
      else RunAll(tasks[1..], hosts, r.rows, r.world, budget)
  }

  lemma {:induction false} RunAllAppend(a: seq<Task>, b: seq<Task>, hosts: Hosts, rows: Table, w: World, budget: nat)
    ensures var first := RunAll(a, hosts, rows, w, budget);
      RunAll(a + b, hosts, rows, w, budget)
        == if first.ok then RunAll(b, hosts, first.rows, first.world, budget) else first
    decreases |a|
  {
    hide Alone;
    if a == [] {
      assert a + b == b;
    } else {
      assert (a + b)[1..] == a[1..] + b && (a + b)[0] == a[0];
      var r := Alone(a[0], hosts, rows, w, budget);
      RunAllAppend(a[1..], b, hosts, r.rows, r.world, budget);
    }
  }

  function Binds(id: string, paths: seq<string>): seq<Task> {
    seq(|paths|, i requires 0 <= i < |paths| => MountCall(id, paths[i]))
  }

  function Unbinds(id: string, paths: seq<string>): seq<Task> {
    seq(|paths|, i requires 0 <= i < |paths| => UnmountCall(id, paths[i]))
  }

  ghost predicate FreshPaths(v: Volume, paths: seq<string>) {
    NoDuplicates(paths) && forall p :: p in paths ==> p != "" && p != v.stagingPath && p !in v.targetPaths
  }

  lemma {:induction false} BindsGo(hosts: Hosts, rows: Table, id: string, b: World, w: World,
                                   server: string, node: string, paths: seq<string>, budget: nat)
    requires Holds(hosts, rows, id, b, w, server, node) && rows[id].IsStaged() && budget >= 3
    requires FreshPaths(rows[id], paths)
    ensures var j := RunAll(Binds(id, paths), hosts, rows, w, budget);
      && j.ok && Holds(hosts, j.rows, id, b, j.world, server, node) && j.rows == rows[id := j.rows[id]]
      && j.rows[id].IsStaged() && j.rows[id].targetPaths == rows[id].targetPaths + paths
      && j.rows[id].datasetID == rows[id].datasetID
    decreases |paths|
  {
    hide Alone, Up;
    if paths == [] {
      assert rows[id].targetPaths + [] == rows[id].targetPaths && rows[id := rows[id]] == rows;
    } else {
      var path := paths[0];
      assert path in paths;
      NodePublishGoes(hosts, rows, id, b, w, server, node, path, budget);
      var r := Alone(MountCall(id, path), hosts, rows, w, budget);
      assert Binds(id, paths)[1..] == Binds(id, paths[1..]);
      FreshTail(rows[id], r.rows[id], paths);
      BindsGo(hosts, r.rows, id, b, r.world, server, node, paths[1..], budget);
      assert rows[id].targetPaths + [path] + paths[1..] == rows[id].targetPaths + paths;
    }
  }

  lemma FreshTail(v: Volume, u: Volume, paths: seq<string>)
    requires paths != [] && FreshPaths(v, paths)
    requires u.stagingPath == v.stagingPath && u.targetPaths == v.targetPaths + [paths[0]]
    ensures FreshPaths(u, paths[1..])
  {
    TailAvoidsHead(paths);
  }

  lemma {:induction false} UnbindsGo(hosts: Hosts, rows: Table, id: string, b: World, w: World,
                                     server: string, node: string, order: seq<string>, budget: nat)
    requires Holds(hosts, rows, id, b, w, server, node) && rows[id].IsStaged() && budget >= 1
    requires NoDuplicates(order) && forall p :: p in order ==> p in rows[id].targetPaths
    ensures var j := RunAll(Unbinds(id, order), hosts, rows, w, budget);
      && j.ok && Holds(hosts, j.rows, id, b, j.world, server, node) && j.rows == rows[id := j.rows[id]]
      && j.rows[id].IsStaged() && j.rows[id].datasetID == rows[id].datasetID
      && forall p :: p in j.rows[id].targetPaths <==> p in rows[id].targetPaths && p !in order
    decreases |order|
  {
    hide Alone, Up;
    if order == [] {
      assert rows[id := rows[id]] == rows;
    } else {
      var path := order[0];
      NodeUnpublishGoes(hosts, rows, id, b, w, server, node, path, budget);
      var r := Alone(UnmountCall(id, path), hosts, rows, w, budget);
      assert Unbinds(id, order)[1..] == Unbinds(id, order[1..]);
      TailAvoidsHead(order);
      UnbindsGo(hosts, r.rows, id, b, r.world, server, node, order[1..], budget);
    }
  }

  function BringUp(id: string, server: string, node: string, staging: string, paths: seq<string>): seq<Task> {
    [AttachGet(id, node, server)] + ([StageGet(id, node, staging)] + Binds(id, paths))
  }

  function TakeDown(id: string, node: string, order: seq<string>): seq<Task> {
    Unbinds(id, order) + ([UnstageGet(id, node)] + ([DetachGet(id, node)] + [DeleteCall(id)]))
  }

  lemma RunAllFirst(t: Task, rest: seq<Task>, hosts: Hosts, rows: Table, w: World, budget: nat)
    ensures var r := Alone(t, hosts, rows, w, budget);
      r.reply == Succeeded ==>
        RunAll([t] + rest, hosts, rows, w, budget) == RunAll(rest, hosts, r.rows, r.world, budget)
  {
    assert ([t] + rest)[1..] == rest;
    hide Alone;
  }

  lemma BringUpGoes(hosts: Hosts, rows: Table, id: string, b: World, w: World, server: string, node: string,
                    staging: string, paths: seq<string>, budget: nat)
    requires Holds(hosts, rows, id, b, w, server, node) && rows[id].status == INITIAL && budget >= 5
    requires staging != "" && NoDuplicates(paths) && forall p :: p in paths ==> p != "" && p != staging
    ensures var j := RunAll(BringUp(id, server, node, staging, paths), hosts, rows, w, budget);
      && j.ok && Holds(hosts, j.rows, id, b, j.world, server, node) && j.rows == rows[id := j.rows[id]]
      && j.rows[id].IsStaged() && j.rows[id].targetPaths == paths && j.rows[id].datasetID == rows[id].datasetID
  {
    hide Alone, Up, Binds;
    var attach, stage, binds := AttachGet(id, node, server), StageGet(id, node, staging), Binds(id, paths);
    AttachGoes(hosts, rows, id, b, w, server, node, budget);
    RunAllFirst(attach, [stage] + binds, hosts, rows, w, budget);
    var r := Alone(attach, hosts, rows, w, budget);
    NodeStageGoes(hosts, r.rows, id, b, r.world, server, node, staging, budget);
    RunAllFirst(stage, binds, hosts, r.rows, r.world, budget);
    var s := Alone(stage, hosts, r.rows, r.world, budget);
    BindsGo(hosts, s.rows, id, b, s.world, server, node, paths, budget);
    assert [] + paths == paths;
  }

  lemma TakeDownGoes(hosts: Hosts, rows: Table, id: string, b: World, w: World, server: string, node: string,
                     order: seq<string>, budget: nat)
    requires Holds(hosts, rows, id, b, w, server, node) && rows[id].IsStaged() && budget >= 5
    requires NoDuplicates(order) && forall p :: p in order <==> p in rows[id].targetPaths
    requires NoEmptyStacks(b.mounts)
    requires At(server, rows[id].datasetID) !in b.zvols && At(server, rows[id].datasetID) !in b.filesystems
    ensures RunAll(TakeDown(id, node, order), hosts, rows, w, budget) == Journey(rows - {id}, b, true)
  {
    hide Alone, Up, Unbinds, Down, NoEmptyStacks, NoDuplicates;
    var unstage, detach, delete := UnstageGet(id, node), DetachGet(id, node), DeleteCall(id);
    UnbindsGo(hosts, rows, id, b, w, server, node, order, budget);
    RunAllAppend(Unbinds(id, order), [unstage] + ([detach] + [delete]), hosts, rows, w, budget);
    var j := RunAll(Unbinds(id, order), hosts, rows, w, budget);
    assert j.rows[id].targetPaths == [] by {
      NoneLeft(j.rows[id].targetPaths, rows[id].targetPaths, order);
    }
    NodeUnstageGoes(hosts, j.rows, id, b, j.world, server, node, budget);
    RunAllFirst(unstage, [detach] + [delete], hosts, j.rows, j.world, budget);
    var r := Alone(unstage, hosts, j.rows, j.world, budget);
    DetachGoes(hosts, r.rows, id, b, r.world, server, node, budget);
    RunAllFirst(detach, [delete], hosts, r.rows, r.world, budget);
    var s := Alone(detach, hosts, r.rows, r.world, budget);
    DeleteGoes(hosts, s.rows, id, b, s.world, server, budget);
    RunAllFirst(delete, [], hosts, s.rows, s.world, budget);
    assert [delete] + [] == [delete];
    assert s.rows - {id} == rows - {id};
  }

  lemma SomeMember(s: seq<string>)
    requires s != []
    ensures exists p :: p in s
  {
    assert s[0] in s;
  }

  lemma NoneLeft(left: seq<string>, paths: seq<string>, order: seq<string>)
    requires forall p :: p in left <==> p in paths && p !in order
    requires forall p :: p in order <==> p in paths
    ensures left == []
  {
    if left != [] {
      SomeMember(left);
    }
  }

  /**
   * Created, brought up on a node with any number of mounts, and taken down again with
   * the mounts undone in any order, a volume leaves no row behind and the hosts exactly
   * as they were, whatever else was on them.
   */
  lemma RoundTripLeavesNoTrace(hosts: Hosts, volume: ApiVolume, rows: Table, b: World, server: string, node: string,
                               staging: string, paths: seq<string>, order: seq<string>, budget: nat)
    requires volume.id !in rows && ColonFree(volume.id) && volume.capacityBytes > 0 && volume.transport.Some?
    requires volume.serverHost.None? && volume.clientHost.None? && volume.stagingPath.None? && volume.targetPaths == []
    requires NothingOf(volume.id, b) && NoEmptyStacks(b.mounts)
    requires At(server, volume.datasetID) !in b.zvols && At(server, volume.datasetID) !in b.filesystems
    requires Deployable(hosts, volume.transport.value, server, node)
    requires staging != "" && NoDuplicates(paths) && (forall p :: p in paths ==> p != "" && p != staging)
    requires NoDuplicates(order) && forall p :: p in order <==> p in paths
    requires budget >= 5
    ensures var c := Alone(CreateCall(volume), hosts, rows, b, budget);
      && c.reply.Sized? && volume.id in c.rows
      && RunAll(BringUp(volume.id, server, node, staging, paths) + TakeDown(volume.id, node, order),
                hosts, c.rows, c.world, budget)
           == Journey(rows, b, true)
  {
    hide *;
    var id, made := volume.id, Alone(CreateCall(volume), hosts, rows, b, budget).rows;
    var up, down := BringUp(id, server, node, staging, paths), TakeDown(id, node, order);
    CreatedHolds(hosts, volume, rows, b, server, node, budget);
    RunAllAppend(up, down, hosts, made, b, budget);
    BringUpGoes(hosts, made, id, b, b, server, node, staging, paths, budget);
    var j := RunAll(up, hosts, made, b, budget);
    TakeDownGoes(hosts, j.rows, id, b, j.world, server, node, order, budget);
    assert j.rows - {id} == rows;
  }

  lemma CreatedHolds(hosts: Hosts, volume: ApiVolume, rows: Table, b: World, server: string, node: string, budget: nat)
    requires volume.id !in rows && ColonFree(volume.id) && volume.capacityBytes > 0 && volume.transport.Some?
    requires volume.serverHost.None? && volume.clientHost.None? && volume.stagingPath.None? && volume.targetPaths == []
    requires NothingOf(volume.id, b) && NoEmptyStacks(b.mounts)
    requires Deployable(hosts, volume.transport.value, server, node)
    ensures var c := Alone(CreateCall(volume), hosts, rows, b, budget);
      && c.reply.Sized? && c.world == b && volume.id in c.rows && Holds(hosts, c.rows, volume.id, b, b, server, node)
      && c.rows - {volume.id} == rows
      && c.rows[volume.id].status == INITIAL && c.rows[volume.id].datasetID == volume.datasetID
  {
    CreateAlone(volume, hosts, rows, b, budget);
    CreatedIsUp(hosts, volume, b, server, node);
    hide Alone, Up, Deployable;
    assert rows[volume.id := FromApi(volume).(status := INITIAL)] - {volume.id} == rows;
  }

  lemma CreatedIsUp(hosts: Hosts, volume: ApiVolume, b: World, server: string, node: string)
    requires ColonFree(volume.id) && volume.transport.Some? && Deployable(hosts, volume.transport.value, server, node)
    requires volume.serverHost.None? && volume.clientHost.None? && volume.stagingPath.None? && volume.targetPaths == []
    requires NothingOf(volume.id, b) && NoEmptyStacks(b.mounts)
    ensures var v := FromApi(volume).(status := INITIAL); Up(hosts, v, b, b, server, node)
  {
    var v := FromApi(volume).(status := INITIAL);
    CreateStartsLifecycle(hosts, volume);
    assert BuiltOn(hosts, v, b, b) by {
      hide Lifecycle, Owns, MountsAt;
      forall stack: seq<Source> ensures stack + [] == stack {
      }
    }
    hide Lifecycle, BuiltOn, Deployable;
  }
}
