/**
 * An unstaged volume keeps its staging path in the database. What that leads to: mounts
 * stacked on the path, and a Sync that unmounts another volume.
 */
module StaleStagings {
  import opened Names
  import opened Volumes
  import opened Clusters
  import opened Conversions
  import opened Plans
  import opened VolumeServices
  import opened Lifecycles
  import opened Transports
  import opened Links
  import opened Agreements
  import opened Syncers
  import opened SyncLinks
  import opened Reconciliations
  import opened SyncAgreements
  import opened Fleets
  import opened Nestings
  import opened FleetRuns
  import opened Builds
  import opened Rebuilds
  import opened RoundTrips

  /** Commands a call below may run: enough for each to succeed. */
  const AMPLE: nat := 5

  /** The row's links agree, and while connected there is a device to stage. */
  ghost predicate Ready(hosts: Hosts, v: Volume, w: World, server: string, node: string) {
    && Placed(hosts, v, server, node) && LinksAgree(hosts, v, w)
    && (v.IsConnected() ==> Backing(w, v.clientHost, TargetOf(hosts, v)).Some?)
  }

  /** The calls that take a ready row forward or back. */
  predicate InTurn(op: Op, v: Volume, server: string, node: string) {
    match op
    case Publish(kind, host) => v.status == INITIAL && kind == v.transport.kind && host == server
    case Connect(host) => v.status == PUBLISHED && host == node
    case Disconnect => CONNECTED <= v.status <= STAGED
    case Stage(path) => v.status == CONNECTED && path != ""
    case Unstage => v.status == STAGED
    case _ => false
  }

  lemma InTurnGoes(op: Op, hosts: Hosts, v: Volume, w: World, server: string, node: string)
    requires Ready(hosts, v, w, server, node) && InTurn(op, v, server, node)
    ensures Effective(op, hosts, v, w, AMPLE) && Validated(op)
    ensures var u := Handle(op, hosts, v, w, AMPLE).volume;
      (op.Publish? ==> u.transport.Payload().Some? && u.transport.kind == Concrete(v.transport.kind))
      && (op.Connect? || op.Disconnect? ==> u.transport.Payload().Some?)
  {
    assert Lifecycle(hosts, v);
    hide Ready, Placed, Effective, Handle, Lifecycle, LinksAgree, Backing, TargetOf;
    match op
    case Publish(kind, host) =>
      ReadyFields(hosts, v, w, server, node);
      PublishGoes(hosts, v, w, server, node, AMPLE);
    case Connect(host) =>
      ReadyFields(hosts, v, w, server, node);
      ConnectGoes(hosts, v, w, server, node, AMPLE);
    case Disconnect =>
      ReadyFields(hosts, v, w, server, node);
      DisconnectGoes(hosts, v, w, server, node, AMPLE);
    case Stage(path) =>
      ReadyFields(hosts, v, w, server, node);
      StageGoes(hosts, v, w, server, node, path, AMPLE);
    case Unstage => UnstageGoes(hosts, v, w, AMPLE);
    case _ =>
  }

  lemma ReadyFields(hosts: Hosts, v: Volume, w: World, server: string, node: string)
    requires Ready(hosts, v, w, server, node)
    ensures Placed(hosts, v, server, node) && LinksAgree(hosts, v, w) && Lifecycle(hosts, v)
    ensures v.IsConnected() ==> Backing(w, v.clientHost, TargetOf(hosts, v)).Some?
    ensures INITIAL <= v.status <= MOUNTED && (v.status < MOUNTED ==> v.targetPaths == [])
  {
  }

  /** After an effective connect there is a device on the client. */
  lemma ConnectBacks(hosts: Hosts, v: Volume, u: Volume, w: World)
    requires LinksAgree(hosts, v, w) && v.IsPublished() && Moves(Connect(u.clientHost), v, u)
    ensures Backing(Effect(Connect(u.clientHost), hosts, v, u, w), u.clientHost, TargetOf(hosts, u)).Some?
  {
    assert TargetOf(hosts, u) == TargetOf(hosts, v);
    hide TargetOf, InitiatorOf, Owns;
  }

  lemma StagingKeepsBacking(hosts: Hosts, v: Volume, u: Volume, w: World, w1: World)
    requires Backing(w, v.clientHost, TargetOf(hosts, v)).Some? && SameTarget(v, u)
    requires w1.targets == w.targets && w1.sessions == w.sessions
    ensures Backing(w1, u.clientHost, TargetOf(hosts, u)).Some?
  {
    assert TargetOf(hosts, u) == TargetOf(hosts, v);
    hide TargetOf;
  }

  lemma InTurnBacks(op: Op, hosts: Hosts, v: Volume, w: World, server: string, node: string)
    requires Ready(hosts, v, w, server, node) && InTurn(op, v, server, node)
    requires Effective(op, hosts, v, w, AMPLE) && Moves(op, v, Handle(op, hosts, v, w, AMPLE).volume)
    ensures var o := Handle(op, hosts, v, w, AMPLE);
      o.volume.IsConnected() ==> Backing(o.run.world, o.volume.clientHost, TargetOf(hosts, o.volume)).Some?
  {
    var o := Handle(op, hosts, v, w, AMPLE);
    hide Ready, Placed, Effective, Handle, LinksAgree, Backing, TargetOf, Effect;
    ReadyFields(hosts, v, w, server, node);
    if op.Connect? {
      CallHasEffect(op, hosts, v, w, AMPLE);
      ConnectBacks(hosts, v, o.volume, w);
    } else if op.Stage? || op.Unstage? {
      CallSides(op, hosts, v, w, AMPLE);
      LifecycleStatus(hosts, v);
      MountMovesKeepTarget(op, v, o.volume);
      StagingKeepsBacking(hosts, v, o.volume, w, o.run.world);
    }
  }

  /** Each such call takes effect and leaves the row ready for the next. */
  lemma InTurnKeepsReady(op: Op, hosts: Hosts, v: Volume, w: World, server: string, node: string)
    requires Ready(hosts, v, w, server, node) && InTurn(op, v, server, node)
    ensures Effective(op, hosts, v, w, AMPLE) && Validated(op)
    ensures var o := Handle(op, hosts, v, w, AMPLE);
      Moves(op, v, o.volume) && Ready(hosts, o.volume, o.run.world, server, node)
  {
    var o := Handle(op, hosts, v, w, AMPLE);
    hide Effective, Handle, LinksAgree, Backing, TargetOf, Deployable, Lifecycle;
    InTurnGoes(op, hosts, v, w, server, node);
    LifecycleStatus(hosts, v);
    CallMoves(op, hosts, v, w, AMPLE);
    HandleKeepsLinks(op, hosts, v, w, AMPLE);
    InTurnBacks(op, hosts, v, w, server, node);
    CallKeepsKind(op, hosts, v, w, AMPLE);
    SameDeployable(hosts, v.transport.kind, o.volume.transport.kind, server, node);
  }

  // -- Mounts stacked on a stale path ---------------------------------------------------

  /** A disconnect of a staged volume leaves its device mounted; staging there again stacks another. */
  function Restaging(kind: TransportKind, server: string, node: string, path: string): seq<Op> {
    [Publish(kind, server)] + Round(node, path) + Round(node, path)
  }

  function Round(node: string, path: string): seq<Op> {
    [Connect(node), Stage(path), Disconnect]
  }

  function CallAll(ops: seq<Op>, hosts: Hosts, s: State): State
    decreases |ops|
  {
    if ops == [] then s
    else
      var o := Handle(ops[0], hosts, s.volume, s.world, AMPLE);
      CallAll(ops[1..], hosts, State(o.volume, o.run.world))
  }

  /** Every call of the run takes effect. */
  predicate AllEffective(ops: seq<Op>, hosts: Hosts, s: State)
    decreases |ops|
  {
    ops == [] ||
    (Effective(ops[0], hosts, s.volume, s.world, AMPLE) &&
     var o := Handle(ops[0], hosts, s.volume, s.world, AMPLE);
     AllEffective(ops[1..], hosts, State(o.volume, o.run.world)))
  }

  lemma {:induction false} CallAllAppend(a: seq<Op>, b: seq<Op>, hosts: Hosts, s: State)
    ensures CallAll(a + b, hosts, s) == CallAll(b, hosts, CallAll(a, hosts, s))
    ensures AllEffective(a + b, hosts, s) <==> AllEffective(a, hosts, s) && AllEffective(b, hosts, CallAll(a, hosts, s))
    decreases |a|
  {
    hide Handle, Effective;
    if a == [] {
      assert a + b == b;
    } else {
      var o := Handle(a[0], hosts, s.volume, s.world, AMPLE);
      assert (a + b)[1..] == a[1..] + b;
      CallAllAppend(a[1..], b, hosts, State(o.volume, o.run.world));
    }
  }

  lemma CallOne(op: Op, hosts: Hosts, v: Volume, w: World, server: string, node: string)
    requires Ready(hosts, v, w, server, node) && InTurn(op, v, server, node)
    ensures var s := CallAll([op], hosts, State(v, w));
      && AllEffective([op], hosts, State(v, w)) && Ready(hosts, s.volume, s.world, server, node)
      && Moves(op, v, s.volume)
      && s.world.mounts == MountsAfter(op, hosts, v, w, AMPLE)
      && Effective(op, hosts, v, w, AMPLE)
  {
    hide Ready, InTurn, Effective, Handle, Moves, MountsAfter;
    assert [op][1..] == [];
    ReadyFields(hosts, v, w, server, node);
    InTurnKeepsReady(op, hosts, v, w, server, node);
    CallMounts(op, hosts, v, w, AMPLE);
  }

  /** Each round leaves the row published with the path stored, and one more mount on it. */
  lemma RoundStacks(hosts: Hosts, v: Volume, w: World, server: string, node: string, path: string)
    requires Ready(hosts, v, w, server, node) && v.status == PUBLISHED && path != ""
    ensures var s := CallAll(Round(node, path), hosts, State(v, w));
      && AllEffective(Round(node, path), hosts, State(v, w)) && Ready(hosts, s.volume, s.world, server, node)
      && s.volume.status == PUBLISHED && s.volume.clientHost == node && s.volume.stagingPath == path
      && Height(s.world, node, path) == Height(w, node, path) + 1
  {
    hide Ready, Effective, Handle, MountsAt, Pushed, CallAll, AllEffective;
    var ops := Round(node, path);
    assert ops == [Connect(node)] + ([Stage(path)] + [Disconnect]);
    CallOne(Connect(node), hosts, v, w, server, node);
    var a := CallAll([Connect(node)], hosts, State(v, w));
    CallOne(Stage(path), hosts, a.volume, a.world, server, node);
    var b := CallAll([Stage(path)], hosts, a);
    CallOne(Disconnect, hosts, b.volume, b.world, server, node);
    PushedChanges(w.mounts, node, path, Device(TargetOf(hosts, a.volume)));
    CallAllAppend([Stage(path)], [Disconnect], hosts, a);
    CallAllAppend([Connect(node)], [Stage(path)] + [Disconnect], hosts, State(v, w));
  }

  /** Sync succeeds for a published row whose links agree, whatever is mounted. */
  lemma PublishedSyncSucceeds(hosts: Hosts, v: Volume, w: World, server: string, node: string, budget: nat)
    requires Ready(hosts, v, w, server, node) && v.status == PUBLISHED && v.clientHost == node
    requires hosts[server].connection.Remote? && budget >= 3
    ensures Sync(hosts, v, w, budget).reply == Done
  {
    var query := QueryZvol(v.serverHost, v.datasetID);
    var deny := Deny(v.serverHost, TargetOf(hosts, v), InitiatorOf(hosts, v));
    hide *;
    PublishedPhases(hosts, v, w, server, node);
    ReadyFields(hosts, v, w, server, node);
    SyncPhases(hosts, v, w, budget);
    PerformOne(query, w, budget);
    PerformNone(w, budget - 1);
    PerformNone(w, budget - 1);
    PerformOne(deny, w, budget - 1);
    var c := Perform(ConnectPhase(hosts, v, w), w, budget - 1).run;
    PublishedStagePhase(hosts, v, c.world, server, node);
    PerformNone(c.world, c.left);
    PerformOne(Umount(v.clientHost, v.stagingPath), c.world, c.left);
    var d := Perform(StagePhase(hosts, v, c.world), c.world, c.left).run;
    NothingToMount(hosts, v, d.world, d.left, server, node);
  }

  lemma PerformNone(w: World, budget: nat)
    ensures Perform(Go([]), w, budget) == Progress(Run(w, budget, [], true), Done)
  {
    ExecuteEmpty(w, budget);
  }

  lemma PerformOne(c: Command, w: World, budget: nat)
    requires budget > 0 && !c.FindDevice? && (c.Deny? ==> c.initiator != "")
    ensures var p := Perform(Go([c]), w, budget); p.reply == Done && p.run.left == budget - 1
    ensures !Mutates(c) ==> Perform(Go([c]), w, budget).run.world == w
  {
    hide Apply, Execute;
    ExecuteOne(c, w, budget);
    if !Mutates(c) {
      QueryChangesNothing(c, w);
    }
  }

  lemma PublishedPhases(hosts: Hosts, v: Volume, w: World, server: string, node: string)
    requires Ready(hosts, v, w, server, node) && v.status == PUBLISHED && v.clientHost == node
    requires hosts[server].connection.Remote?
    ensures var query := QueryZvol(v.serverHost, v.datasetID);
      var deny := Deny(v.serverHost, TargetOf(hosts, v), InitiatorOf(hosts, v));
      && ZfsPhase(hosts, v, w) == Go([query]) && !Mutates(query)
      && PublishPhase(hosts, v, w) == Go([])
      && (ConnectPhase(hosts, v, w) == Go([]) || ConnectPhase(hosts, v, w) == Go([deny]))
      && deny.initiator != ""
  {
    assert [QueryZvol(v.serverHost, v.datasetID)] + [] == [QueryZvol(v.serverHost, v.datasetID)];
    PublishIdle(hosts, v, w);
    assert ConnectPhase(hosts, v, w).Go?;
    ConnectRepairs(hosts, v, w);
    PrefixedNotEmpty(hosts[node].identifiers, "iqn.");
    PrefixedNotEmpty(hosts[node].identifiers, "nqn.");
  }

  lemma PublishedStagePhase(hosts: Hosts, v: Volume, w: World, server: string, node: string)
    requires Placed(hosts, v, server, node) && v.status == PUBLISHED && v.clientHost == node
    ensures StagePhase(hosts, v, w) == Go([]) || StagePhase(hosts, v, w) == Go([Umount(v.clientHost, v.stagingPath)])
  {
  }

  lemma NothingToMount(hosts: Hosts, v: Volume, w: World, budget: nat, server: string, node: string)
    requires Placed(hosts, v, server, node) && v.status == PUBLISHED && v.clientHost == node
    ensures MountPhase(hosts, v, w, budget).reply == Done
  {
  }

  /**
   * A run of successful calls on one volume stacks two mounts on a stale staging path, a
   * Sync then succeeds, and the next Sync still finds something to unmount.
   */
  lemma StackingIsReachable(hosts: Hosts, v: Volume, w: World, server: string, node: string, path: string, budget: nat)
    requires Ready(hosts, v, w, server, node) && v.status == INITIAL && path != ""
    requires hosts[server].connection.Remote? && budget >= 3
    ensures var ops := Restaging(v.transport.kind, server, node, path);
      var s := CallAll(ops, hosts, State(v, w));
      var p := Sync(hosts, s.volume, s.world, budget);
      && AllEffective(ops, hosts, State(v, w))
      && StackedStaging(s.volume, s.world) && p.reply == Done
      && !OnlyQueries(Sync(hosts, s.volume, p.run.world, 2).run.log)
  {
    hide Ready, CallAll, AllEffective, Sync, MountsAt, Round;
    var publish, round := Publish(v.transport.kind, server), Round(node, path);
    CallOne(publish, hosts, v, w, server, node);
    var a := CallAll([publish], hosts, State(v, w));
    RoundStacks(hosts, a.volume, a.world, server, node, path);
    var b := CallAll(round, hosts, a);
    RoundStacks(hosts, b.volume, b.world, server, node, path);
    var c := CallAll(round, hosts, b);
    CallAllAppend([publish], round, hosts, State(v, w));
    CallAllAppend([publish] + round, round, hosts, State(v, w));
    ReadyFields(hosts, c.volume, c.world, server, node);
    PublishedSyncSucceeds(hosts, c.volume, c.world, server, node, budget);
    SyncIdempotent(hosts, c.volume, c.world, budget, 2);
  }

  // -- A Sync that unmounts another volume ----------------------------------------------

  lemma {:induction false} FinishAppend(hosts: Hosts, f: Fleet, a: seq<FleetStep>, b: seq<FleetStep>)
    ensures Finish(hosts, f, a + b) == Finish(hosts, Finish(hosts, f, a), b)
    ensures AllKind(hosts, f, a + b) <==> AllKind(hosts, f, a) && AllKind(hosts, Finish(hosts, f, a), b)
    decreases |a|
  {
    hide Then, Kind;
    if a == [] {
      assert a + b == b;
    } else {
      assert (a + b)[1..] == a[1..] + b;
      FinishAppend(hosts, Then(hosts, f, a[0]), a[1..], b);
    }
  }

  lemma FinishOne(hosts: Hosts, f: Fleet, s: FleetStep)
    ensures Finish(hosts, f, [s]) == Then(hosts, f, s) && (AllKind(hosts, f, [s]) <==> Kind(hosts, f, s))
  {
    hide Then, Kind;
    assert [s][1..] == [];
  }

  /** A volume that can be created and attached on the two hosts. */
  ghost predicate Creatable(hosts: Hosts, request: ApiVolume, server: string, node: string) {
    && ColonFree(request.id) && request.targetPaths == [] && request.capacityBytes > 0
    && request.transport.Some? && Deployable(hosts, request.transport.value, server, node)
  }

  /** In a fleet in agreement the row is the given one, ready for its next call. */
  ghost predicate HoldsReady(hosts: Hosts, f: Fleet, id: string, server: string, node: string) {
    && FleetAgrees(hosts, f) && id in f.rows
    && Ready(hosts, f.rows[id], f.world, server, node)
  }

  lemma CreateGoes(hosts: Hosts, f: Fleet, request: ApiVolume, server: string, node: string)
    requires FleetAgrees(hosts, f) && Creatable(hosts, request, server, node)
    requires Fresh(f.rows, request.id, request.datasetID)
    ensures var g := Finish(hosts, f, [Create(request)]);
      && AllKind(hosts, f, [Create(request)]) && HoldsReady(hosts, g, request.id, server, node)
      && g.rows == f.rows[request.id := g.rows[request.id]]
      && g.rows[request.id].status == INITIAL && g.rows[request.id].transport.kind == request.transport.value
      && g.rows[request.id].datasetID == request.datasetID
  {
    var s, g := Create(request), Then(hosts, f, Create(request));
    hide FleetAgrees, LinksAgree, Backing, Fresh, ColonFree, TargetOf, Deployable, AllKind, Lifecycle, Finish;
    FinishOne(hosts, f, s);
    CreatedRow(hosts, f, request);
    CreateIsExactFor(hosts, f, request);
    RowInOrder(hosts, g, request.id);
  }

  lemma CreatedRow(hosts: Hosts, f: Fleet, request: ApiVolume)
    requires FleetAgrees(hosts, f) && Fresh(f.rows, request.id, request.datasetID)
    requires request.capacityBytes > 0 && request.transport.Some?
    ensures var g := Then(hosts, f, Create(request));
      && request.id in g.rows && g.rows == f.rows[request.id := g.rows[request.id]]
      && g.rows[request.id].status == INITIAL && g.rows[request.id].transport.kind == request.transport.value
      && g.rows[request.id].datasetID == request.datasetID
  {
    hide FleetMounted;
    FreshOwnsNothing(f, FromApi(request));
  }

  lemma OperateGoes(hosts: Hosts, f: Fleet, id: string, op: Op, server: string, node: string)
    requires HoldsReady(hosts, f, id, server, node) && InTurn(op, f.rows[id], server, node) && !op.Disconnect?
    requires op.Stage? ==> forall other :: other in f.rows ==> !Uses(f.rows[other], node, op.stagingPath)
    ensures var s := Operate(id, op, AMPLE);
      var g := Then(hosts, f, s);
      && Kind(hosts, f, s) && HoldsReady(hosts, g, id, server, node)
      && g.rows == f.rows[id := g.rows[id]] && Advanced(op, f.rows[id], g.rows[id])
  {
    var s, o := Operate(id, op, AMPLE), Handle(op, hosts, f.rows[id], f.world, AMPLE);
    hide FleetAgrees, Ready, Handle, Moves, Uses, Validated, Admissible, Reaches, InTurn, Advanced, Then, Kind;
    ThenOperate(hosts, f, id, op);
    RowInOrder(hosts, f, id);
    ReadyFields(hosts, f.rows[id], f.world, server, node);
    InTurnKeepsReady(op, hosts, f.rows[id], f.world, server, node);
    InTurnAdvances(op, f.rows[id], o.volume, server, node);
    InTurnIsAdmissible(op, hosts, f.rows[id], f.world, server, node);
    OperateIsExact(hosts, f, id, op, AMPLE);
  }

  lemma ThenOperate(hosts: Hosts, f: Fleet, id: string, op: Op)
    requires id in f.rows
    ensures var s, o := Operate(id, op, AMPLE), Handle(op, hosts, f.rows[id], f.world, AMPLE);
      && Then(hosts, f, s) == Fleet(f.rows[id := o.volume], o.run.world)
      && (Kind(hosts, f, s) <==> KindCall(hosts, f, id, op, AMPLE))
  {
    hide Handle, KindCall;
  }

  /** What such a call does to the fields below. */
  predicate Advanced(op: Op, v: Volume, u: Volume) {
    && u.datasetID == v.datasetID
    && u.stagingPath == (if op.Stage? then op.stagingPath else v.stagingPath)
    && u.status == (match op
                    case Publish(_, _) => PUBLISHED
                    case Disconnect => PUBLISHED
                    case Stage(_) => STAGED
                    case _ => CONNECTED)
  }

  lemma InTurnAdvances(op: Op, v: Volume, u: Volume, server: string, node: string)
    requires InTurn(op, v, server, node) && Moves(op, v, u)
    ensures Advanced(op, v, u)
  {
  }

  lemma InTurnIsAdmissible(op: Op, hosts: Hosts, v: Volume, w: World, server: string, node: string)
    requires Ready(hosts, v, w, server, node) && InTurn(op, v, server, node) && !op.Disconnect?
    ensures Admissible(op, v) && (op.Stage? ==> v.clientHost == node)
  {
  }

  /** The steps, each kind, change one row only and leave it ready for its next call. */
  ghost predicate Brought(hosts: Hosts, f: Fleet, id: string, steps: seq<FleetStep>, server: string, node: string) {
    var g := Finish(hosts, f, steps);
    AllKind(hosts, f, steps) && HoldsReady(hosts, g, id, server, node) && OnlyChanges(f.rows, g.rows, id)
  }

  predicate OnlyChanges(rows: Table, after: Table, id: string) {
    id in after && after == rows[id := after[id]]
  }

  lemma OthersStay(rows: Table, after: Table, id: string)
    requires OnlyChanges(rows, after, id)
    ensures forall other :: other in rows && other != id ==> other in after && after[other] == rows[other]
    ensures after.Keys == rows.Keys + {id}
  {
  }

  lemma BringOn(hosts: Hosts, f: Fleet, id: string, steps: seq<FleetStep>, op: Op, server: string, node: string)
    requires Brought(hosts, f, id, steps, server, node)
    requires var v := Finish(hosts, f, steps).rows[id];
      InTurn(op, v, server, node) && !op.Disconnect? && (op.Stage? ==> !Uses(v, node, op.stagingPath))
    requires op.Stage? ==> forall other :: other in f.rows && other != id ==> !Uses(f.rows[other], node, op.stagingPath)
    ensures var more := steps + [Operate(id, op, AMPLE)];
      Brought(hosts, f, id, more, server, node)
      && Advanced(op, Finish(hosts, f, steps).rows[id], Finish(hosts, f, more).rows[id])
  {
    var g, s := Finish(hosts, f, steps), Operate(id, op, AMPLE);
    hide HoldsReady, InTurn, Uses, Finish, AllKind, Advanced, Kind, Then;
    OperateGoes(hosts, g, id, op, server, node);
    FinishAppend(hosts, f, steps, [s]);
    FinishOne(hosts, g, s);
  }

  /** Create a volume, attach it, stage it on a path, and unstage it. */
  function Created(request: ApiVolume): seq<FleetStep> {
    [Create(request)]
  }

  function Published(request: ApiVolume, kind: TransportKind, server: string): seq<FleetStep> {
    Created(request) + [Operate(request.id, Publish(kind, server), AMPLE)]
  }

  function Connected(request: ApiVolume, kind: TransportKind, server: string, node: string): seq<FleetStep> {
    Published(request, kind, server) + [Operate(request.id, Connect(node), AMPLE)]
  }

  function Staged(request: ApiVolume, kind: TransportKind, server: string, node: string, path: string)
    : seq<FleetStep>
  {
    Connected(request, kind, server, node) + [Operate(request.id, Stage(path), AMPLE)]
  }

  function Unstaged(request: ApiVolume, kind: TransportKind, server: string, node: string, path: string)
    : seq<FleetStep>
  {
    Staged(request, kind, server, node, path) + [Operate(request.id, Unstage, AMPLE)]
  }

  /** The steps leave the row of the request ready, in the given status and with the given path stored. */
  ghost predicate Leads(hosts: Hosts, f: Fleet, request: ApiVolume, steps: seq<FleetStep>, server: string,
                        node: string, status: int, path: string)
  {
    && Brought(hosts, f, request.id, steps, server, node)
    && var u := Finish(hosts, f, steps).rows[request.id];
    u.status == status && u.datasetID == request.datasetID && (path != "" ==> u.stagingPath == path)
  }

  lemma PublishedLeads(hosts: Hosts, f: Fleet, request: ApiVolume, server: string, node: string)
    requires FleetAgrees(hosts, f) && Creatable(hosts, request, server, node)
    requires Fresh(f.rows, request.id, request.datasetID)
    ensures Leads(hosts, f, request, Published(request, request.transport.value, server), server, node, PUBLISHED, "")
  {
    var kind := request.transport.value;
    hide Finish, AllKind, Creatable, Fresh, HoldsReady, FleetAgrees, Uses;
    CreateGoes(hosts, f, request, server, node);
    BringOn(hosts, f, request.id, Created(request), Publish(kind, server), server, node);
  }

  lemma LeadsOn(hosts: Hosts, f: Fleet, request: ApiVolume, steps: seq<FleetStep>, op: Op, server: string,
                node: string, status: int, path: string, later: int, after: string)
    requires Leads(hosts, f, request, steps, server, node, status, path)
    requires op == Connect(node) || (op == Stage(after) && after != "") || op == Unstage
    requires status == if op.Connect? then PUBLISHED else if op.Stage? then CONNECTED else STAGED
    requires later == if op.Stage? then STAGED else CONNECTED
    requires after == if op.Stage? then after else path
    requires op.Stage? ==> forall other :: other in f.rows ==> !Uses(f.rows[other], node, after)
    ensures Leads(hosts, f, request, steps + [Operate(request.id, op, AMPLE)], server, node, later, after)
  {
    hide Finish, AllKind, HoldsReady, Uses;
    if op.Stage? {
      NotStagedUsesNothing(hosts, Finish(hosts, f, steps), request.id, server, node, after);
    }
    BringOn(hosts, f, request.id, steps, op, server, node);
  }

  lemma StagedLeads(hosts: Hosts, f: Fleet, request: ApiVolume, server: string, node: string, path: string)
    requires FleetAgrees(hosts, f) && Creatable(hosts, request, server, node) && path != ""
    requires Fresh(f.rows, request.id, request.datasetID)
    requires forall other :: other in f.rows ==> !Uses(f.rows[other], node, path)
    ensures Leads(hosts, f, request, Staged(request, request.transport.value, server, node, path), server, node, STAGED,
                  path)
  {
    var kind := request.transport.value;
    hide Leads, FleetAgrees, Creatable, Fresh, Uses, Published;
    PublishedLeads(hosts, f, request, server, node);
    LeadsOn(hosts, f, request, Published(request, kind, server), Connect(node), server, node, PUBLISHED, "", CONNECTED,
            "");
    LeadsOn(hosts, f, request, Connected(request, kind, server, node), Stage(path), server, node, CONNECTED, "", STAGED,
            path);
  }

  lemma NotStagedUsesNothing(hosts: Hosts, f: Fleet, id: string, server: string, node: string, path: string)
    requires HoldsReady(hosts, f, id, server, node) && f.rows[id].status < STAGED
    ensures !Uses(f.rows[id], node, path)
  {
    hide FleetAgrees;
    ReadyFields(hosts, f.rows[id], f.world, server, node);
  }

  /**
   * Two volumes staged one after the other on one path of a client, the first unstaged in
   * between: every call succeeds and keeps all rows in agreement. A Sync of the first then
   * succeeds too, and unmounts the second, whose row still says STAGED.
   */
  lemma StaleSyncBreaks(hosts: Hosts, zvols: map<At, int>, filesystems: map<At, nat>, first: ApiVolume,
                        second: ApiVolume, server: string, node: string, path: string, budget: nat)
    requires Creatable(hosts, first, server, node) && Creatable(hosts, second, server, node)
    requires Sanitize(first.id) != Sanitize(second.id) && first.datasetID != second.datasetID && path != ""
    requires hosts[server].connection.Remote? && budget >= 3
    ensures var f := EmptyService(zvols, filesystems);
      var steps := Unstaged(first, first.transport.value, server, node, path)
                   + Staged(second, second.transport.value, server, node, path);
      var g := Finish(hosts, f, steps);
      && AllKind(hosts, f, steps) && FleetAgrees(hosts, g) && first.id in g.rows && second.id in g.rows
      && Sync(hosts, g.rows[first.id], g.world, budget).reply == Done
      && g.rows[second.id].status == STAGED
      && !RowMounted(hosts, g.rows[second.id], Then(hosts, g, Reconcile(first.id, budget)).world)
  {
    var f := EmptyService(zvols, filesystems);
    var once := Unstaged(first, first.transport.value, server, node, path);
    var again := Staged(second, second.transport.value, server, node, path);
    hide *;
    FirstUnstaged(hosts, zvols, filesystems, first, server, node, path);
    FinishAppend(hosts, f, once, again);
    SecondStagingBreaks(hosts, Finish(hosts, f, once), first, second, server, node, path, budget);
  }

  lemma FirstUnstaged(hosts: Hosts, zvols: map<At, int>, filesystems: map<At, nat>, first: ApiVolume,
                      server: string, node: string, path: string)
    requires Creatable(hosts, first, server, node) && path != ""
    ensures var f := EmptyService(zvols, filesystems);
      var steps := Unstaged(first, first.transport.value, server, node, path);
      var g := Finish(hosts, f, steps);
      && AllKind(hosts, f, steps) && HoldsReady(hosts, g, first.id, server, node) && g.rows.Keys == {first.id}
      && g.rows[first.id].status == CONNECTED && g.rows[first.id].stagingPath == path
      && g.rows[first.id].datasetID == first.datasetID
  {
    var f := EmptyService(zvols, filesystems);
    var steps := Unstaged(first, first.transport.value, server, node, path);
    hide *;
    EmptyServiceAgrees(hosts, zvols, filesystems);
    UnstagedLeads(hosts, f, first, server, node, path);
    LeadsTo(hosts, f, first, steps, server, node, CONNECTED, path);
    OthersStay(f.rows, Finish(hosts, f, steps).rows, first.id);
  }

  lemma SecondStagingBreaks(hosts: Hosts, f: Fleet, first: ApiVolume, second: ApiVolume, server: string,
                            node: string, path: string, budget: nat)
    requires HoldsReady(hosts, f, first.id, server, node) && f.rows.Keys == {first.id}
    requires f.rows[first.id].status == CONNECTED && f.rows[first.id].stagingPath == path
    requires f.rows[first.id].datasetID == first.datasetID && Creatable(hosts, second, server, node)
    requires Sanitize(first.id) != Sanitize(second.id) && first.datasetID != second.datasetID && path != ""
    requires hosts[server].connection.Remote? && budget >= 3
    ensures var steps := Staged(second, second.transport.value, server, node, path);
      var g := Finish(hosts, f, steps);
      && AllKind(hosts, f, steps) && FleetAgrees(hosts, g) && first.id in g.rows && second.id in g.rows
      && Sync(hosts, g.rows[first.id], g.world, budget).reply == Done
      && g.rows[second.id].status == STAGED
      && !RowMounted(hosts, g.rows[second.id], Then(hosts, g, Reconcile(first.id, budget)).world)
  {
    var steps := Staged(second, second.transport.value, server, node, path);
    hide *;
    OneRow(hosts, f, first.id, second, server, node, path);
    HoldsReadyPlaces(hosts, f, first.id, server, node);
    StagedLeads(hosts, f, second, server, node, path);
    LeadsTo(hosts, f, second, steps, server, node, STAGED, path);
    OthersStay(f.rows, Finish(hosts, f, steps).rows, second.id);
    StaleSyncUnmounts(hosts, Finish(hosts, f, steps), first.id, second.id, server, node, path, budget);
  }

  lemma UnstagedLeads(hosts: Hosts, f: Fleet, request: ApiVolume, server: string, node: string, path: string)
    requires FleetAgrees(hosts, f) && Creatable(hosts, request, server, node) && path != "" && f.rows == map[]
    ensures Leads(hosts, f, request, Unstaged(request, request.transport.value, server, node, path), server, node,
                  CONNECTED, path)
  {
    var kind := request.transport.value;
    hide Leads, FleetAgrees, Creatable, Uses, Staged;
    StagedLeads(hosts, f, request, server, node, path);
    LeadsOn(hosts, f, request, Staged(request, kind, server, node, path), Unstage, server, node, STAGED, path,
            CONNECTED, path);
  }

  lemma LeadsTo(hosts: Hosts, f: Fleet, request: ApiVolume, steps: seq<FleetStep>, server: string, node: string,
                status: int, path: string)
    requires Leads(hosts, f, request, steps, server, node, status, path) && path != ""
    ensures var g := Finish(hosts, f, steps);
      && AllKind(hosts, f, steps) && HoldsReady(hosts, g, request.id, server, node)
      && FleetAgrees(hosts, g) && request.id in g.rows
      && g.rows[request.id].status == status && g.rows[request.id].stagingPath == path
      && g.rows[request.id].datasetID == request.datasetID
      && OnlyChanges(f.rows, g.rows, request.id)
  {
    hide Finish, AllKind, FleetAgrees, Ready, OnlyChanges;
  }

  lemma HoldsReadyPlaces(hosts: Hosts, f: Fleet, id: string, server: string, node: string)
    requires HoldsReady(hosts, f, id, server, node)
    ensures Placed(hosts, f.rows[id], server, node) && FleetAgrees(hosts, f) && f.rows[id].id == id
  {
    hide LinksAgree, FleetMounted, Placed;
  }

  lemma OneRow(hosts: Hosts, f: Fleet, id: string, other: ApiVolume, server: string, node: string, path: string)
    requires HoldsReady(hosts, f, id, server, node) && f.rows.Keys == {id} && f.rows[id].status == CONNECTED
    requires Sanitize(id) != Sanitize(other.id) && f.rows[id].datasetID != other.datasetID
    ensures Fresh(f.rows, other.id, other.datasetID) && id != other.id
    ensures forall any :: any in f.rows ==> !Uses(f.rows[any], node, path)
  {
    hide Sanitize, HoldsReady, Uses;
    HoldsReadyPlaces(hosts, f, id, server, node);
    NotStagedUsesNothing(hosts, f, id, server, node, path);
  }

  lemma StaleSyncUnmounts(hosts: Hosts, f: Fleet, id: string, other: string, server: string, node: string,
                          path: string, budget: nat)
    requires FleetAgrees(hosts, f) && id in f.rows && other in f.rows && id != other
    requires Placed(hosts, f.rows[id], server, node) && HoldsReady(hosts, f, other, server, node)
    requires f.rows[id].status == CONNECTED && f.rows[id].stagingPath == path && path != ""
    requires f.rows[other].status == STAGED && f.rows[other].stagingPath == path
    requires hosts[server].connection.Remote? && budget >= 3
    ensures Sync(hosts, f.rows[id], f.world, budget).reply == Done
    ensures !RowMounted(hosts, f.rows[other], Then(hosts, f, Reconcile(id, budget)).world)
  {
    var v, u := f.rows[id], f.rows[other];
    HoldsReadyPlaces(hosts, f, other, server, node);
    RowInOrder(hosts, f, id);
    RowInOrder(hosts, f, other);
    assert v.clientHost == node && u.clientHost == node && UmountsStale(v) && u.targetPaths == [];
    assert Uses(u, node, path);
    hide FleetAgrees, HoldsReady, Lifecycle, Agree, MountsAgree, FilesystemAgrees, Placed, Sync, RowMounted, Then;
    SyncRepairs(hosts, v, f.world, budget);
    UsedIsMounted(hosts, u, f.world, node, path);
    SyncMounts(hosts, v, f.world, budget);
    ReconcileOthers(hosts, f, id, other, budget);
    ReconcileWorld(hosts, f, id, budget);
  }

  lemma ReconcileWorld(hosts: Hosts, f: Fleet, id: string, budget: nat)
    requires id in f.rows
    ensures Then(hosts, f, Reconcile(id, budget)).world == Sync(hosts, f.rows[id], f.world, budget).run.world
  {
  }
}
