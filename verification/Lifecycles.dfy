/** What every run of handler calls and updates keeps of one volume's row. */
module Lifecycles {
  import opened Names
  import opened Structs
  import opened Volumes
  import opened Clusters
  import opened Plans
  import opened Conversions
  import opened VolumeServices

  /** The target name the row's server host gives the volume over the row's transport. */
  function TargetOf(hosts: Hosts, v: Volume): string {
    var server := Lookup(hosts, v.serverHost);
    if server.Some? then GetOr(TargetID(server.value, v.transport.kind, v.id), "") else ""
  }

  /** The identifier the row's client host presents over the row's transport. */
  function InitiatorOf(hosts: Hosts, v: Volume): string {
    var client := Lookup(hosts, v.clientHost);
    if client.Some? then GetOr(ClientID(client.value, v.transport.kind), "") else ""
  }

  ghost predicate Exported(hosts: Hosts, v: Volume) {
    var server := Lookup(hosts, v.serverHost);
    server.Some? && TargetID(server.value, v.transport.kind, v.id).Some?
  }

  ghost predicate Attached(hosts: Hosts, v: Volume) {
    var client := Lookup(hosts, v.clientHost);
    client.Some? && ClientID(client.value, v.transport.kind).Some?
  }

  /** A payload, when there is one, names the target the server gives the volume. */
  ghost predicate PayloadNamesTarget(hosts: Hosts, v: Volume) {
    v.transport.Payload().Some? ==> v.transport.Payload().value.targetID == TargetOf(hosts, v)
  }

  /** The lifecycle invariant of a row. */
  ghost predicate Lifecycle(hosts: Hosts, v: Volume) {
    && ColonFree(v.id)
    && INITIAL <= v.status <= MOUNTED
    && (v.IsPublished() ==> Exported(hosts, v) && PayloadNamesTarget(hosts, v))
    && (v.IsConnected() ==> Attached(hosts, v))
    && (v.IsStaged() ==> v.stagingPath != "")
    && (v.IsMounted() <==> v.targetPaths != [])
    && NoDuplicates(v.targetPaths)
  }

  lemma TargetNotEmpty(hosts: Hosts, v: Volume)
    requires Lifecycle(hosts, v) && v.IsPublished()
    ensures TargetOf(hosts, v) != "" && v.transport.kind != Unspecified
  {
  }

  lemma InitiatorNotEmpty(hosts: Hosts, v: Volume)
    requires Lifecycle(hosts, v) && v.IsConnected()
    ensures InitiatorOf(hosts, v) != ""
  {
    var ids := hosts[v.clientHost].identifiers;
    PrefixedNotEmpty(ids, "iqn.");
    PrefixedNotEmpty(ids, "nqn.");
  }

  lemma {:induction false} PrefixedNotEmpty(ids: seq<string>, prefix: string)
    requires prefix != ""
    ensures FirstWithPrefix(ids, prefix).Some? ==> FirstWithPrefix(ids, prefix).value != ""
  {
    if ids != [] && !HasPrefix(ids[0], prefix) {
      PrefixedNotEmpty(ids[1..], prefix);
    }
  }

  /** Requests pass the API's validation first: paths match a pattern that is never empty. */
  predicate Validated(op: Op) {
    && (op.Stage? ==> op.stagingPath != "")
    && (op.Mount? ==> op.mountPath != "")
  }

  /** A new row starts the lifecycle exactly when the request lists no target paths. */
  lemma CreateStartsLifecycle(hosts: Hosts, request: ApiVolume)
    requires ColonFree(request.id)
    ensures Lifecycle(hosts, FromApi(request).(status := INITIAL)) <==> request.targetPaths == []
  {
  }

  /** The row a plan leaves, as GORM stores it. */
  ghost predicate Moves(op: Op, v: Volume, u: Volume) {
    match op
    case Publish(_, server) =>
      v.status < PUBLISHED && u == v.(status := PUBLISHED, serverHost := server, transport := u.transport)
    case Unpublish => v.status == PUBLISHED && u == v.(status := INITIAL, transport := Bare(Unspecified))
    case Connect(client) =>
      && v.status == PUBLISHED && u == v.(status := CONNECTED, clientHost := client, transport := u.transport)
      && u.transport.kind == v.transport.kind
    case Disconnect =>
      && CONNECTED <= v.status <= STAGED && u == v.(status := PUBLISHED, transport := u.transport)
      && u.transport.kind == v.transport.kind
    case Stage(path) => v.status == CONNECTED && u == v.(status := STAGED, stagingPath := path)
    case Unstage => v.status == STAGED && u == v.(status := CONNECTED)
    case Mount(path) =>
      path !in v.targetPaths && v.IsStaged() && u == v.(status := MOUNTED, targetPaths := v.targetPaths + [path])
    case Unmount(path) =>
      && path in v.targetPaths
      && u == v.(targetPaths := Without(v.targetPaths, IndexOf(v.targetPaths, path)),
                 status := if |v.targetPaths| == 1 then STAGED else v.status)
  }

  lemma PlanMoves(op: Op, hosts: Hosts, v: Volume, w: World)
    requires INITIAL <= v.status <= MOUNTED && Validated(op) && PlanOf(op, hosts, v, w).Act?
    ensures Moves(op, v, Persist(v, PlanOf(op, hosts, v, w).given))
  {
    hide TargetID, ClientID, PublishScript, StageScript, MountScript;
  }

  lemma PublishedWell(hosts: Hosts, v: Volume, w: World, kind: TransportKind, server: string)
    requires PublishPlan(hosts, v, w, kind, server).Act?
    ensures var u := Persist(v, PublishPlan(hosts, v, w, kind, server).given);
      Exported(hosts, u) && PayloadNamesTarget(hosts, u)
  {
    hide ClientID, PublishScript, TargetName;
  }

  lemma ConnectedWell(hosts: Hosts, v: Volume, client: string)
    requires ConnectPlan(hosts, v, client).Act? && Exported(hosts, v) && PayloadNamesTarget(hosts, v)
    ensures var u := Persist(v, ConnectPlan(hosts, v, client).given);
      Exported(hosts, u) && PayloadNamesTarget(hosts, u) && Attached(hosts, u)
  {
    hide ClientID, TargetName;
  }

  lemma DisconnectedWell(hosts: Hosts, v: Volume)
    requires DisconnectPlan(hosts, v).Act? && Exported(hosts, v) && PayloadNamesTarget(hosts, v)
    ensures var u := Persist(v, DisconnectPlan(hosts, v).given);
      Exported(hosts, u) && PayloadNamesTarget(hosts, u)
  {
    hide ClientID, TargetName;
  }

  lemma MoveKeepsLifecycle(op: Op, hosts: Hosts, v: Volume, u: Volume)
    requires Lifecycle(hosts, v) && Validated(op) && Moves(op, v, u)
    requires op.Publish? || op.Connect? || op.Disconnect? ==> Exported(hosts, u) && PayloadNamesTarget(hosts, u)
    requires op.Connect? ==> Attached(hosts, u)
    ensures Lifecycle(hosts, u)
  {
    if op.Unmount? {
      WithoutIsRemoval(v.targetPaths, op.mountPath);
    }
    hide TargetID, ClientID, IndexOf;
  }

  lemma PlanKeepsLifecycle(op: Op, hosts: Hosts, v: Volume, w: World)
    requires Lifecycle(hosts, v) && Validated(op) && PlanOf(op, hosts, v, w).Act?
    ensures Lifecycle(hosts, Persist(v, PlanOf(op, hosts, v, w).given))
  {
    PlanMoves(op, hosts, v, w);
    hide Persist, PublishPlan, UnpublishPlan, ConnectPlan, DisconnectPlan,
      StagePlan, UnstagePlan, MountPlan, UnmountPlan, Moves, Exported, Attached, PayloadNamesTarget;
    assert op.Connect? || op.Disconnect? ==> v.IsPublished() by {
      PlanNeedsPublished(op, hosts, v, w);
    }
    match op {
      case Publish(kind, server) => PublishedWell(hosts, v, w, kind, server);
      case Connect(client) => ConnectedWell(hosts, v, client);
      case Disconnect => DisconnectedWell(hosts, v);
      case _ =>
    }
    MoveKeepsLifecycle(op, hosts, v, Persist(v, PlanOf(op, hosts, v, w).given));
  }

  lemma PlanNeedsPublished(op: Op, hosts: Hosts, v: Volume, w: World)
    requires PlanOf(op, hosts, v, w).Act?
    ensures op.Connect? || op.Disconnect? ==> v.IsPublished()
  {
    hide TargetID, ClientID, Lookup, PublishScript, StageScript, MountScript;
  }

  lemma HandleKeepsLifecycle(op: Op, hosts: Hosts, v: Volume, w: World, budget: nat)
    requires Lifecycle(hosts, v) && Validated(op)
    ensures Lifecycle(hosts, Handle(op, hosts, v, w, budget).volume)
  {
    hide Execute, Lifecycle, PlanOf, Persist;
    if PlanOf(op, hosts, v, w).Act? {
      PlanKeepsLifecycle(op, hosts, v, w);
    }
  }

  /** Unmounting has no status guard, yet it never raises the status. */
  lemma UnmountNeverRaises(path: string, hosts: Hosts, v: Volume, w: World, budget: nat)
    requires Lifecycle(hosts, v)
    ensures Handle(Unmount(path), hosts, v, w, budget).volume.status <= v.status
    ensures Handle(Unmount(path), hosts, v, w, budget).reply.Ok?
        ==> path !in Handle(Unmount(path), hosts, v, w, budget).volume.targetPaths
  {
    hide Execute, Exported, Attached;
    if path in v.targetPaths {
      WithoutIsRemoval(v.targetPaths, path);
    }
  }

  // -- Runs of one row ------------------------------------------------------------------

  /**
   * One step of a row: a handler call, in whatever world and with whatever failures
   * it meets, or an update.
   */
  datatype Step = Call(op: Op, world: World, budget: nat) | Amend(updates: map<string, Value>)

  function Amended(v: Volume, updates: map<string, Value>): Volume {
    if WellTyped(updates) && GivenUpdate(v, updates).capacityBytes >= 0
    then Persist(v, GivenUpdate(v, updates)) else v
  }

  function Next(hosts: Hosts, v: Volume, s: Step): Volume {
    match s
    case Call(op, w, budget) => Handle(op, hosts, v, w, budget).volume
    case Amend(updates) => Amended(v, updates)
  }

  function After(hosts: Hosts, v: Volume, steps: seq<Step>): Volume
    decreases |steps|
  {
    if steps == [] then v else After(hosts, Next(hosts, v, steps[0]), steps[1..])
  }

  predicate AllValidated(steps: seq<Step>) {
    forall i :: 0 <= i < |steps| && steps[i].Call? ==> Validated(steps[i].op)
  }

  /** An update changes no lifecycle field and cuts the transport to its type. */
  lemma AmendedFields(v: Volume, updates: map<string, Value>)
    ensures var u := Amended(v, updates);
      && u.id == v.id && u.status == v.status && u.targetPaths == v.targetPaths
      && u.serverHost == v.serverHost && u.clientHost == v.clientHost && u.stagingPath == v.stagingPath
      && u.mode == v.mode && u.datasetID == v.datasetID && u.sparse == v.sparse && u.name == v.name
      && (u.transport == v.transport || u.transport == Bare(v.transport.kind))
  {
  }

  lemma NextKeepsLifecycle(hosts: Hosts, v: Volume, s: Step)
    requires Lifecycle(hosts, v) && (s.Call? ==> Validated(s.op))
    ensures Lifecycle(hosts, Next(hosts, v, s))
  {
    match s
    case Call(op, w, budget) => HandleKeepsLifecycle(op, hosts, v, w, budget);
    case Amend(updates) => AmendedFields(v, updates);
  }

  /** Every run, including updates, keeps the lifecycle invariant. */
  lemma {:induction false} RunKeepsLifecycle(hosts: Hosts, v: Volume, steps: seq<Step>)
    requires Lifecycle(hosts, v) && AllValidated(steps)
    ensures Lifecycle(hosts, After(hosts, v, steps))
    decreases |steps|
  {
    if steps != [] {
      NextKeepsLifecycle(hosts, v, steps[0]);
      RunKeepsLifecycle(hosts, Next(hosts, v, steps[0]), steps[1..]);
    }
  }

  // -- Conservation ---------------------------------------------------------------------

  /** How many calls of each kind took effect; `drops` are disconnects of a staged volume. */
  datatype Tally = Tally(
    publishes: nat, unpublishes: nat,
    connects: nat, disconnects: nat,
    stages: nat, unstages: nat, drops: nat,
    mounts: nat, unmounts: nat)

  const NO_CALLS := Tally(0, 0, 0, 0, 0, 0, 0, 0, 0)

  function Count(hosts: Hosts, v: Volume, s: Step, t: Tally): Tally {
    if !s.Call? || !Effective(s.op, hosts, v, s.world, s.budget) then t
    else
      match s.op
      case Publish(_, _) => t.(publishes := t.publishes + 1)
      case Unpublish => t.(unpublishes := t.unpublishes + 1)
      case Connect(_) => t.(connects := t.connects + 1)
      case Disconnect => t.(disconnects := t.disconnects + 1, drops := t.drops + if v.IsStaged() then 1 else 0)
      case Stage(_) => t.(stages := t.stages + 1)
      case Unstage => t.(unstages := t.unstages + 1)
      case Mount(_) => t.(mounts := t.mounts + 1)
      case Unmount(_) => t.(unmounts := t.unmounts + 1)
  }

  function CountAll(hosts: Hosts, v: Volume, steps: seq<Step>, t: Tally): Tally
    decreases |steps|
  {
    if steps == [] then t
    else CountAll(hosts, Next(hosts, v, steps[0]), steps[1..], Count(hosts, v, steps[0], t))
  }

  function Indicator(b: bool): int {
    if b then 1 else 0
  }

  predicate Balanced(t: Tally, v: Volume) {
    && t.publishes - t.unpublishes == Indicator(v.IsPublished())
    && t.connects - t.disconnects == Indicator(v.IsConnected())
    && t.stages - t.unstages - t.drops == Indicator(v.IsStaged())
    && t.mounts - t.unmounts == |v.targetPaths|
  }

  /** A call's row is the old one, or has made the plan's move exactly when the call is effective. */
  lemma CallMoves(op: Op, hosts: Hosts, v: Volume, w: World, budget: nat)
    requires INITIAL <= v.status <= MOUNTED && Validated(op)
    ensures var u := Handle(op, hosts, v, w, budget).volume;
      if Effective(op, hosts, v, w, budget) then Moves(op, v, u) else u == v
  {
    hide Execute, PlanOf, Persist, Moves;
    if PlanOf(op, hosts, v, w).Act? {
      PlanMoves(op, hosts, v, w);
    }
  }

  lemma CallBalances(hosts: Hosts, v: Volume, op: Op, w: World, budget: nat, t: Tally)
    requires Lifecycle(hosts, v) && Validated(op) && Balanced(t, v)
    ensures Balanced(Count(hosts, v, Call(op, w, budget), t), Handle(op, hosts, v, w, budget).volume)
  {
    CallMoves(op, hosts, v, w, budget);
    hide Handle, Effective, Exported, Attached, TargetOf;
    if op.Unmount? && op.mountPath in v.targetPaths {
      WithoutIsRemoval(v.targetPaths, op.mountPath);
    }
  }

  lemma StepBalances(hosts: Hosts, v: Volume, s: Step, t: Tally)
    requires Lifecycle(hosts, v) && (s.Call? ==> Validated(s.op)) && Balanced(t, v)
    ensures Balanced(Count(hosts, v, s, t), Next(hosts, v, s))
  {
    hide Lifecycle, Handle, Effective, Amended;
    match s
    case Call(op, w, budget) => CallBalances(hosts, v, op, w, budget, t);
    case Amend(updates) => AmendedFields(v, updates);
  }

  /** Conservation over every run from creation. */
  lemma {:induction false} RunBalances(hosts: Hosts, v: Volume, steps: seq<Step>, t: Tally)
    requires Lifecycle(hosts, v) && AllValidated(steps) && Balanced(t, v)
    ensures Balanced(CountAll(hosts, v, steps, t), After(hosts, v, steps))
    decreases |steps|
  {
    if steps != [] {
      NextKeepsLifecycle(hosts, v, steps[0]);
      StepBalances(hosts, v, steps[0], t);
      RunBalances(hosts, Next(hosts, v, steps[0]), steps[1..], Count(hosts, v, steps[0], t));
    }
  }

  lemma ConservationFromCreation(hosts: Hosts, request: ApiVolume, steps: seq<Step>)
    requires ColonFree(request.id) && request.targetPaths == [] && AllValidated(steps)
    ensures var v := FromApi(request).(status := INITIAL);
      Balanced(CountAll(hosts, v, steps, NO_CALLS), After(hosts, v, steps))
  {
    var v := FromApi(request).(status := INITIAL);
    CreateStartsLifecycle(hosts, request);
    RunBalances(hosts, v, steps, NO_CALLS);
  }

  // -- The cut payload ------------------------------------------------------------------

  /** An accepted update drops the transport payload, whatever it was meant to change. */
  lemma UpdateCutsPayload(v: Volume, updates: map<string, Value>)
    requires WellTyped(updates) && GivenUpdate(v, updates).capacityBytes >= 0
    ensures Amended(v, updates).transport == Bare(v.transport.kind)
  {
  }

  lemma CallKeepsCut(hosts: Hosts, v: Volume, op: Op, w: World, budget: nat)
    requires v.IsConnected() && v.transport.Payload().None? && Lifecycle(hosts, v)
    ensures var u := Handle(op, hosts, v, w, budget).volume; u.IsConnected() && u.transport.Payload().None?
  {
    hide Execute, TargetID, ClientID, PublishScript, StageScript, MountScript, Exported, Attached;
  }

  /** A connected row without its payload stays connected, and without it, forever. */
  lemma {:induction false} CutPayloadIsStuck(hosts: Hosts, v: Volume, steps: seq<Step>)
    requires v.IsConnected() && v.transport.Payload().None?
    requires Lifecycle(hosts, v) && AllValidated(steps)
    ensures After(hosts, v, steps).IsConnected()
    decreases |steps|
  {
    hide Lifecycle, Handle, Amended;
    if steps != [] {
      NextKeepsLifecycle(hosts, v, steps[0]);
      match steps[0] {
        case Call(op, w, budget) => CallKeepsCut(hosts, v, op, w, budget);
        case Amend(updates) => AmendedFields(v, updates);
      }
      CutPayloadIsStuck(hosts, Next(hosts, v, steps[0]), steps[1..]);
    }
  }

  /** Calls that take a connected row with its payload down to PUBLISHED. */
  function Teardown(v: Volume, w: World): seq<Step>
    decreases |v.targetPaths|
  {
    if v.targetPaths == [] then [Call(Disconnect, w, 2)]
    else
      [Call(Unmount(v.targetPaths[0]), w, 1)]
      + Teardown(v.(targetPaths := v.targetPaths[1..], status := if |v.targetPaths| == 1 then STAGED else v.status), w)
  }

  lemma {:induction false} TeardownDisconnects(hosts: Hosts, v: Volume, w: World)
    requires Lifecycle(hosts, v) && v.IsConnected() && v.transport.Payload().Some?
    ensures AllValidated(Teardown(v, w)) && !After(hosts, v, Teardown(v, w)).IsConnected()
    decreases |v.targetPaths|
  {
    var steps := Teardown(v, w);
    if v.targetPaths == [] {
      DisconnectTakesEffect(hosts, v, w);
    } else {
      var path := v.targetPaths[0];
      var next := v.(targetPaths := v.targetPaths[1..],
                     status := if |v.targetPaths| == 1 then STAGED else v.status);
      NextKeepsLifecycle(hosts, v, steps[0]);
      assert Without(v.targetPaths, 0) == v.targetPaths[1..];
      assert UnmountPlan(hosts, v, path) == Act(next, [Umount(v.clientHost, path)]);
      assert Execute([Umount(v.clientHost, path)], w, 1).ok;
      assert Persist(v, next) == next;
      assert Next(hosts, v, steps[0]) == next;
      TeardownDisconnects(hosts, next, w);
      assert steps[1..] == Teardown(next, w);
    }
  }

  lemma DisconnectTakesEffect(hosts: Hosts, v: Volume, w: World)
    requires Lifecycle(hosts, v) && v.IsConnected() && !v.IsMounted() && v.transport.Payload().Some?
    ensures !After(hosts, v, [Call(Disconnect, w, 2)]).IsConnected()
  {
    var logout, deny :=
      Logout(v.clientHost, TargetOf(hosts, v)), Deny(v.serverHost, TargetOf(hosts, v), InitiatorOf(hosts, v));
    assert DisconnectPlan(hosts, v).script == [logout] + [deny];
    InitiatorNotEmpty(hosts, v);
    ExecuteTwo(logout, deny, w, 2);
  }

  /** A connected volume can be taken down again exactly when its payload is still there. */
  lemma TeardownPossible(hosts: Hosts, v: Volume)
    requires Lifecycle(hosts, v) && v.IsConnected()
    ensures (exists steps :: AllValidated(steps) && !After(hosts, v, steps).IsConnected())
       <==> v.transport.Payload().Some?
  {
    if v.transport.Payload().Some? {
      var w := World(map[], map[], map[], map[], map[]);
      TeardownDisconnects(hosts, v, w);
    } else {
      forall steps | AllValidated(steps) ensures After(hosts, v, steps).IsConnected() {
        CutPayloadIsStuck(hosts, v, steps);
      }
    }
  }
}
