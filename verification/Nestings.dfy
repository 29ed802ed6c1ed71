/**
 * Over every run of the service, whatever fails and whatever happens to mounts: each
 * session has an ACL entry, each ACL a target and each target a zvol, after every
 * single command.
 */
module Nestings {
  import opened Names
  import opened Structs
  import opened Volumes
  import opened Clusters
  import opened Conversions
  import opened Plans
  import opened VolumeServices
  import opened Lifecycles
  import opened Links
  import opened Syncers
  import opened SyncLinks
  import opened Fleets

  ghost predicate OwnedByOne(rows: Table, target: string) {
    exists id :: id in rows && Owns(id, target)
  }

  /** No target or session is left over from outside the table. */
  ghost predicate LinksTracked(rows: Table, w: World) {
    && (forall k :: k in w.targets ==> OwnedByOne(rows, k.name))
    && (forall k :: k in w.sessions ==> OwnedByOne(rows, k.name))
  }

  ghost predicate RowsApart(rows: Table) {
    forall a, b :: a in rows && b in rows && a != b ==> Apart(rows[a], rows[b])
  }

  /** Every row follows the lifecycle, and its targets, ACLs and sessions agree with it. */
  ghost predicate FleetLinked(hosts: Hosts, f: Fleet) {
    && KeyedByID(f.rows)
    && (forall id :: id in f.rows ==> Lifecycle(hosts, f.rows[id]) && LinksAgree(hosts, f.rows[id], f.world))
    && RowsApart(f.rows)
    && LinksTracked(f.rows, f.world)
  }

  /** Every session is admitted by the ACL of a target there, and every target has its zvol. */
  ghost predicate Nested(w: World) {
    && (forall k :: k in w.sessions ==>
          var remote := At(w.sessions[k].server, k.name);
          remote in w.targets && w.sessions[k].initiator in w.targets[remote].acl)
    && (forall k :: k in w.targets ==> At(k.host, w.targets[k].dataset) in w.zvols)
  }

  lemma FleetIsNested(hosts: Hosts, f: Fleet)
    requires FleetLinked(hosts, f)
    ensures Nested(f.world)
  {
    var w := f.world;
    hide Lifecycle, Owns, TargetOf, InitiatorOf, Apart;
    forall k | k in w.sessions
      ensures var remote := At(w.sessions[k].server, k.name);
        remote in w.targets && w.sessions[k].initiator in w.targets[remote].acl
    {
      var id :| id in f.rows && Owns(id, k.name);
      assert LinksAgree(hosts, f.rows[id], w);
    }
    forall k | k in w.targets ensures At(k.host, w.targets[k].dataset) in w.zvols {
      var id :| id in f.rows && Owns(id, k.name);
      assert LinksAgree(hosts, f.rows[id], w);
    }
  }

  // -- Other rows -----------------------------------------------------------------------

  lemma TargetsLeft(hosts: Hosts, v: Volume, u: Volume, w: World, w1: World)
    requires TargetsAgree(hosts, u, w.targets, w.zvols) && Leaves(v, w, w1) && Apart(v, u)
    requires u.IsPublished() ==> Owns(u.id, TargetOf(hosts, u))
    ensures TargetsAgree(hosts, u, w1.targets, w1.zvols)
  {
    assert forall k: At :: Owns(u.id, k.name) ==> !Owns(v.id, k.name);
    hide TargetOf, InitiatorOf, Owns;
  }

  lemma SessionsLeft(hosts: Hosts, v: Volume, u: Volume, w: World, w1: World)
    requires SessionsAgree(hosts, u, w.sessions) && Leaves(v, w, w1) && Apart(v, u)
    ensures SessionsAgree(hosts, u, w1.sessions)
  {
    assert forall k: At :: Owns(u.id, k.name) ==> !Owns(v.id, k.name);
    hide TargetOf, InitiatorOf, Owns;
  }

  /** Another volume's commands leave a row's links in agreement. */
  lemma LinksLeft(hosts: Hosts, v: Volume, u: Volume, w: World, w1: World)
    requires Lifecycle(hosts, u) && LinksAgree(hosts, u, w) && Leaves(v, w, w1) && Apart(v, u)
    ensures LinksAgree(hosts, u, w1)
  {
    hide Lifecycle, Leaves, Apart, TargetsAgree, SessionsAgree, Owns, TargetOf;
    if u.IsPublished() {
      TargetIsOwned(hosts, u);
    }
    TargetsLeft(hosts, v, u, w, w1);
    SessionsLeft(hosts, v, u, w, w1);
  }

  lemma StillTracked(rows: Table, id: string, x: Volume, w: World, w1: World)
    requires id in rows && rows[id].id == id && LinksTracked(rows, w) && Leaves(rows[id], w, w1)
    ensures LinksTracked(rows[id := x], w1)
  {
    assert forall t :: OwnedByOne(rows, t) || Owns(id, t) ==> OwnedByOne(rows[id := x], t);
    hide Owns, OwnedByOne;
  }

  lemma StillApart(rows: Table, id: string, x: Volume)
    requires RowsApart(rows) && id in rows && x.id == rows[id].id && x.datasetID == rows[id].datasetID
    ensures RowsApart(rows[id := x])
  {
    hide Sanitize;
  }

  /** After commands of one volume that leave its own links in agreement, all links are. */
  lemma LogKeepsLinked(hosts: Hosts, f: Fleet, id: string, log: seq<Command>, x: Volume)
    requires FleetLinked(hosts, f) && id in f.rows && forall c :: c in log ==> Confined(f.rows[id], c)
    requires x.id == id && x.datasetID == f.rows[id].datasetID && Lifecycle(hosts, x)
    requires LinksAgree(hosts, x, Replay(log, f.world))
    ensures FleetLinked(hosts, Fleet(f.rows[id := x], Replay(log, f.world)))
  {
    var w1 := Replay(log, f.world);
    hide Lifecycle, LinksAgree, Leaves, Replay, Apply, Confined, LinksTracked, Apart, RowsApart;
    LogLeaves(f.rows[id], log, f.world);
    StillTracked(f.rows, id, x, f.world, w1);
    StillApart(f.rows, id, x);
    forall other | other in f.rows && other != id ensures LinksAgree(hosts, f.rows[other], w1) {
      ApartRows(f.rows, id, other);
      LinksLeft(hosts, f.rows[id], f.rows[other], f.world, w1);
    }
  }

  lemma ApartRows(rows: Table, a: string, b: string)
    requires RowsApart(rows) && a in rows && b in rows && a != b
    ensures Apart(rows[a], rows[b])
  {
  }

  lemma LinkedRow(hosts: Hosts, f: Fleet, id: string)
    requires FleetLinked(hosts, f) && id in f.rows
    ensures f.rows[id].id == id && Lifecycle(hosts, f.rows[id]) && LinksAgree(hosts, f.rows[id], f.world)
  {
  }

  // -- Calls and Syncs ------------------------------------------------------------------

  lemma OperateKeepsLinked(hosts: Hosts, f: Fleet, id: string, op: Op, budget: nat)
    requires FleetLinked(hosts, f) && id in f.rows && Validated(op)
    ensures var o := Handle(op, hosts, f.rows[id], f.world, budget);
      FleetLinked(hosts, Fleet(f.rows[id := o.volume], o.run.world))
  {
    hide *;
    var v, o := f.rows[id], Handle(op, hosts, f.rows[id], f.world, budget);
    LinkedRow(hosts, f, id);
    HandleKeepsLinks(op, hosts, v, f.world, budget);
    PlanKeepsIdentity(op, hosts, v, f.world, budget);
    CallLeaves(op, hosts, v, f.world, budget);
    LogKeepsLinked(hosts, f, id, o.run.log, o.volume);
  }

  lemma OperateNests(hosts: Hosts, f: Fleet, id: string, op: Op, budget: nat)
    requires FleetLinked(hosts, f) && id in f.rows && Validated(op)
    ensures Along(Nested, Handle(op, hosts, f.rows[id], f.world, budget).run.log, f.world)
  {
    hide *;
    var v, plan := f.rows[id], PlanOf(op, hosts, f.rows[id], f.world);
    FleetIsNested(hosts, f);
    HandleRuns(op, hosts, v, f.world, budget);
    if plan.Act? {
      forall n: nat ensures Nested(Execute(plan.script, f.world, n).world) {
        OperateKeepsLinked(hosts, f, id, op, n);
        HandleRuns(op, hosts, v, f.world, n);
        var o := Handle(op, hosts, v, f.world, n);
        FleetIsNested(hosts, Fleet(f.rows[id := o.volume], o.run.world));
      }
      AlongExecute(Nested, plan.script, f.world, budget);
    } else {
      AlongByCommand(Nested, [], f.world);
    }
  }

  lemma NamedIsOwned(hosts: Hosts, v: Volume)
    requires Lifecycle(hosts, v)
    ensures v.IsConnected() || TargetOf(hosts, v) != "" ==> Owns(v.id, TargetOf(hosts, v))
  {
    var server := Lookup(hosts, v.serverHost);
    if server.Some? && TargetID(server.value, v.transport.kind, v.id).Some? {
      TargetNameOwned(ClientID(server.value, v.transport.kind).value, v.id);
    }
    hide Owns, ClientID, TargetName, ColonFree;
  }

  lemma MendConfined(hosts: Hosts, v: Volume, c: Command)
    requires Lifecycle(hosts, v) && Mends(hosts, v, c)
    ensures Confined(v, c)
  {
    hide Owns, Lifecycle, TargetOf, InitiatorOf;
    NamedIsOwned(hosts, v);
  }

  /** Commands that keep a row's links in agreement one by one nest the whole world all along. */
  lemma LogNests(hosts: Hosts, f: Fleet, id: string, log: seq<Command>, x: Volume)
    requires FleetLinked(hosts, f) && id in f.rows && forall c :: c in log ==> Confined(f.rows[id], c)
    requires x.id == id && x.datasetID == f.rows[id].datasetID && Lifecycle(hosts, x)
    requires forall k :: 0 <= k <= |log| ==> LinksAgree(hosts, x, Replay(log[..k], f.world))
    ensures FleetLinked(hosts, Fleet(f.rows[id := x], Replay(log, f.world))) && Along(Nested, log, f.world)
  {
    hide LinksAgree, Lifecycle, Replay, Nested, Confined, Apply, FleetLinked;
    forall k | 0 <= k <= |log|
      ensures FleetLinked(hosts, Fleet(f.rows[id := x], Replay(log[..k], f.world))) && Nested(Replay(log[..k], f.world))
    {
      LogKeepsLinked(hosts, f, id, log[..k], x);
      FleetIsNested(hosts, Fleet(f.rows[id := x], Replay(log[..k], f.world)));
    }
    assert log[..|log|] == log;
  }

  lemma ReconcileKeepsLinked(hosts: Hosts, f: Fleet, id: string, budget: nat)
    requires FleetLinked(hosts, f) && id in f.rows
    ensures var run := Sync(hosts, f.rows[id], f.world, budget).run;
      && FleetLinked(hosts, Fleet(f.rows, run.world)) && Along(Nested, run.log, f.world)
      && run.world == Replay(run.log, f.world)
  {
    hide *;
    var v, run := f.rows[id], Sync(hosts, f.rows[id], f.world, budget).run;
    LinkedRow(hosts, f, id);
    SyncMends(hosts, v, f.world, budget);
    forall c | c in run.log ensures Confined(v, c) {
      MendConfined(hosts, v, c);
    }
    forall k | 0 <= k <= |run.log| ensures LinksAgree(hosts, v, Replay(run.log[..k], f.world)) {
      MendsKeepLinks(hosts, v, run.log[..k], f.world);
    }
    LogNests(hosts, f, id, run.log, v);
    assert f.rows[id := v] == f.rows;
  }

  // -- Changes of the table -------------------------------------------------------------

  lemma HarmlessKeepsLinks(hosts: Hosts, v: Volume, c: Command, w: World)
    requires Harmless(c) && LinksAgree(hosts, v, w)
    ensures LinksAgree(hosts, v, Apply(c, w))
  {
    hide TargetOf, InitiatorOf, Owns;
  }

  lemma {:induction false} HarmlessLogKeepsLinks(hosts: Hosts, v: Volume, log: seq<Command>, w: World)
    requires LinksAgree(hosts, v, w) && forall c :: c in log ==> Harmless(c)
    ensures LinksAgree(hosts, v, Replay(log, w))
    decreases |log|
  {
    hide LinksAgree, Apply, Harmless;
    if log != [] {
      HarmlessKeepsLinks(hosts, v, log[0], w);
      HarmlessLogKeepsLinks(hosts, v, log[1..], Apply(log[0], w));
    }
  }

  lemma AmendedLinked(hosts: Hosts, v: Volume, updates: map<string, Value>, w: World)
    requires Lifecycle(hosts, v) && LinksAgree(hosts, v, w)
    ensures var x := Amended(v, updates);
      x.id == v.id && x.datasetID == v.datasetID && Lifecycle(hosts, x) && LinksAgree(hosts, x, w)
  {
    var x := Amended(v, updates);
    hide Lifecycle, Amended, LinksAgree;
    AmendedFields(v, updates);
    NextKeepsLifecycle(hosts, v, Amend(updates));
    SameLinks(hosts, v, x, w);
  }

  /** The links of a row are judged on these fields alone. */
  lemma SameLinks(hosts: Hosts, v: Volume, x: Volume, w: World)
    requires LinksAgree(hosts, v, w)
    requires x.id == v.id && x.status == v.status && x.datasetID == v.datasetID
    requires x.serverHost == v.serverHost && x.clientHost == v.clientHost && x.transport.kind == v.transport.kind
    ensures LinksAgree(hosts, x, w)
  {
    assert TargetOf(hosts, x) == TargetOf(hosts, v) && InitiatorOf(hosts, x) == InitiatorOf(hosts, v);
    hide TargetOf, InitiatorOf, Owns;
  }

  lemma HarmlessConfined(v: Volume, c: Command)
    requires Harmless(c)
    ensures Confined(v, c)
  {
  }

  lemma ChangeKeepsLinked(hosts: Hosts, f: Fleet, updates: map<string, Value>, budget: nat)
    requires FleetLinked(hosts, f)
    ensures var s := ServeUpdate(updates, hosts, f.rows, f.world, budget);
      FleetLinked(hosts, Fleet(s.rows, s.run.world)) && Along(Nested, s.run.log, f.world)
  {
    hide *;
    var s := ServeUpdate(updates, hosts, f.rows, f.world, budget);
    var id := StringField(updates, "id");
    ChangeRuns(hosts, f.rows, updates, f.world, budget);
    if s.rows == f.rows && s.run.log == [] {
      FleetIsNested(hosts, f);
      AlongByCommand(Nested, [], f.world);
      ReplayEmpty(f.world);
    } else {
      var v, x := f.rows[id], Amended(f.rows[id], updates);
      LinkedRow(hosts, f, id);
      AmendedLinked(hosts, v, updates, f.world);
      forall c | c in s.run.log ensures Confined(v, c) {
        HarmlessConfined(v, c);
      }
      forall k | 0 <= k <= |s.run.log| ensures LinksAgree(hosts, x, Replay(s.run.log[..k], f.world)) {
        HarmlessLogKeepsLinks(hosts, x, s.run.log[..k], f.world);
      }
      LogNests(hosts, f, id, s.run.log, x);
    }
  }

  lemma CreatedLinks(hosts: Hosts, f: Fleet, v: Volume)
    requires LinksTracked(f.rows, f.world) && v.status == INITIAL
    requires forall t :: OwnedByOne(f.rows, t) ==> !Owns(v.id, t)
    ensures LinksAgree(hosts, v, f.world)
  {
    hide Owns, OwnedByOne, TargetOf, InitiatorOf;
  }

  lemma FreshOwnsNothing(f: Fleet, v: Volume)
    requires KeyedByID(f.rows) && Fresh(f.rows, v.id, v.datasetID)
    ensures v.id !in f.rows && forall t :: OwnedByOne(f.rows, t) ==> OwnedByOne(f.rows[v.id := v], t) && !Owns(v.id, t)
  {
  }

  lemma FreshApart(rows: Table, v: Volume)
    requires RowsApart(rows) && KeyedByID(rows) && v.id !in rows
    ensures RowsApart(rows[v.id := v]) <==> Fresh(rows, v.id, v.datasetID)
  {
    hide Sanitize;
    var more := rows[v.id := v];
    if RowsApart(more) {
      forall other | other in rows
        ensures Sanitize(v.id) != Sanitize(rows[other].id) && v.datasetID != rows[other].datasetID
      {
        ApartRows(more, v.id, other);
      }
    }
  }

  /** A creation keeps all links in agreement exactly when it is refused or brings names of its own. */
  lemma CreateIsExact(hosts: Hosts, f: Fleet, request: ApiVolume)
    requires FleetLinked(hosts, f)
    ensures FleetLinked(hosts, Then(hosts, f, Create(request))) <==> WellNamed(f, Create(request))
  {
    var v := FromApi(request).(status := INITIAL);
    var s := ServeCreate(request, f.rows, f.world, 0);
    hide FleetLinked, Fresh, ColonFree;
    if s.reply.Ok? {
      CreateExact(hosts, f, request, v);
    }
  }

  lemma CreateExact(hosts: Hosts, f: Fleet, request: ApiVolume, v: Volume)
    requires FleetLinked(hosts, f) && v == FromApi(request).(status := INITIAL) && v.id !in f.rows
    ensures var more := Fleet(f.rows[v.id := v], f.world);
      FleetLinked(hosts, more) <==>
      ColonFree(request.id) && request.targetPaths == [] && Fresh(f.rows, request.id, request.datasetID)
  {
    assert v.id == request.id && v.datasetID == request.datasetID && v.status == INITIAL;
    hide FromApi, Fresh, LinksTracked, LinksAgree, RowsApart, Lifecycle;
    FreshApart(f.rows, v);
    if ColonFree(request.id) {
      CreateStartsLifecycle(hosts, request);
      if Fresh(f.rows, v.id, v.datasetID) {
        FreshOwnsNothing(f, v);
        CreatedLinks(hosts, f, v);
        MoreTracked(f.rows, f.rows[v.id := v], f.world);
      }
      if Lifecycle(hosts, v) && Fresh(f.rows, v.id, v.datasetID) {
        InsertKeepsLinked(hosts, f, v);
      }
    }
    if FleetLinked(hosts, Fleet(f.rows[v.id := v], f.world)) {
      LinkedRow(hosts, Fleet(f.rows[v.id := v], f.world), v.id);
      LifecycleNames(hosts, v);
    }
  }

  lemma InsertKeepsLinked(hosts: Hosts, f: Fleet, v: Volume)
    requires FleetLinked(hosts, f) && v.id !in f.rows && Lifecycle(hosts, v) && LinksAgree(hosts, v, f.world)
    requires RowsApart(f.rows[v.id := v]) && LinksTracked(f.rows[v.id := v], f.world)
    ensures FleetLinked(hosts, Fleet(f.rows[v.id := v], f.world))
  {
    hide Lifecycle, LinksAgree, RowsApart, LinksTracked;
  }

  lemma LifecycleNames(hosts: Hosts, v: Volume)
    ensures Lifecycle(hosts, v) ==> ColonFree(v.id)
  {
  }

  lemma MoreTracked(rows: Table, more: Table, w: World)
    requires LinksTracked(rows, w) && forall t :: OwnedByOne(rows, t) ==> OwnedByOne(more, t)
    ensures LinksTracked(more, w)
  {
    hide OwnedByOne;
  }

  /** Nothing of an unpublished row is exported or attached, so without it all are tracked. */
  lemma UnpublishedLeft(hosts: Hosts, f: Fleet, id: string, w: World)
    requires FleetLinked(hosts, f) && id in f.rows && !f.rows[id].IsPublished()
    requires w.targets == f.world.targets && w.sessions == f.world.sessions
    ensures LinksTracked(f.rows - {id}, w)
  {
    LinkedRow(hosts, f, id);
    assert LinksTracked(f.rows, f.world);
    assert forall t :: OwnedByOne(f.rows, t) && !Owns(id, t) ==> OwnedByOne(f.rows - {id}, t);
    hide Owns, OwnedByOne, FleetLinked, Lifecycle, TargetOf, InitiatorOf;
  }

  lemma RemovedKeepsLinked(hosts: Hosts, f: Fleet, id: string, w: World)
    requires FleetLinked(hosts, f) && id in f.rows && !f.rows[id].IsPublished()
    requires w.targets == f.world.targets && w.sessions == f.world.sessions && Leaves(f.rows[id], f.world, w)
    ensures FleetLinked(hosts, Fleet(f.rows - {id}, w))
  {
    hide Lifecycle, LinksAgree, Leaves, LinksTracked, Apart;
    UnpublishedLeft(hosts, f, id, w);
    forall other | other in f.rows && other != id ensures LinksAgree(hosts, f.rows[other], w) {
      ApartRows(f.rows, id, other);
      LinksLeft(hosts, f.rows[id], f.rows[other], f.world, w);
    }
  }

  lemma DeleteKeepsLinked(hosts: Hosts, f: Fleet, id: string, budget: nat)
    requires FleetLinked(hosts, f)
    ensures var s := ServeDelete(id, hosts, f.rows, f.world, budget);
      && FleetLinked(hosts, Fleet(s.rows, s.run.world)) && Along(Nested, s.run.log, f.world)
      && s.run.world == Replay(s.run.log, f.world)
  {
    hide FleetLinked, Execute, Apply, Leaves, Nested, Along, Replay;
    var s := ServeDelete(id, hosts, f.rows, f.world, budget);
    FleetIsNested(hosts, f);
    AlongByCommand(Nested, [], f.world);
    ReplayEmpty(f.world);
    if id in f.rows && !f.rows[id].IsPublished() {
      var v := f.rows[id];
      var destroy := DestroyZvol(v.serverHost, v.datasetID);
      LeavesItself(v, f.world);
      RemovedKeepsLinked(hosts, f, id, f.world);
      DestroyKeepsLinked(hosts, f, id);
      ExecuteOne(destroy, f.world, budget);
      OneNests(destroy, f.world);
    }
  }

  lemma LeavesItself(v: Volume, w: World)
    ensures Leaves(v, w, w)
  {
  }

  lemma DestroyKeepsLinked(hosts: Hosts, f: Fleet, id: string)
    requires FleetLinked(hosts, f) && id in f.rows && !f.rows[id].IsPublished()
    ensures var w1 := Apply(DestroyZvol(f.rows[id].serverHost, f.rows[id].datasetID), f.world);
      FleetLinked(hosts, Fleet(f.rows - {id}, w1)) && Nested(w1)
  {
    var destroy := DestroyZvol(f.rows[id].serverHost, f.rows[id].datasetID);
    hide FleetLinked, Leaves;
    CommandLeaves(f.rows[id], destroy, f.world);
    RemovedKeepsLinked(hosts, f, id, Apply(destroy, f.world));
    FleetIsNested(hosts, Fleet(f.rows - {id}, Apply(destroy, f.world)));
  }

  lemma OneNests(c: Command, w: World)
    requires Nested(w) && Nested(Apply(c, w))
    ensures Along(Nested, [c], w) && Replay([c], w) == Apply(c, w)
  {
    hide Nested, Apply;
    ReplayEmpty(Apply(c, w));
    assert [c][..1] == [c] && [c][1..] == [] && [c][..0] == [];
  }

  // -- Runs -----------------------------------------------------------------------------

  lemma StepKeepsLinked(hosts: Hosts, f: Fleet, s: FleetStep)
    requires FleetLinked(hosts, f) && Requested(s)
    ensures var t := Take(hosts, f, s);
      && (FleetLinked(hosts, Then(hosts, f, s)) <==> WellNamed(f, s))
      && Along(Nested, t.run.log, f.world) && t.run.world == Replay(t.run.log, f.world)
  {
    hide FleetLinked, Nested, ServeUpdate, ServeDelete, Sync, Handle, Execute, Along, Fresh, Replay, Validated;
    FleetIsNested(hosts, f);
    AlongByCommand(Nested, [], f.world);
    ReplayEmpty(f.world);
    match s
    case Operate(id, op, budget) =>
      if id in f.rows {
        OperateKeepsLinked(hosts, f, id, op, budget);
        OperateNests(hosts, f, id, op, budget);
        LinkedRow(hosts, f, id);
        CallLeaves(op, hosts, f.rows[id], f.world, budget);
      }
    case Reconcile(id, budget) =>
      if id in f.rows {
        ReconcileKeepsLinked(hosts, f, id, budget);
      }
    case Change(updates, budget) =>
      ChangeKeepsLinked(hosts, f, updates, budget);
      ChangeRuns(hosts, f.rows, updates, f.world, budget);
    case Create(request) => CreateIsExact(hosts, f, request);
    case Delete(id, budget) => DeleteKeepsLinked(hosts, f, id, budget);
  }

  /** Every creation of a run brings names of its own, or is refused. */
  predicate AllWellNamed(hosts: Hosts, f: Fleet, steps: seq<FleetStep>)
    decreases |steps|
  {
    steps == [] || (WellNamed(f, steps[0]) && AllWellNamed(hosts, Then(hosts, f, steps[0]), steps[1..]))
  }

  /**
   * Every run of handlers, Syncs, updates, creations and deletions, with any failures and
   * on any paths, nests sessions, ACLs, targets and zvols after every single command.
   */
  lemma {:induction false} RunIsNested(hosts: Hosts, f: Fleet, steps: seq<FleetStep>)
    requires FleetLinked(hosts, f) && AllRequested(steps) && AllWellNamed(hosts, f, steps)
    ensures FleetLinked(hosts, Finish(hosts, f, steps))
    ensures Along(Nested, Issued(hosts, f, steps), f.world)
    ensures Finish(hosts, f, steps).world == Replay(Issued(hosts, f, steps), f.world)
    decreases |steps|
  {
    hide FleetLinked, Nested, Take, WellNamed, Replay, Apply, Requested;
    if steps == [] {
      FleetIsNested(hosts, f);
      AlongByCommand(Nested, [], f.world);
      ReplayEmpty(f.world);
    } else {
      var next, log := Then(hosts, f, steps[0]), Take(hosts, f, steps[0]).run.log;
      StepKeepsLinked(hosts, f, steps[0]);
      RunIsNested(hosts, next, steps[1..]);
      AlongAppend(Nested, log, Issued(hosts, next, steps[1..]), f.world);
      ReplayAppend(log, Issued(hosts, next, steps[1..]), f.world);
    }
  }
}
