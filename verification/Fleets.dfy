/**
 * All volumes on shared hosts: the steps of the service, and what the commands of one
 * volume leave alone of every other.
 */
module Fleets {
  import opened Names
  import opened Structs
  import opened Volumes
  import opened Clusters
  import opened Conversions
  import opened Plans
  import opened VolumeServices
  import opened Lifecycles
  import opened Links
  import opened Syncers

  datatype Fleet = Fleet(rows: Table, world: World)

  /** One step of the service: a handler call, a Sync of one volume, or a change of the table. */
  datatype FleetStep =
    | Operate(id: string, op: Op, budget: nat)
    | Reconcile(id: string, budget: nat)
    | Change(updates: map<string, Value>, budget: nat)
    | Create(request: ApiVolume)
    | Delete(id: string, budget: nat)

  datatype Turn = Turn(rows: Table, run: Run)

  function TurnOf(s: Service): Turn {
    Turn(s.rows, s.run)
  }

  function Take(hosts: Hosts, f: Fleet, s: FleetStep): Turn {
    match s
    case Operate(id, op, budget) => TurnOf(Serve(op, id, hosts, f.rows, f.world, budget))
    case Reconcile(id, budget) =>
      Turn(f.rows, if id in f.rows then Sync(hosts, f.rows[id], f.world, budget).run
                   else Run(f.world, budget, [], false))
    case Change(updates, budget) => TurnOf(ServeUpdate(updates, hosts, f.rows, f.world, budget))
    case Create(request) => TurnOf(ServeCreate(request, f.rows, f.world, 0))
    case Delete(id, budget) => TurnOf(ServeDelete(id, hosts, f.rows, f.world, budget))
  }

  function Then(hosts: Hosts, f: Fleet, s: FleetStep): Fleet {
    var t := Take(hosts, f, s); Fleet(t.rows, t.run.world)
  }

  function Finish(hosts: Hosts, f: Fleet, steps: seq<FleetStep>): Fleet
    decreases |steps|
  {
    if steps == [] then f else Finish(hosts, Then(hosts, f, steps[0]), steps[1..])
  }

  /** The commands a run issued, in order. */
  function Issued(hosts: Hosts, f: Fleet, steps: seq<FleetStep>): seq<Command>
    decreases |steps|
  {
    if steps == [] then []
    else Take(hosts, f, steps[0]).run.log + Issued(hosts, Then(hosts, f, steps[0]), steps[1..])
  }

  // -- What is left alone ---------------------------------------------------------------

  /** Volumes whose names and datasets do not meet. */
  predicate Apart(v: Volume, u: Volume) {
    Sanitize(v.id) != Sanitize(u.id) && v.datasetID != u.datasetID
  }

  /** A command names no target but the volume's own, and destroys no zvol but its own. */
  predicate Confined(v: Volume, c: Command) {
    match c
    case DestroyZvol(_, dataset) => dataset == v.datasetID
    case Export(_, target, _) => Owns(v.id, target)
    case Unexport(_, target) => Owns(v.id, target)
    case Allow(_, target, _) => Owns(v.id, target)
    case Deny(_, target, _) => Owns(v.id, target)
    case Login(_, _, target, _) => Owns(v.id, target)
    case Logout(_, target) => Owns(v.id, target)
    case _ => true
  }

  /** Targets and sessions of other volumes stay as they are, and their zvols stay. */
  ghost predicate Leaves(v: Volume, w: World, w1: World) {
    && (forall k: At :: !Owns(v.id, k.name) ==>
          && (k in w1.targets <==> k in w.targets) && (k in w.targets ==> w1.targets[k] == w.targets[k])
          && (k in w1.sessions <==> k in w.sessions) && (k in w.sessions ==> w1.sessions[k] == w.sessions[k]))
    && (forall k: At :: k.name != v.datasetID ==>
          (k in w.zvols ==> k in w1.zvols) && (k in w.filesystems ==> k in w1.filesystems))
  }

  lemma LinkLeft(v: Volume, c: Command, w: World, k: At)
    requires Confined(v, c) && !Owns(v.id, k.name)
    ensures var w1 := Apply(c, w);
      && (k in w1.targets <==> k in w.targets) && (k in w.targets ==> w1.targets[k] == w.targets[k])
      && (k in w1.sessions <==> k in w.sessions) && (k in w.sessions ==> w1.sessions[k] == w.sessions[k])
  {
    hide Owns, Backing, Pushed, Popped;
  }

  lemma StoreLeft(v: Volume, c: Command, w: World, k: At)
    requires Confined(v, c) && k.name != v.datasetID
    ensures var w1 := Apply(c, w);
      (k in w.zvols ==> k in w1.zvols) && (k in w.filesystems ==> k in w1.filesystems)
  {
    hide Owns, Backing, Pushed, Popped;
  }

  lemma CommandLeaves(v: Volume, c: Command, w: World)
    requires Confined(v, c)
    ensures Leaves(v, w, Apply(c, w))
  {
    hide Apply, Confined, Owns;
    forall k: At | !Owns(v.id, k.name)
      ensures var w1 := Apply(c, w);
        && (k in w1.targets <==> k in w.targets) && (k in w.targets ==> w1.targets[k] == w.targets[k])
        && (k in w1.sessions <==> k in w.sessions) && (k in w.sessions ==> w1.sessions[k] == w.sessions[k])
    {
      LinkLeft(v, c, w, k);
    }
    forall k: At | k.name != v.datasetID
      ensures var w1 := Apply(c, w);
        (k in w.zvols ==> k in w1.zvols) && (k in w.filesystems ==> k in w1.filesystems)
    {
      StoreLeft(v, c, w, k);
    }
  }

  /** Commands of one volume, however many, leave the others' targets, sessions and zvols alone. */
  lemma {:induction false} LogLeaves(v: Volume, log: seq<Command>, w: World)
    requires forall c :: c in log ==> Confined(v, c)
    ensures Leaves(v, w, Replay(log, w))
    decreases |log|
  {
    hide Owns, Apply, Confined;
    if log != [] {
      CommandLeaves(v, log[0], w);
      LogLeaves(v, log[1..], Apply(log[0], w));
    }
  }

  lemma PublishConfined(hosts: Hosts, v: Volume, w: World, kind: TransportKind, server: string, c: Command)
    requires ColonFree(v.id) && PublishPlan(hosts, v, w, kind, server).Act?
    requires c in PublishPlan(hosts, v, w, kind, server).script
    ensures Confined(v, c)
  {
    var concrete := if kind == NvmeofTcp then NvmeofTcp else Iscsi;
    TargetNameOwned(ClientID(hosts[server], concrete).value, v.id);
    hide Owns, ClientID, TargetName, ColonFree;
  }

  lemma LinkPlansConfined(op: Op, hosts: Hosts, v: Volume, w: World, c: Command)
    requires op.Unpublish? || op.Connect? || op.Disconnect?
    requires Lifecycle(hosts, v) && PlanOf(op, hosts, v, w).Act? && c in PlanOf(op, hosts, v, w).script
    ensures Confined(v, c)
  {
    TargetIsOwned(hosts, v);
    hide Owns, TargetID, ClientID;
  }

  /** The commands of a handler concern its own volume only. */
  lemma PlanConfined(op: Op, hosts: Hosts, v: Volume, w: World, c: Command)
    requires Lifecycle(hosts, v) && PlanOf(op, hosts, v, w).Act? && c in PlanOf(op, hosts, v, w).script
    ensures Confined(v, c)
  {
    if op.Publish? {
      PublishConfined(hosts, v, w, op.kind, op.serverHost, c);
    } else if LinkCall(op) {
      hide *;
      LinkPlansConfined(op, hosts, v, w, c);
    } else {
      hide PlanOf, Lifecycle, Owns;
      PlanSides(op, hosts, v, w, c);
    }
  }

  lemma PlanKeepsIdentity(op: Op, hosts: Hosts, v: Volume, w: World, budget: nat)
    ensures var u := Handle(op, hosts, v, w, budget).volume; u.id == v.id && u.datasetID == v.datasetID
  {
    hide Execute, TargetID, ClientID, Lookup, PublishScript, StageScript, MountScript;
  }

  lemma HandleRuns(op: Op, hosts: Hosts, v: Volume, w: World, budget: nat)
    ensures var o, plan := Handle(op, hosts, v, w, budget), PlanOf(op, hosts, v, w);
      if plan.Act? then o.run == Execute(plan.script, w, budget)
      else o.volume == v && o.run.world == w && o.run.log == []
  {
    hide PlanOf, Execute, Persist;
  }

  /** A call runs commands of its own volume only, and nothing else changes the world. */
  lemma CallLeaves(op: Op, hosts: Hosts, v: Volume, w: World, budget: nat)
    requires Lifecycle(hosts, v)
    ensures var r := Handle(op, hosts, v, w, budget).run;
      r.world == Replay(r.log, w) && forall c :: c in r.log ==> Confined(v, c)
  {
    hide *;
    var r, plan := Handle(op, hosts, v, w, budget).run, PlanOf(op, hosts, v, w);
    HandleRuns(op, hosts, v, w, budget);
    if plan.Act? {
      ExecuteIsPrefix(plan.script, w, budget);
      forall c | c in r.log ensures Confined(v, c) {
        PlanConfined(op, hosts, v, w, c);
      }
    } else {
      ReplayEmpty(w);
    }
  }

  // -- Changes of the table -------------------------------------------------------------

  /** The given ID and dataset meet those of no row. */
  predicate Fresh(rows: Table, id: string, dataset: string) {
    forall other :: other in rows ==> Sanitize(id) != Sanitize(rows[other].id) && dataset != rows[other].datasetID
  }

  /** A creation is refused, or starts a lifecycle under an ID and dataset of its own. */
  predicate WellNamed(f: Fleet, s: FleetStep) {
    s.Create? ==>
      || ServeCreate(s.request, f.rows, f.world, 0).reply.Error?
      || (ColonFree(s.request.id) && s.request.targetPaths == [] && Fresh(f.rows, s.request.id, s.request.datasetID))
  }

  /** Calls pass the API's validation before they reach the service. */
  predicate Requested(s: FleetStep) {
    s.Operate? ==> Validated(s.op)
  }

  predicate AllRequested(steps: seq<FleetStep>) {
    forall i :: 0 <= i < |steps| ==> Requested(steps[i])
  }

  /** The commands of an update: they change the size of zvols that exist, and nothing else. */
  predicate Harmless(c: Command) {
    c.SetVolsize? || c.SetOption? || c.Rescan? || c.FindDevice? || c.ResizeFilesystem?
  }

  lemma RefreshHarmless(hosts: Hosts, v: Volume, c: Command)
    requires c in ServerRefresh(v) + ClientRefresh(hosts, v).script
    ensures Harmless(c)
  {
  }

  /** An accepted update rewrites one row and runs a prefix of its refresh. */
  lemma ChangeRuns(hosts: Hosts, rows: Table, updates: map<string, Value>, w: World, budget: nat)
    ensures var s := ServeUpdate(updates, hosts, rows, w, budget);
      && s.run.world == Replay(s.run.log, w) && (forall c :: c in s.run.log ==> Harmless(c))
      && ((s.rows == rows && s.run.log == [])
          || (var id := StringField(updates, "id"); id in rows && s.rows == rows[id := Amended(rows[id], updates)]))
  {
    var id := StringField(updates, "id");
    ReplayEmpty(w);
    hide Execute, Replay, ServerRefresh, ClientRefresh, WellTyped, GivenUpdate, Persist, Harmless;
    if id in rows && WellTyped(updates) {
      var given := GivenUpdate(rows[id], updates);
      var script := ServerRefresh(given) + ClientRefresh(hosts, given).script;
      ExecuteIsPrefix(script, w, budget);
      forall c | c in script ensures Harmless(c) {
        RefreshHarmless(hosts, given, c);
      }
    }
  }
}
