/**
 * All volumes on shared hosts, mounts included: exactly which steps keep every row in
 * agreement, and so exactly which runs do.
 */
module FleetRuns {
  import opened Names
  import opened Structs
  import opened Volumes
  import opened Clusters
  import opened Conversions
  import opened Plans
  import opened VolumeServices
  import opened Lifecycles
  import opened Links
  import opened Agreements
  import opened Syncers
  import opened SyncLinks
  import opened Reconciliations
  import opened SyncAgreements
  import opened Fleets
  import opened Nestings

  /** No mounted device is left over from outside the table. */
  ghost predicate DevicesTracked(rows: Table, mounts: MountTable) {
    forall h, p, i :: 0 <= i < |MountsAt(mounts, h, p)| && MountsAt(mounts, h, p)[i].Device?
      ==> OwnedByOne(rows, MountsAt(mounts, h, p)[i].target)
  }

  ghost predicate RowMounted(hosts: Hosts, v: Volume, w: World) {
    MountsAgree(hosts, v, w.mounts) && FilesystemAgrees(v, w)
  }

  ghost predicate FleetMounted(hosts: Hosts, f: Fleet) {
    && (forall id :: id in f.rows ==> RowMounted(hosts, f.rows[id], f.world))
    && DevicesTracked(f.rows, f.world.mounts)
  }

  /** Every row follows the lifecycle and agrees with the shared hosts. */
  ghost predicate FleetAgrees(hosts: Hosts, f: Fleet) {
    FleetLinked(hosts, f) && FleetMounted(hosts, f)
  }

  lemma RowInOrder(hosts: Hosts, f: Fleet, id: string)
    requires FleetAgrees(hosts, f) && id in f.rows
    ensures f.rows[id].id == id && Lifecycle(hosts, f.rows[id]) && Agree(hosts, f.rows[id], f.world)
    ensures MountsAgree(hosts, f.rows[id], f.world.mounts) && FilesystemAgrees(f.rows[id], f.world)
  {
  }

  // -- One mount or unmount -------------------------------------------------------------

  /** A mount breaks exactly the rows that count on its mount point, unless it is their own. */
  lemma PushExact(hosts: Hosts, u: Volume, mounts: MountTable, host: string, path: string, source: Source)
    requires MountsAgree(hosts, u, mounts) && !IsDeviceOf(u, source)
    requires u.IsStaged() ==> Owns(u.id, TargetOf(hosts, u))
    requires host == u.clientHost && path in u.targetPaths ==> source != Bind(u.stagingPath)
    ensures MountsAgree(hosts, u, Pushed(mounts, host, path, source)) <==> !Uses(u, host, path)
  {
    hide TargetOf, Owns, MountsAt, Pushed;
    PushedChanges(mounts, host, path, source);
    var now, before := MountsAt(Pushed(mounts, host, path, source), host, path), MountsAt(mounts, host, path);
    assert forall i :: 0 <= i < |now| && IsDeviceOf(u, now[i]) ==> now[i] in before;
  }

  /** Under what is unmounted lies another bind of the row's staging path. */
  predicate Survives(u: Volume, mounts: MountTable, host: string, path: string) {
    var stack := MountsAt(mounts, host, path);
    Uses(u, host, path) ==>
      path in u.targetPaths && |stack| >= 2 && stack[|stack| - 2] == Bind(u.stagingPath)
  }

  /** An unmount breaks exactly the rows that count on its mount point, unless they are bound there twice. */
  lemma PopExact(hosts: Hosts, u: Volume, mounts: MountTable, host: string, path: string)
    requires MountsAgree(hosts, u, mounts) && (u.IsStaged() ==> Owns(u.id, TargetOf(hosts, u)))
    ensures MountsAgree(hosts, u, Popped(mounts, host, path)) <==> Survives(u, mounts, host, path)
  {
    hide TargetOf, Owns, MountsAt, Popped;
    PoppedChanges(mounts, host, path);
    if Survives(u, mounts, host, path) {
      assert Uses(u, host, path) && u.IsStaged() ==> path != u.stagingPath;
    }
  }

  /** The mounts of two rows in agreement never share a mount point. */
  lemma UsesDisjoint(hosts: Hosts, v: Volume, u: Volume, mounts: MountTable, path: string)
    requires Lifecycle(hosts, v) && Lifecycle(hosts, u) && Apart(v, u)
    requires MountsAgree(hosts, v, mounts) && MountsAgree(hosts, u, mounts)
    requires Uses(v, v.clientHost, path)
    ensures !Uses(u, v.clientHost, path)
  {
    if Uses(u, v.clientHost, path) {
      TargetIsOwned(hosts, v);
      TargetIsOwned(hosts, u);
    }
    hide Owns, TargetOf, MountsAt;
  }

  // -- Handler calls --------------------------------------------------------------------

  /** The mounts a call leaves, wherever it stops. */
  function MountsAfter(op: Op, hosts: Hosts, v: Volume, w: World, budget: nat): MountTable {
    match op
    case Stage(path) =>
      if Effective(op, hosts, v, w, budget) then Pushed(w.mounts, v.clientHost, path, Device(TargetOf(hosts, v)))
      else w.mounts
    case Unstage =>
      if Effective(op, hosts, v, w, budget) then Popped(w.mounts, v.clientHost, v.stagingPath) else w.mounts
    case Mount(path) =>
      if PlanOf(op, hosts, v, w).Act? && budget >= 2
      then Pushed(w.mounts, v.clientHost, path, Bind(v.stagingPath)) else w.mounts
    case Unmount(path) =>
      if Effective(op, hosts, v, w, budget) then Popped(w.mounts, v.clientHost, path) else w.mounts
    case _ => w.mounts
  }

  predicate MovesMounts(c: Command) {
    c.MountDevice? || c.MountBind? || c.Umount?
  }

  lemma MountsStay(c: Command, w: World)
    requires !MovesMounts(c)
    ensures Apply(c, w).mounts == w.mounts
  {
    hide Backing, Pushed, Popped;
  }

  lemma {:induction false} ScriptKeepsMounts(script: seq<Command>, w: World, budget: nat)
    requires forall c :: c in script ==> !MovesMounts(c)
    ensures Execute(script, w, budget).world.mounts == w.mounts
    decreases |script|
  {
    hide Apply, Answers;
    if script != [] && budget != 0 && Answers(script[0], w) {
      MountsStay(script[0], w);
      ScriptKeepsMounts(script[1..], Apply(script[0], w), budget - 1);
    }
  }

  lemma StageMounts(v: Volume, w: World, target: string, budget: nat)
    ensures var r := Execute(StageScript(v, w, target), w, budget);
      r.world.mounts == if r.ok then Pushed(w.mounts, v.clientHost, v.stagingPath, Device(target)) else w.mounts
  {
    var device := MountDevice(v.clientHost, target, v.stagingPath);
    var before := [FindDevice(v.clientHost, target)] + FormatScript(v, w, target)
                  + [MakePath(v.clientHost, v.stagingPath)];
    assert StageScript(v, w, target) == before + [device];
    ScriptKeepsMounts(before, w, budget);
    ExecuteAppend(before, [device], w, budget);
    var r := Execute(before, w, budget);
    ExecuteOne(device, r.world, r.left);
    hide Execute, StageScript, FormatScript, Pushed;
  }

  lemma ActRuns(op: Op, hosts: Hosts, v: Volume, w: World, budget: nat)
    requires PlanOf(op, hosts, v, w).Act?
    ensures var r := Execute(PlanOf(op, hosts, v, w).script, w, budget);
      Handle(op, hosts, v, w, budget).run == r && (Effective(op, hosts, v, w, budget) <==> r.ok)
  {
    hide PlanOf, Execute, Persist;
  }

  lemma MountScripts(op: Op, hosts: Hosts, v: Volume, w: World)
    requires Lifecycle(hosts, v) && PlanOf(op, hosts, v, w).Act?
    ensures var plan := PlanOf(op, hosts, v, w);
      match op
      case Stage(path) =>
        && plan.script == StageScript(plan.given, w, TargetOf(hosts, v))
        && plan.given.clientHost == v.clientHost && plan.given.stagingPath == path
      case Unstage => plan.script == [Umount(v.clientHost, v.stagingPath)]
      case Mount(path) =>
        && plan.script == MountScript(plan.given, path)
        && plan.given.clientHost == v.clientHost && plan.given.stagingPath == v.stagingPath
      case Unmount(path) => plan.script == [Umount(v.clientHost, path)]
      case _ => true
  {
    hide TargetOf, Lookup, StageScript, MountScript, IndexOf, Without;
    if op.Stage? {
      PayloadIsTarget(hosts, v);
    }
    hide Lifecycle;
  }

  lemma CallMounts(op: Op, hosts: Hosts, v: Volume, w: World, budget: nat)
    requires Lifecycle(hosts, v)
    ensures Handle(op, hosts, v, w, budget).run.world.mounts == MountsAfter(op, hosts, v, w, budget)
  {
    hide Execute, Lifecycle, PlanOf, Handle, Effective, TargetOf, StageScript, MountScript;
    if LinkCall(op) {
      CallSides(op, hosts, v, w, budget);
    } else if !PlanOf(op, hosts, v, w).Act? {
      HandleRuns(op, hosts, v, w, budget);
      assert !Effective(op, hosts, v, w, budget) by {
        NoActNoEffect(op, hosts, v, w, budget);
      }
    } else {
      var given := PlanOf(op, hosts, v, w).given;
      ActRuns(op, hosts, v, w, budget);
      MountScripts(op, hosts, v, w);
      match op {
        case Stage(path) => StageMounts(given, w, TargetOf(hosts, v), budget);
        case Unstage => ExecuteOne(Umount(v.clientHost, v.stagingPath), w, budget);
        case Mount(path) => MountReaches(given, path, w, budget);
        case Unmount(path) => ExecuteOne(Umount(v.clientHost, path), w, budget);
        case _ =>
      }
    }
  }

  lemma NoActNoEffect(op: Op, hosts: Hosts, v: Volume, w: World, budget: nat)
    ensures Effective(op, hosts, v, w, budget) ==> PlanOf(op, hosts, v, w).Act?
  {
  }

  lemma PayloadIsTarget(hosts: Hosts, v: Volume)
    requires Lifecycle(hosts, v) && v.IsPublished() && v.transport.Payload().Some?
    ensures v.transport.Payload().value.targetID == TargetOf(hosts, v)
  {
  }

  /** The call mounts where the other row counts on a mount of its own. */
  predicate Covers(op: Op, v: Volume, u: Volume) {
    || (op.Stage? && Uses(u, v.clientHost, op.stagingPath))
    || (op.Mount? && Uses(u, v.clientHost, op.mountPath))
  }

  lemma StagedOwns(hosts: Hosts, v: Volume, u: Volume)
    requires Lifecycle(hosts, u) && Apart(v, u)
    ensures u.IsStaged() ==> Owns(u.id, TargetOf(hosts, u))
    ensures forall t :: Owns(v.id, t) ==> !IsDeviceOf(u, Device(t))
    ensures u.targetPaths != [] ==> u.IsStaged()
  {
    if u.IsStaged() {
      TargetIsOwned(hosts, u);
    }
  }

  /** What acting plans say of the row and the mount points they touch. */
  lemma PlanUses(op: Op, hosts: Hosts, v: Volume, w: World)
    requires Lifecycle(hosts, v) && PlanOf(op, hosts, v, w).Act?
    ensures op.Stage? ==> v.IsConnected()
    ensures op.Mount? ==> v.IsStaged()
    ensures op.Unstage? ==> Uses(v, v.clientHost, v.stagingPath)
    ensures op.Unmount? ==> Uses(v, v.clientHost, op.mountPath)
  {
    hide TargetID, ClientID, Lookup;
  }

  /** A call on one volume breaks the mounts of another exactly when it covers one of them. */
  lemma CallOthersExact(op: Op, hosts: Hosts, v: Volume, u: Volume, w: World, budget: nat)
    requires Lifecycle(hosts, v) && Lifecycle(hosts, u) && Apart(v, u)
    requires MountsAgree(hosts, v, w.mounts) && MountsAgree(hosts, u, w.mounts)
    ensures MountsAgree(hosts, u, MountsAfter(op, hosts, v, w, budget))
       <==> (Reaches(op, hosts, v, w, budget) ==> !Covers(op, v, u))
  {
    hide Lifecycle, MountsAgree, PlanOf, Handle, Uses, TargetOf, Apart, Owns;
    StagedOwns(hosts, v, u);
    if PlanOf(op, hosts, v, w).Act? {
      PlanUses(op, hosts, v, w);
      match op {
        case Stage(path) =>
          TargetIsOwned(hosts, v);
          PushExact(hosts, u, w.mounts, v.clientHost, path, Device(TargetOf(hosts, v)));
        case Unstage =>
          UsesDisjoint(hosts, v, u, w.mounts, v.stagingPath);
          PopExact(hosts, u, w.mounts, v.clientHost, v.stagingPath);
        case Mount(path) =>
          StagingPathsDiffer(hosts, v, u, w.mounts);
          PushExact(hosts, u, w.mounts, v.clientHost, path, Bind(v.stagingPath));
        case Unmount(path) =>
          UsesDisjoint(hosts, v, u, w.mounts, path);
          PopExact(hosts, u, w.mounts, v.clientHost, path);
        case _ =>
      }
    }
  }

  lemma StagingPathsDiffer(hosts: Hosts, v: Volume, u: Volume, mounts: MountTable)
    requires Lifecycle(hosts, v) && Lifecycle(hosts, u) && Apart(v, u) && v.IsStaged()
    requires MountsAgree(hosts, v, mounts) && MountsAgree(hosts, u, mounts)
    ensures u.IsStaged() && u.clientHost == v.clientHost ==> u.stagingPath != v.stagingPath
  {
    hide Lifecycle, MountsAgree, Apart;
    UsesDisjoint(hosts, v, u, mounts, v.stagingPath);
  }

  lemma PushTracked(rows: Table, mounts: MountTable, host: string, path: string, source: Source)
    requires DevicesTracked(rows, mounts) && (source.Device? ==> OwnedByOne(rows, source.target))
    ensures DevicesTracked(rows, Pushed(mounts, host, path, source))
  {
    PushedChanges(mounts, host, path, source);
    hide OwnedByOne, MountsAt, Pushed;
  }

  lemma PopTracked(rows: Table, mounts: MountTable, host: string, path: string)
    requires DevicesTracked(rows, mounts)
    ensures DevicesTracked(rows, Popped(mounts, host, path))
  {
    PoppedChanges(mounts, host, path);
    hide OwnedByOne, MountsAt, Popped;
  }

  lemma CallTracked(op: Op, hosts: Hosts, rows: Table, id: string, w: World, budget: nat)
    requires id in rows && rows[id].id == id && Lifecycle(hosts, rows[id]) && DevicesTracked(rows, w.mounts)
    ensures DevicesTracked(rows, MountsAfter(op, hosts, rows[id], w, budget))
  {
    var v := rows[id];
    assert forall t :: Owns(id, t) ==> OwnedByOne(rows, t);
    hide Lifecycle, DevicesTracked, OwnedByOne, PlanOf, Handle, TargetOf, Owns;
    if PlanOf(op, hosts, v, w).Act? {
      PlanUses(op, hosts, v, w);
      match op {
        case Stage(path) =>
          TargetIsOwned(hosts, v);
          PushTracked(rows, w.mounts, v.clientHost, path, Device(TargetOf(hosts, v)));
        case Unstage => PopTracked(rows, w.mounts, v.clientHost, v.stagingPath);
        case Mount(path) => PushTracked(rows, w.mounts, v.clientHost, path, Bind(v.stagingPath));
        case Unmount(path) => PopTracked(rows, w.mounts, v.clientHost, path);
        case _ =>
      }
    }
  }

  lemma SameTracked(rows: Table, more: Table, mounts: MountTable)
    requires DevicesTracked(rows, mounts) && forall id :: id in rows ==> id in more
    ensures DevicesTracked(more, mounts)
  {
    assert forall t :: OwnedByOne(rows, t) ==> OwnedByOne(more, t);
    hide OwnedByOne, MountsAt;
  }

  lemma FilesystemLeft(v: Volume, u: Volume, w: World, w1: World)
    requires FilesystemAgrees(u, w) && Leaves(v, w, w1) && Apart(v, u)
    ensures FilesystemAgrees(u, w1)
  {
    hide Owns, Sanitize;
  }

  /** A call, once it reaches what it may disturb, is admissible and covers no other row's mounts. */
  predicate KindCall(hosts: Hosts, f: Fleet, id: string, op: Op, budget: nat)
    requires id in f.rows
  {
    var v := f.rows[id];
    Reaches(op, hosts, v, f.world, budget) ==>
      Admissible(op, v) && forall other :: other in f.rows && other != id ==> !Covers(op, v, f.rows[other])
  }

  lemma OperateOthers(hosts: Hosts, f: Fleet, id: string, other: string, op: Op, budget: nat)
    requires FleetAgrees(hosts, f) && id in f.rows && other in f.rows && other != id
    ensures var w1 := Handle(op, hosts, f.rows[id], f.world, budget).run.world;
      RowMounted(hosts, f.rows[other], w1)
      <==> (Reaches(op, hosts, f.rows[id], f.world, budget) ==> !Covers(op, f.rows[id], f.rows[other]))
  {
    var v, u, r := f.rows[id], f.rows[other], Handle(op, hosts, f.rows[id], f.world, budget).run;
    RowInOrder(hosts, f, id);
    RowInOrder(hosts, f, other);
    ApartRows(f.rows, id, other);
    hide FleetAgrees, Lifecycle, Agree, MountsAgree, FilesystemAgrees, Handle, Apart, Reaches, Covers, Confined,
      Leaves, Replay, MountsAfter;
    CallOthersExact(op, hosts, v, u, f.world, budget);
    CallMounts(op, hosts, v, f.world, budget);
    CallLeaves(op, hosts, v, f.world, budget);
    LogLeaves(v, r.log, f.world);
    FilesystemLeft(v, u, f.world, r.world);
  }

  /** A call, failing anywhere, keeps all rows in agreement exactly when it is kind. */
  lemma OperateIsExact(hosts: Hosts, f: Fleet, id: string, op: Op, budget: nat)
    requires FleetAgrees(hosts, f) && id in f.rows && Validated(op)
    ensures FleetAgrees(hosts, Then(hosts, f, Operate(id, op, budget))) <==> KindCall(hosts, f, id, op, budget)
  {
    var v, o := f.rows[id], Handle(op, hosts, f.rows[id], f.world, budget);
    var next := Fleet(f.rows[id := o.volume], o.run.world);
    assert Then(hosts, f, Operate(id, op, budget)) == next;
    RowInOrder(hosts, f, id);
    hide FleetLinked, Lifecycle, MountsAgree, FilesystemAgrees, LinksAgree, Handle, Reaches, Covers, Then,
      DevicesTracked, Admissible;
    OperateKeepsLinked(hosts, f, id, op, budget);
    LinkedRow(hosts, next, id);
    AdmissibleIsExact(op, hosts, v, f.world, budget);
    CallTracked(op, hosts, f.rows, id, f.world, budget);
    CallMounts(op, hosts, v, f.world, budget);
    SameTracked(f.rows, next.rows, o.run.world.mounts);
    forall other | other in f.rows && other != id
      ensures RowMounted(hosts, f.rows[other], o.run.world)
         <==> (Reaches(op, hosts, v, f.world, budget) ==> !Covers(op, v, f.rows[other]))
    {
      OperateOthers(hosts, f, id, other, op, budget);
    }
    RowsDecide(hosts, f, next, id);
  }

  /** The mounts agree for the table exactly when they do for the new row and for each other one. */
  lemma RowsDecide(hosts: Hosts, f: Fleet, next: Fleet, id: string)
    requires id in f.rows && id in next.rows && next.rows == f.rows[id := next.rows[id]]
    requires DevicesTracked(next.rows, next.world.mounts)
    ensures FleetMounted(hosts, next) <==>
      && RowMounted(hosts, next.rows[id], next.world)
      && forall other :: other in f.rows && other != id ==> RowMounted(hosts, f.rows[other], next.world)
  {
    hide DevicesTracked, RowMounted;
    if FleetMounted(hosts, next) {
      forall other | other in f.rows && other != id ensures RowMounted(hosts, f.rows[other], next.world) {
        assert next.rows[other] == f.rows[other];
      }
    }
  }

  // -- Syncs ----------------------------------------------------------------------------

  function StaleUmount(v: Volume): Command {
    Umount(v.clientHost, v.stagingPath)
  }

  lemma EarlyPhaseMounts(k: nat, hosts: Hosts, v: Volume, w: World, budget: nat)
    requires k < 3
    ensures var r := Perform(PhaseAt(k, hosts, v, w), w, budget).run;
      r.world.mounts == w.mounts && StaleUmount(v) !in r.log
  {
    hide Execute, PhaseAt;
    var phase := PhaseAt(k, hosts, v, w);
    if phase.Go? {
      ExecuteIsPrefix(phase.script, w, budget);
      forall c | c in phase.script ensures OnLinks(c) {
        EarlyPhaseOnLinks(k, hosts, v, w, c);
      }
      ScriptSides(phase.script, w, budget);
      assert !OnLinks(StaleUmount(v)) && forall c :: c in Execute(phase.script, w, budget).log ==> c in phase.script;
    }
  }

  lemma StagePhaseMounts(hosts: Hosts, v: Volume, w: World, budget: nat)
    requires Lifecycle(hosts, v) && Agree(hosts, v, w)
    ensures var p, umount := Perform(StagePhase(hosts, v, w), w, budget), StaleUmount(v);
      && (umount in p.run.log ==> UmountsStale(v))
      && p.run.world.mounts
         == (if umount in p.run.log then Popped(w.mounts, v.clientHost, v.stagingPath) else w.mounts)
      && (p.reply == Done && UmountsStale(v) && IsMountPoint(w, v.clientHost, v.stagingPath)
          ==> umount in p.run.log)
  {
    if StagePhase(hosts, v, w).Go? {
      StageIdleOrStale(hosts, v, w);
      ExecuteEmpty(w, budget);
      ExecuteOne(StaleUmount(v), w, budget);
    }
    hide Agree, Lifecycle, Execute, Lookup, MountsAt, StageScript;
  }

  /** The one change a Sync of a row in agreement makes to mounts is one unmount of a stale path. */
  lemma {:induction false} SyncFromMounts(k: nat, hosts: Hosts, v: Volume, w: World, budget: nat)
    requires k <= 4 && Lifecycle(hosts, v) && Agree(hosts, v, w)
    ensures var p, umount := SyncFrom(k, hosts, v, w, budget), StaleUmount(v);
      && (umount in p.run.log ==> UmountsStale(v))
      && p.run.world.mounts
         == (if umount in p.run.log then Popped(w.mounts, v.clientHost, v.stagingPath) else w.mounts)
      && (k < 4 && p.reply == Done && UmountsStale(v) && IsMountPoint(w, v.clientHost, v.stagingPath)
          ==> umount in p.run.log)
    decreases 4 - k
  {
    hide Agree, Execute, Replay, Lifecycle, PhaseAt, Perform, MountPhase, Popped;
    if k == 4 {
      MountIdle(hosts, v, w, budget);
    } else {
      var phase := Perform(PhaseAt(k, hosts, v, w), w, budget);
      PhaseKeepsAgreement(k, hosts, v, w, budget);
      AlongEnds(Agreeing(hosts, v), phase.run.log, w);
      if k < 3 {
        EarlyPhaseMounts(k, hosts, v, w, budget);
        if phase.reply == Done {
          SyncFromMounts(k + 1, hosts, v, phase.run.world, phase.run.left);
        }
      } else {
        assert PhaseAt(k, hosts, v, w) == StagePhase(hosts, v, w) by {
          ThirdPhase(k, hosts, v, w);
        }
        StagePhaseMounts(hosts, v, w, budget);
        if phase.reply == Done {
          MountIdle(hosts, v, phase.run.world, phase.run.left);
        }
      }
    }
  }

  lemma ThirdPhase(k: nat, hosts: Hosts, v: Volume, w: World)
    requires k == 3
    ensures PhaseAt(k, hosts, v, w) == StagePhase(hosts, v, w)
  {
  }

  /** No other row counts on what is mounted on the row's stored staging path. */
  predicate StaleSpares(f: Fleet, id: string)
    requires id in f.rows
  {
    var v := f.rows[id];
    forall other :: other in f.rows && other != id ==>
      Survives(f.rows[other], f.world.mounts, v.clientHost, v.stagingPath)
  }

  /** A Sync, once it unmounts a stale path, spares the mounts of the other rows. */
  predicate KindSync(hosts: Hosts, f: Fleet, id: string, budget: nat)
    requires id in f.rows
  {
    StaleUmount(f.rows[id]) in Sync(hosts, f.rows[id], f.world, budget).run.log ==> StaleSpares(f, id)
  }

  lemma ReconcileOthers(hosts: Hosts, f: Fleet, id: string, other: string, budget: nat)
    requires FleetAgrees(hosts, f) && id in f.rows && other in f.rows && other != id
    ensures var v, r := f.rows[id], Sync(hosts, f.rows[id], f.world, budget).run;
      RowMounted(hosts, f.rows[other], r.world)
      <==> (StaleUmount(v) in r.log ==> Survives(f.rows[other], f.world.mounts, v.clientHost, v.stagingPath))
  {
    var v, u, r := f.rows[id], f.rows[other], Sync(hosts, f.rows[id], f.world, budget).run;
    RowInOrder(hosts, f, id);
    RowInOrder(hosts, f, other);
    ApartRows(f.rows, id, other);
    StagedOwns(hosts, v, u);
    hide FleetAgrees, Lifecycle, MountsAgree, FilesystemAgrees, LinksAgree, Apart, Confined, Leaves, Replay,
      SyncFrom, Popped, Survives, Mends, Owns, TargetOf;
    SyncFromMounts(0, hosts, v, f.world, budget);
    SyncMends(hosts, v, f.world, budget);
    forall c | c in r.log ensures Confined(v, c) {
      MendConfined(hosts, v, c);
    }
    LogLeaves(v, r.log, f.world);
    FilesystemLeft(v, u, f.world, r.world);
    PopExact(hosts, u, f.world.mounts, v.clientHost, v.stagingPath);
  }

  /** A Sync, failing anywhere, keeps all rows in agreement exactly when it is kind. */
  lemma ReconcileIsExact(hosts: Hosts, f: Fleet, id: string, budget: nat)
    requires FleetAgrees(hosts, f) && id in f.rows
    ensures FleetAgrees(hosts, Then(hosts, f, Reconcile(id, budget))) <==> KindSync(hosts, f, id, budget)
  {
    var v, r := f.rows[id], Sync(hosts, f.rows[id], f.world, budget).run;
    var next := Fleet(f.rows, r.world);
    assert Then(hosts, f, Reconcile(id, budget)) == next;
    RowInOrder(hosts, f, id);
    hide FleetLinked, Lifecycle, MountsAgree, FilesystemAgrees, LinksAgree, Sync, Then, DevicesTracked, Popped,
      Survives;
    ReconcileKeepsLinked(hosts, f, id, budget);
    SyncKeepsAgreement(hosts, v, f.world, budget);
    SyncMounts(hosts, v, f.world, budget);
    PopTracked(f.rows, f.world.mounts, v.clientHost, v.stagingPath);
    forall other | other in f.rows && other != id
      ensures RowMounted(hosts, f.rows[other], r.world)
         <==> (StaleUmount(v) in r.log ==> Survives(f.rows[other], f.world.mounts, v.clientHost, v.stagingPath))
    {
      ReconcileOthers(hosts, f, id, other, budget);
    }
    assert f.rows[id := v] == f.rows;
    RowsDecide(hosts, f, next, id);
  }

  lemma SyncMounts(hosts: Hosts, v: Volume, w: World, budget: nat)
    requires Lifecycle(hosts, v) && Agree(hosts, v, w)
    ensures var p, umount := Sync(hosts, v, w, budget), StaleUmount(v);
      && (umount in p.run.log ==> UmountsStale(v))
      && p.run.world.mounts
         == (if umount in p.run.log then Popped(w.mounts, v.clientHost, v.stagingPath) else w.mounts)
      && (p.reply == Done && UmountsStale(v) && IsMountPoint(w, v.clientHost, v.stagingPath)
          ==> umount in p.run.log)
  {
    hide Agree, Lifecycle, SyncFrom, Popped, IsMountPoint;
    SyncFromMounts(0, hosts, v, w, budget);
  }

  /**
   * A Sync that finishes keeps all rows in agreement exactly when its own row is staged or
   * lacks a stored server, client or staging path, or every row that counts on that path is
   * bound there twice.
   */
  lemma FinishedSyncIsExact(hosts: Hosts, f: Fleet, id: string, budget: nat)
    requires FleetAgrees(hosts, f) && id in f.rows && Sync(hosts, f.rows[id], f.world, budget).reply == Done
    ensures FleetAgrees(hosts, Then(hosts, f, Reconcile(id, budget)))
       <==> (UmountsStale(f.rows[id]) ==> StaleSpares(f, id))
  {
    var v := f.rows[id];
    RowInOrder(hosts, f, id);
    hide FleetAgrees, Lifecycle, MountsAgree, FilesystemAgrees, LinksAgree, Sync, Then, Popped, IsMountPoint, Uses;
    ReconcileIsExact(hosts, f, id, budget);
    SyncMounts(hosts, v, f.world, budget);
    if !IsMountPoint(f.world, v.clientHost, v.stagingPath) {
      forall other | other in f.rows && other != id ensures !Uses(f.rows[other], v.clientHost, v.stagingPath) {
        RowInOrder(hosts, f, other);
        if Uses(f.rows[other], v.clientHost, v.stagingPath) {
          UsedIsMounted(hosts, f.rows[other], f.world, v.clientHost, v.stagingPath);
        }
      }
    }
  }

  lemma UsedIsMounted(hosts: Hosts, v: Volume, w: World, host: string, path: string)
    requires MountsAgree(hosts, v, w.mounts) && Uses(v, host, path)
    ensures IsMountPoint(w, host, path)
  {
    hide TargetOf, Owns;
  }

  // -- Changes of the table -------------------------------------------------------------

  lemma HarmlessMounts(c: Command, w: World)
    requires Harmless(c)
    ensures Apply(c, w).mounts == w.mounts && Apply(c, w).filesystems == w.filesystems
  {
  }

  lemma {:induction false} HarmlessLogMounts(log: seq<Command>, w: World)
    requires forall c :: c in log ==> Harmless(c)
    ensures Replay(log, w).mounts == w.mounts && Replay(log, w).filesystems == w.filesystems
    decreases |log|
  {
    hide Apply, Harmless;
    if log != [] {
      HarmlessMounts(log[0], w);
      HarmlessLogMounts(log[1..], Apply(log[0], w));
    }
  }

  lemma SameFieldsMounted(hosts: Hosts, v: Volume, x: Volume, w: World, w1: World)
    requires RowMounted(hosts, v, w) && w1.mounts == w.mounts && w1.filesystems == w.filesystems
    requires x.id == v.id && x.status == v.status && x.targetPaths == v.targetPaths
    requires x.serverHost == v.serverHost && x.clientHost == v.clientHost && x.stagingPath == v.stagingPath
    requires x.mode == v.mode && x.datasetID == v.datasetID && x.transport.kind == v.transport.kind
    ensures RowMounted(hosts, x, w1)
  {
    assert TargetOf(hosts, x) == TargetOf(hosts, v);
    hide TargetOf, Owns, MountsAt;
  }

  lemma ChangeKeepsFleet(hosts: Hosts, f: Fleet, updates: map<string, Value>, budget: nat)
    requires FleetAgrees(hosts, f)
    ensures FleetAgrees(hosts, Then(hosts, f, Change(updates, budget)))
  {
    var s, id := ServeUpdate(updates, hosts, f.rows, f.world, budget), StringField(updates, "id");
    hide FleetLinked, RowMounted, DevicesTracked, ServeUpdate, Replay, Harmless, Amended, StringField;
    ChangeKeepsLinked(hosts, f, updates, budget);
    ChangeRuns(hosts, f.rows, updates, f.world, budget);
    HarmlessLogMounts(s.run.log, f.world);
    SameTracked(f.rows, s.rows, f.world.mounts);
    forall other | other in s.rows ensures RowMounted(hosts, s.rows[other], s.run.world) {
      if other == id && s.rows != f.rows {
        AmendedFields(f.rows[id], updates);
      }
      SameFieldsMounted(hosts, f.rows[other], s.rows[other], f.world, s.run.world);
    }
  }

  lemma CreatedMounted(hosts: Hosts, f: Fleet, v: Volume)
    requires DevicesTracked(f.rows, f.world.mounts) && v.status == INITIAL && v.targetPaths == []
    requires forall t :: OwnedByOne(f.rows, t) ==> !Owns(v.id, t)
    ensures RowMounted(hosts, v, f.world)
  {
    hide Owns, OwnedByOne, MountsAt, TargetOf;
  }

  /** A creation keeps all rows in agreement exactly when it is refused or brings names of its own. */
  lemma CreateIsExactFor(hosts: Hosts, f: Fleet, request: ApiVolume)
    requires FleetAgrees(hosts, f)
    ensures FleetAgrees(hosts, Then(hosts, f, Create(request))) <==> WellNamed(f, Create(request))
  {
    var v := FromApi(request).(status := INITIAL);
    var s := ServeCreate(request, f.rows, f.world, 0);
    assert v.id == request.id && v.datasetID == request.datasetID && v.targetPaths == request.targetPaths;
    assert KeyedByID(f.rows);
    hide FleetLinked, Fresh, ColonFree, DevicesTracked, RowMounted, FromApi;
    CreateIsExact(hosts, f, request);
    if s.reply.Ok? && WellNamed(f, Create(request)) {
      FreshOwnsNothing(f, v);
      CreatedMounted(hosts, f, v);
      SameTracked(f.rows, s.rows, f.world.mounts);
    }
  }

  lemma WithoutTracked(hosts: Hosts, rows: Table, id: string, mounts: MountTable)
    requires id in rows && rows[id].id == id && !rows[id].IsStaged()
    requires DevicesTracked(rows, mounts) && MountsAgree(hosts, rows[id], mounts)
    ensures DevicesTracked(rows - {id}, mounts)
  {
    assert forall t :: OwnedByOne(rows, t) && !Owns(id, t) ==> OwnedByOne(rows - {id}, t);
    hide Owns, OwnedByOne, MountsAt, TargetOf;
  }

  lemma DestroyedMounted(v: Volume, u: Volume, hosts: Hosts, w: World)
    requires RowMounted(hosts, u, w) && Apart(v, u)
    ensures RowMounted(hosts, u, Apply(DestroyZvol(v.serverHost, v.datasetID), w))
  {
    hide MountsAgree, Sanitize;
  }

  lemma DeleteKeepsFleet(hosts: Hosts, f: Fleet, id: string, budget: nat)
    requires FleetAgrees(hosts, f)
    ensures FleetAgrees(hosts, Then(hosts, f, Delete(id, budget)))
  {
    var s := ServeDelete(id, hosts, f.rows, f.world, budget);
    hide FleetLinked, RowMounted, DevicesTracked, Execute, Apart;
    DeleteKeepsLinked(hosts, f, id, budget);
    if id in f.rows && !f.rows[id].IsPublished() {
      var v := f.rows[id];
      RowInOrder(hosts, f, id);
      hide Apply;
      ExecuteOne(DestroyZvol(v.serverHost, v.datasetID), f.world, budget);
      WithoutTracked(hosts, f.rows, id, f.world.mounts);
      DestroyMounts(v, f.world);
      forall other | other in f.rows && other != id
        ensures RowMounted(hosts, f.rows[other], Apply(DestroyZvol(v.serverHost, v.datasetID), f.world))
      {
        ApartOf(hosts, f, id, other);
        DestroyedMounted(v, f.rows[other], hosts, f.world);
      }
    }
  }

  lemma DestroyMounts(v: Volume, w: World)
    ensures Apply(DestroyZvol(v.serverHost, v.datasetID), w).mounts == w.mounts
  {
  }

  lemma ApartOf(hosts: Hosts, f: Fleet, a: string, b: string)
    requires FleetLinked(hosts, f) && a in f.rows && b in f.rows && a != b
    ensures Apart(f.rows[a], f.rows[b])
  {
    hide Apart;
  }

  // -- Runs -----------------------------------------------------------------------------

  /** A step that keeps every row in agreement, as its caller can tell from the state it is taken in. */
  predicate Kind(hosts: Hosts, f: Fleet, s: FleetStep) {
    match s
    case Operate(id, op, budget) => id in f.rows ==> KindCall(hosts, f, id, op, budget)
    case Reconcile(id, budget) => id in f.rows ==> KindSync(hosts, f, id, budget)
    case Create(_) => WellNamed(f, s)
    case Change(_, _) => true
    case Delete(_, _) => true
  }

  /** A step, whatever fails, keeps all rows in agreement exactly when it is kind. */
  lemma StepIsExact(hosts: Hosts, f: Fleet, s: FleetStep)
    requires FleetAgrees(hosts, f) && Requested(s)
    ensures FleetAgrees(hosts, Then(hosts, f, s)) <==> Kind(hosts, f, s)
  {
    match s
    case Operate(id, op, budget) =>
      if id in f.rows {
        hide *;
        RequestedIsValidated(s);
        OperateIsExact(hosts, f, id, op, budget);
      }
    case Reconcile(id, budget) =>
      if id in f.rows {
        hide *;
        ReconcileIsExact(hosts, f, id, budget);
      }
    case Change(updates, budget) => ChangeKeepsFleet(hosts, f, updates, budget);
    case Create(request) => CreateIsExactFor(hosts, f, request);
    case Delete(id, budget) => DeleteKeepsFleet(hosts, f, id, budget);
  }

  lemma RequestedIsValidated(s: FleetStep)
    requires Requested(s)
    ensures s.Operate? ==> Validated(s.op)
  {
  }

  predicate AllKind(hosts: Hosts, f: Fleet, steps: seq<FleetStep>)
    decreases |steps|
  {
    steps == [] || (Kind(hosts, f, steps[0]) && AllKind(hosts, Then(hosts, f, steps[0]), steps[1..]))
  }

  /** All rows agree with the hosts after every step of the run. */
  ghost predicate AlwaysAgrees(hosts: Hosts, f: Fleet, steps: seq<FleetStep>) {
    forall k :: 0 <= k <= |steps| ==> FleetAgrees(hosts, Finish(hosts, f, steps[..k]))
  }

  /** Over every run, with any failures, all rows always agree with the hosts exactly when every step is kind. */
  lemma {:induction false} RunIsExact(hosts: Hosts, f: Fleet, steps: seq<FleetStep>)
    requires FleetAgrees(hosts, f) && AllRequested(steps)
    ensures AlwaysAgrees(hosts, f, steps) <==> AllKind(hosts, f, steps)
    decreases |steps|
  {
    hide FleetAgrees, Then, Kind, Requested;
    if steps == [] {
      assert steps[..0] == [];
    } else {
      var next := Then(hosts, f, steps[0]);
      StepIsExact(hosts, f, steps[0]);
      FirstStep(hosts, f, steps);
      if FleetAgrees(hosts, next) {
        RunIsExact(hosts, next, steps[1..]);
      }
    }
  }

  /** A run always agrees when it does at first and the rest of it does after its first step. */
  lemma FirstStep(hosts: Hosts, f: Fleet, steps: seq<FleetStep>)
    requires steps != []
    ensures AlwaysAgrees(hosts, f, steps)
       <==> FleetAgrees(hosts, f) && AlwaysAgrees(hosts, Then(hosts, f, steps[0]), steps[1..])
    ensures AlwaysAgrees(hosts, Then(hosts, f, steps[0]), steps[1..])
        ==> FleetAgrees(hosts, Then(hosts, f, steps[0]))
  {
    hide FleetAgrees, Then;
    var next := Then(hosts, f, steps[0]);
    assert steps[..0] == [] && steps[1..][..0] == [];
    forall k | 0 <= k < |steps|
      ensures Finish(hosts, f, steps[..k + 1]) == Finish(hosts, next, steps[1..][..k])
    {
      assert steps[..k + 1][1..] == steps[1..][..k];
    }
    assert Finish(hosts, next, steps[1..][..0]) == next;
    if AlwaysAgrees(hosts, f, steps) {
      forall k | 0 <= k <= |steps[1..]| ensures FleetAgrees(hosts, Finish(hosts, next, steps[1..][..k])) {
        assert FleetAgrees(hosts, Finish(hosts, f, steps[..k + 1]));
      }
    } else if FleetAgrees(hosts, f) {
      var k :| 0 <= k <= |steps| && !FleetAgrees(hosts, Finish(hosts, f, steps[..k]));
      assert k > 0 && !FleetAgrees(hosts, Finish(hosts, next, steps[1..][..k - 1]));
    }
  }

  /** The service starts with no volume, on hosts where nothing is exported, attached or mounted. */
  function EmptyService(zvols: map<At, int>, filesystems: map<At, nat>): Fleet {
    Fleet(map[], World(zvols, filesystems, map[], map[], map[]))
  }

  /** From the empty service on, kind steps keep all rows in agreement, and any steps of own names nest the links. */
  lemma RunsFromEmptyService(hosts: Hosts, zvols: map<At, int>, filesystems: map<At, nat>, steps: seq<FleetStep>)
    requires AllRequested(steps)
    ensures var f := EmptyService(zvols, filesystems);
      && (AlwaysAgrees(hosts, f, steps) <==> AllKind(hosts, f, steps))
      && (AllWellNamed(hosts, f, steps) ==> Along(Nested, Issued(hosts, f, steps), f.world))
  {
    var f := EmptyService(zvols, filesystems);
    EmptyServiceAgrees(hosts, zvols, filesystems);
    hide EmptyService, FleetLinked, FleetMounted;
    RunIsExact(hosts, f, steps);
    if AllWellNamed(hosts, f, steps) {
      RunIsNested(hosts, f, steps);
    }
  }

  lemma EmptyServiceAgrees(hosts: Hosts, zvols: map<At, int>, filesystems: map<At, nat>)
    ensures FleetAgrees(hosts, EmptyService(zvols, filesystems)) && EmptyService(zvols, filesystems).rows == map[]
  {
  }
}
