/** No run of the service formats a zvol that already holds a filesystem. */
module Filesystems {
  import opened Names
  import opened Structs
  import opened Volumes
  import opened Clusters
  import opened Conversions
  import opened Plans
  import opened VolumeServices
  import opened Syncers
  import opened Fleets

  /** Filesystems stay as they are; a new one has been formatted once. */
  ghost predicate Kept(w: World, w1: World) {
    && (forall k :: k in w.filesystems ==> k in w1.filesystems && w1.filesystems[k] == w.filesystems[k])
    && (forall k :: k in w1.filesystems && k !in w.filesystems ==> w1.filesystems[k] == 1)
  }

  predicate Formats(c: Command) {
    c.Format? || c.DestroyZvol?
  }

  lemma PlainCommandKeeps(c: Command, w: World)
    requires !Formats(c)
    ensures Apply(c, w).filesystems == w.filesystems
  {
    hide Pushed, Popped, Backing;
  }

  lemma {:induction false} PlainScriptKeeps(script: seq<Command>, w: World, budget: nat)
    requires forall c :: c in script ==> !Formats(c)
    ensures Execute(script, w, budget).world.filesystems == w.filesystems
    decreases |script|
  {
    hide Apply, Answers, Formats;
    if script != [] && budget != 0 && Answers(script[0], w) {
      PlainCommandKeeps(script[0], w);
      PlainScriptKeeps(script[1..], Apply(script[0], w), budget - 1);
    }
  }

  lemma FormattedKeeps(v: Volume, w: World, target: string)
    ensures Kept(w, Formatted(v, w, target))
  {
    hide Backing;
  }

  /** Staging looks before it formats, and nothing changes the answer in between. */
  lemma FormatScriptKeeps(v: Volume, w: World, target: string, budget: nat)
    ensures Kept(w, Execute(FormatScript(v, w, target), w, budget).world)
  {
    var query, format := QueryFilesystem(v.clientHost, target), Format(v.clientHost, target);
    FormattedKeeps(v, w, target);
    ExecuteEmpty(w, budget);
    ExecuteOne(query, w, budget);
    ExecuteAppend([query], [format], w, budget);
    if budget > 0 {
      ExecuteOne(format, w, budget - 1);
    }
    assert Apply(query, w) == w;
    hide Execute, Backing;
  }

  function MountTail(v: Volume, target: string): seq<Command> {
    [MakePath(v.clientHost, v.stagingPath)] + [MountDevice(v.clientHost, target, v.stagingPath)]
  }

  lemma StageShape(v: Volume, w: World, target: string)
    ensures var find := FindDevice(v.clientHost, target);
      StageScript(v, w, target) == [find] + (FormatScript(v, w, target) + MountTail(v, target)) && Apply(find, w) == w
    ensures forall c :: c in MountTail(v, target) ==> !Formats(c)
  {
    hide FormatScript;
  }

  lemma StageScriptKeeps(v: Volume, w: World, target: string, budget: nat)
    ensures Kept(w, Execute(StageScript(v, w, target), w, budget).world)
  {
    hide Execute, Apply, FormatScript, StageScript, Answers, MountTail, Formats;
    var find, format, tail := FindDevice(v.clientHost, target), FormatScript(v, w, target), MountTail(v, target);
    StageShape(v, w, target);
    ExecuteAppend([find], format + tail, w, budget);
    ExecuteOne(find, w, budget);
    if budget > 0 && Answers(find, w) {
      ExecuteAppend(format, tail, w, budget - 1);
      FormatScriptKeeps(v, w, target, budget - 1);
      var r := Execute(format, w, budget - 1);
      PlainScriptKeeps(tail, r.world, r.left);
    }
  }

  lemma PlanIsPlain(op: Op, hosts: Hosts, v: Volume, w: World, c: Command)
    requires !op.Stage? && PlanOf(op, hosts, v, w).Act? && c in PlanOf(op, hosts, v, w).script
    ensures !Formats(c)
  {
    hide TargetID, ClientID, Lookup;
  }

  lemma HandleKeeps(op: Op, hosts: Hosts, v: Volume, w: World, budget: nat)
    ensures Kept(w, Handle(op, hosts, v, w, budget).run.world)
  {
    HandleRuns(op, hosts, v, w, budget);
    hide Handle, Execute, StageScript, TargetID, ClientID, Lookup;
    var plan := PlanOf(op, hosts, v, w);
    if plan.Act? {
      if op.Stage? {
        StageScriptKeeps(plan.given, w, v.transport.Payload().value.targetID, budget);
      } else {
        forall c | c in plan.script ensures !Formats(c) {
          PlanIsPlain(op, hosts, v, w, c);
        }
        PlainScriptKeeps(plan.script, w, budget);
      }
    }
  }

  lemma EarlyPhaseIsPlain(k: nat, hosts: Hosts, v: Volume, w: World, c: Command)
    requires k < 3 && PhaseAt(k, hosts, v, w).Go? && c in PhaseAt(k, hosts, v, w).script
    ensures !Formats(c)
  {
    hide TargetID, ClientID, Lookup, CheckPublished, CheckAuthorized, CheckConnected;
  }

  lemma StagePhaseKeeps(hosts: Hosts, v: Volume, w: World, budget: nat)
    ensures Kept(w, Perform(StagePhase(hosts, v, w), w, budget).run.world)
  {
    hide Execute, StageScript, IsMountPoint, SyncTarget;
    var server, umount := Lookup(hosts, v.serverHost), Umount(v.clientHost, v.stagingPath);
    if server.Some? {
      StageScriptKeeps(v, w, SyncTarget(server.value, v), budget);
    }
    PlainScriptKeeps([umount], w, budget);
    PlainScriptKeeps([], w, budget);
  }

  lemma PhaseKeeps(k: nat, hosts: Hosts, v: Volume, w: World, budget: nat)
    requires k < 4
    ensures Kept(w, Perform(PhaseAt(k, hosts, v, w), w, budget).run.world)
  {
    hide Execute, ZfsPhase, PublishPhase, ConnectPhase, StagePhase, Formats;
    var phase := PhaseAt(k, hosts, v, w);
    if k == 3 {
      StagePhaseKeeps(hosts, v, w, budget);
    } else if phase.Go? {
      forall c | c in phase.script ensures !Formats(c) {
        EarlyPhaseIsPlain(k, hosts, v, w, c);
      }
      PlainScriptKeeps(phase.script, w, budget);
    }
  }

  lemma {:induction false} MountAllKeeps(v: Volume, paths: seq<string>, w: World, budget: nat)
    ensures Kept(w, MountAll(v, paths, w, budget).run.world)
    decreases |paths|
  {
    hide Execute, IsMountPoint;
    if paths != [] {
      if IsMountPoint(w, v.clientHost, paths[0]) {
        MountAllKeeps(v, paths[1..], w, budget);
      } else {
        PlainScriptKeeps(MountScript(v, paths[0]), w, budget);
        var first := Execute(MountScript(v, paths[0]), w, budget);
        MountAllKeeps(v, paths[1..], first.world, first.left);
      }
    }
  }

  lemma {:induction false} UnmountAllKeeps(v: Volume, paths: seq<string>, w: World, budget: nat)
    ensures Kept(w, UnmountAll(v, paths, w, budget).run.world)
    decreases |paths|
  {
    hide Execute, IsMountPoint;
    if paths != [] {
      if !IsMountPoint(w, v.clientHost, paths[0]) {
        UnmountAllKeeps(v, paths[1..], w, budget);
      } else {
        PlainScriptKeeps([Umount(v.clientHost, paths[0])], w, budget);
        var first := Execute([Umount(v.clientHost, paths[0])], w, budget);
        UnmountAllKeeps(v, paths[1..], first.world, first.left);
      }
    }
  }

  lemma MountPhaseKeeps(hosts: Hosts, v: Volume, w: World, budget: nat)
    ensures Kept(w, MountPhase(hosts, v, w, budget).run.world)
  {
    hide MountAll, UnmountAll, Lookup, Execute;
    var mounted := MountAll(v, v.targetPaths, w, budget);
    MountAllKeeps(v, v.targetPaths, w, budget);
    UnmountAllKeeps(v, v.targetPaths, mounted.run.world, mounted.run.left);
  }

  lemma {:induction false} SyncFromKeeps(k: nat, hosts: Hosts, v: Volume, w: World, budget: nat)
    requires k <= 4
    ensures Kept(w, SyncFrom(k, hosts, v, w, budget).run.world)
    decreases 4 - k
  {
    hide MountPhase, Perform, PhaseAt;
    if k == 4 {
      MountPhaseKeeps(hosts, v, w, budget);
    } else {
      PhaseKeeps(k, hosts, v, w, budget);
      var phase := Perform(PhaseAt(k, hosts, v, w), w, budget);
      SyncFromKeeps(k + 1, hosts, v, phase.run.world, phase.run.left);
    }
  }

  /** Nothing of this zvol's filesystem changes. */
  ghost predicate KeptAt(k: At, w: World, w1: World) {
    && (k in w.filesystems ==> k in w1.filesystems && w1.filesystems[k] == w.filesystems[k])
    && (k in w1.filesystems && k !in w.filesystems ==> w1.filesystems[k] == 1)
  }

  /** The step deletes no volume on this zvol. */
  predicate SparesZvol(f: Fleet, s: FleetStep, k: At) {
    s.Delete? && s.id in f.rows ==> k != At(f.rows[s.id].serverHost, f.rows[s.id].datasetID)
  }

  lemma ChangeKeeps(hosts: Hosts, rows: Table, updates: map<string, Value>, w: World, budget: nat)
    ensures ServeUpdate(updates, hosts, rows, w, budget).run.world.filesystems == w.filesystems
  {
    hide Execute, ServerRefresh, ClientRefresh, WellTyped, GivenUpdate, Persist;
    var id := StringField(updates, "id");
    if id in rows && WellTyped(updates) {
      var given := GivenUpdate(rows[id], updates);
      var script := ServerRefresh(given) + ClientRefresh(hosts, given).script;
      forall c | c in script ensures !Formats(c) {
        RefreshHarmless(hosts, given, c);
      }
      PlainScriptKeeps(script, w, budget);
    }
  }

  lemma DeleteKeeps(hosts: Hosts, rows: Table, id: string, w: World, budget: nat, k: At)
    requires id in rows ==> k != At(rows[id].serverHost, rows[id].datasetID)
    ensures KeptAt(k, w, ServeDelete(id, hosts, rows, w, budget).run.world)
  {
    hide Execute;
    if id in rows {
      ExecuteOne(DestroyZvol(rows[id].serverHost, rows[id].datasetID), w, budget);
    }
  }

  lemma StepKeeps(hosts: Hosts, f: Fleet, s: FleetStep, k: At)
    requires SparesZvol(f, s, k)
    ensures KeptAt(k, f.world, Take(hosts, f, s).run.world)
  {
    hide Handle, Sync, ServeUpdate, ServeDelete, FromApi;
    match s {
      case Operate(id, op, budget) =>
        if id in f.rows {
          HandleKeeps(op, hosts, f.rows[id], f.world, budget);
        }
      case Reconcile(id, budget) =>
        if id in f.rows {
          SyncKeeps(hosts, f.rows[id], f.world, budget);
        }
      case Change(updates, budget) => ChangeKeeps(hosts, f.rows, updates, f.world, budget);
      case Delete(id, budget) => DeleteKeeps(hosts, f.rows, id, f.world, budget, k);
      case Create(_) =>
    }
  }

  lemma SyncKeeps(hosts: Hosts, v: Volume, w: World, budget: nat)
    ensures Kept(w, Sync(hosts, v, w, budget).run.world)
  {
    SyncFromKeeps(0, hosts, v, w, budget);
  }

  predicate AllSpareZvol(hosts: Hosts, f: Fleet, steps: seq<FleetStep>, k: At)
    decreases |steps|
  {
    steps == [] ||
    (SparesZvol(f, steps[0], k) &&
     var t := Take(hosts, f, steps[0]); AllSpareZvol(hosts, Fleet(t.rows, t.run.world), steps[1..], k))
  }

  /**
   * Over every run, from any rows and any hosts and with any failures, a filesystem is
   * never formatted over: until its volume is deleted a zvol is formatted at most once.
   */
  lemma {:induction false} RunNeverReformats(hosts: Hosts, f: Fleet, steps: seq<FleetStep>, k: At)
    requires AllSpareZvol(hosts, f, steps, k)
    ensures KeptAt(k, f.world, Finish(hosts, f, steps).world)
    decreases |steps|
  {
    hide Take, SparesZvol;
    if steps != [] {
      var t := Take(hosts, f, steps[0]);
      StepKeeps(hosts, f, steps[0], k);
      RunNeverReformats(hosts, Fleet(t.rows, t.run.world), steps[1..], k);
    }
  }
}
