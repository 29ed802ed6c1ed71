/** The reconciler (app/internal/service/sync.go): probe the hosts, repair them to match the row. */
module Syncers {
  import opened Names
  import opened Volumes
  import opened Clusters
  import opened Conversions
  import opened Plans
  import opened VolumeServices

  datatype SyncReply = Done | Failed | Crashed

  /** A phase either stops before any command or runs a script. */
  datatype Phase = Stop(reply: SyncReply) | Go(script: seq<Command>)

  datatype Progress = Progress(run: Run, reply: SyncReply)

  function Perform(p: Phase, w: World, budget: nat): Progress {
    match p
    case Stop(reply) => Progress(Run(w, budget, [], false), reply)
    case Go(script) =>
      var run := Execute(script, w, budget);
      Progress(run, if run.ok then Done else Failed)
  }

  function Prefixed(log: seq<Command>, p: Progress): Progress {
    p.(run := p.run.(log := log + p.run.log))
  }

  lemma PrefixedEmpty(p: Progress)
    ensures Prefixed([], p) == p
  {
    assert [] + p.run.log == p.run.log;
  }

  lemma PrefixedTwice(a: seq<Command>, b: seq<Command>, p: Progress)
    ensures Prefixed(a, Prefixed(b, p)) == Prefixed(a + b, p)
  {
    assert a + (b + p.run.log) == (a + b) + p.run.log;
  }

  /** The syncer's own target and client names: empty where the service reports an error. */
  function SyncTarget(server: Host, v: Volume): string {
    GetOr(TargetID(server, v.transport.kind, v.id), "")
  }

  function SyncInitiator(client: Host, v: Volume): string {
    GetOr(ClientID(client, v.transport.kind), "")
  }

  predicate CheckPublished(v: Volume, w: World, target: string) {
    target != "" && v.transport.kind != Unspecified && At(v.serverHost, target) in w.targets
  }

  /**
   * Listing the ACL entry; with an empty client name that lists the ACL directory itself.
   * No target and no session goes by the empty name.
   */
  predicate CheckAuthorized(v: Volume, w: World, target: string, initiator: string) {
    var key := At(v.serverHost, target);
    && target != "" && v.transport.kind != Unspecified
    && key in w.targets && (initiator == "" || initiator in w.targets[key].acl)
  }

  predicate CheckConnected(v: Volume, w: World, target: string) {
    target != "" && v.transport.kind != Unspecified && At(v.clientHost, target) in w.sessions
  }

  function ZfsPhase(hosts: Hosts, v: Volume, w: World): Phase {
    if v.serverHost == "" then Go([])
    else if Lookup(hosts, v.serverHost).None? then Stop(Failed)
    else
      Go([QueryZvol(v.serverHost, v.datasetID)]
         + if At(v.serverHost, v.datasetID) in w.zvols then []
           else [CreateZvol(v.serverHost, v.datasetID, v.capacityBytes)])
  }

  function PublishPhase(hosts: Hosts, v: Volume, w: World): Phase {
    if v.serverHost == "" then Go([])
    else
      var server := Lookup(hosts, v.serverHost);
      if server.None? then Stop(Failed)
      else
        var target := SyncTarget(server.value, v);
        if v.IsPublished() then
          if CheckPublished(v, w, target) then Go([])
          else if v.transport.kind == Unspecified then Stop(Failed)
          else Go([Export(v.serverHost, target, v.datasetID)])
        else if CheckPublished(v, w, target) then Go([Unexport(v.serverHost, target)])
        else Go([])
  }

  function ConnectPhase(hosts: Hosts, v: Volume, w: World): Phase {
    if v.serverHost == "" || v.clientHost == "" then Go([])
    else
      var server, client := Lookup(hosts, v.serverHost), Lookup(hosts, v.clientHost);
      if server.None? || client.None? then Stop(Failed)
      else if server.value.connection.Local? then Stop(Crashed)
      else
        var target, initiator := SyncTarget(server.value, v), SyncInitiator(client.value, v);
        var authorized := CheckAuthorized(v, w, target, initiator);
        var connected := CheckConnected(v, w, target);
        if v.IsConnected() then
          if v.transport.kind == Unspecified then Stop(Failed)
          else
            Go((if authorized then [] else [Allow(v.serverHost, target, initiator)])
               + if connected then [] else [Login(v.clientHost, v.serverHost, target, initiator)])
        else
          Go((if connected then [Logout(v.clientHost, target)] else [])
             + if authorized then [Deny(v.serverHost, target, initiator)] else [])
  }

  function StagePhase(hosts: Hosts, v: Volume, w: World): Phase {
    if v.serverHost == "" || v.clientHost == "" || v.stagingPath == "" then Go([])
    else
      var server, client := Lookup(hosts, v.serverHost), Lookup(hosts, v.clientHost);
      if server.None? || client.None? then Stop(Failed)
      else
        var mounted := IsMountPoint(w, v.clientHost, v.stagingPath);
        if v.IsStaged() then
          if mounted then Go([])
          else if server.value.connection.Local? then Stop(Crashed)
          else if v.transport.kind == Unspecified then Stop(Failed)
          else Go(StageScript(v, w, SyncTarget(server.value, v)))
        else if mounted then Go([Umount(v.clientHost, v.stagingPath)])
        else Go([])
  }

  /** Mount every listed path that nothing is mounted on, in order. */
  function MountAll(v: Volume, paths: seq<string>, w: World, budget: nat): Progress
    decreases |paths|
  {
    if paths == [] then Progress(Run(w, budget, [], true), Done)
    else if IsMountPoint(w, v.clientHost, paths[0]) then MountAll(v, paths[1..], w, budget)
    else
      var first := Perform(Go(MountScript(v, paths[0])), w, budget);
      if first.reply != Done then first
      else Prefixed(first.run.log, MountAll(v, paths[1..], first.run.world, first.run.left))
  }

  /** Unmount once every listed path that something is mounted on. */
  function UnmountAll(v: Volume, paths: seq<string>, w: World, budget: nat): Progress
    decreases |paths|
  {
    if paths == [] then Progress(Run(w, budget, [], true), Done)
    else if !IsMountPoint(w, v.clientHost, paths[0]) then UnmountAll(v, paths[1..], w, budget)
    else
      var first := Perform(Go([Umount(v.clientHost, paths[0])]), w, budget);
      if first.reply != Done then first
      else Prefixed(first.run.log, UnmountAll(v, paths[1..], first.run.world, first.run.left))
  }

  function MountPhase(hosts: Hosts, v: Volume, w: World, budget: nat): Progress {
    if v.clientHost == "" || v.stagingPath == "" then Progress(Run(w, budget, [], true), Done)
    else if Lookup(hosts, v.clientHost).None? then Perform(Stop(Failed), w, budget)
    else
      var mounted := MountAll(v, v.targetPaths, w, budget);
      if mounted.reply != Done || v.IsMounted() then mounted
      else Prefixed(mounted.run.log, UnmountAll(v, v.targetPaths, mounted.run.world, mounted.run.left))
  }

  /** The four scripted phases, in order, then the mounts. */
  function PhaseAt(k: nat, hosts: Hosts, v: Volume, w: World): Phase {
    match k
    case 0 => ZfsPhase(hosts, v, w)
    case 1 => PublishPhase(hosts, v, w)
    case 2 => ConnectPhase(hosts, v, w)
    case _ => StagePhase(hosts, v, w)
  }

  function SyncFrom(k: nat, hosts: Hosts, v: Volume, w: World, budget: nat): Progress
    requires k <= 4
    decreases 4 - k
  {
    if k == 4 then MountPhase(hosts, v, w, budget)
    else
      var phase := Perform(PhaseAt(k, hosts, v, w), w, budget);
      if phase.reply != Done then phase
      else Prefixed(phase.run.log, SyncFrom(k + 1, hosts, v, phase.run.world, phase.run.left))
  }

  function Sync(hosts: Hosts, v: Volume, w: World, budget: nat): Progress {
    SyncFrom(0, hosts, v, w, budget)
  }

  /** What `SyncVolumes` leaves: the world, the IDs of the rows that failed, and whether it crashed. */
  datatype Sweep = Sweep(world: World, log: seq<Command>, failed: seq<string>, crashed: bool)

  /** Every row in turn, each Sync with failures of its own. A crash ends the sweep, a failing row does not. */
  function SyncEach(hosts: Hosts, volumes: seq<Volume>, w: World, budgets: seq<nat>): Sweep
    requires |budgets| == |volumes|
    decreases |volumes|
  {
    if volumes == [] then Sweep(w, [], [], false)
    else
      var p := Sync(hosts, volumes[0], w, budgets[0]);
      if p.reply == Crashed then Sweep(p.run.world, p.run.log, [], true)
      else
        Joined(p.run.log, if p.reply == Done then [] else [volumes[0].id],
               SyncEach(hosts, volumes[1..], p.run.world, budgets[1..]))
  }

  function Joined(log: seq<Command>, failed: seq<string>, s: Sweep): Sweep {
    s.(log := log + s.log, failed := failed + s.failed)
  }

  lemma JoinedTwice(a: seq<Command>, m: seq<string>, b: seq<Command>, n: seq<string>, s: Sweep)
    ensures Joined(a, m, Joined(b, n, s)) == Joined(a + b, m + n, s)
    ensures Joined([], [], s) == s
  {
    assert a + (b + s.log) == (a + b) + s.log && m + (n + s.failed) == (m + n) + s.failed;
    assert [] + s.log == s.log && [] + s.failed == s.failed;
  }

  class VolumeSyncer {
    const hosts: Hosts
    const cluster: Cluster

    constructor (hosts: Hosts, cluster: Cluster)
      ensures this.hosts == hosts && this.cluster == cluster
    {
      this.hosts, this.cluster := hosts, cluster;
    }

    twostate predicate Performed(p: Progress, reply: SyncReply)
      reads cluster
    {
      && reply == p.reply
      && cluster.world == p.run.world && cluster.budget == p.run.left
      && cluster.log == old(cluster.log) + p.run.log
    }

    method SyncZFS(volume: Volume) returns (reply: SyncReply)
      modifies cluster
      ensures Performed(Perform(ZfsPhase(hosts, volume, old(cluster.world)),
                                old(cluster.world), old(cluster.budget)), reply)
    {
      hide Execute, Apply, Answers;
      ExecuteEmpty(cluster.world, cluster.budget);
      if volume.serverHost == "" {
        return Done;
      }
      if Lookup(hosts, volume.serverHost).None? {
        return Failed;
      }
      var query, create :=
        QueryZvol(volume.serverHost, volume.datasetID),
        CreateZvol(volume.serverHost, volume.datasetID, volume.capacityBytes);
      var present := At(volume.serverHost, volume.datasetID) in cluster.world.zvols;
      ExecuteAppend([query], [create], cluster.world, cluster.budget);
      assert [query] + [] == [query];
      var ok := cluster.Exec(query);
      if !ok {
        return Failed;
      }
      if present {
        return Done;
      }
      ok := cluster.Exec(create);
      return if ok then Done else Failed;
    }

    method SyncPublish(volume: Volume) returns (reply: SyncReply)
      modifies cluster
      ensures Performed(Perform(PublishPhase(hosts, volume, old(cluster.world)),
                                old(cluster.world), old(cluster.budget)), reply)
    {
      hide Execute, Apply, Answers;
      ExecuteEmpty(cluster.world, cluster.budget);
      if volume.serverHost == "" {
        return Done;
      }
      var server := Lookup(hosts, volume.serverHost);
      if server.None? {
        return Failed;
      }
      var target := SyncTarget(server.value, volume);
      var published := CheckPublished(volume, cluster.world, target);
      var ok := true;
      if volume.IsPublished() {
        if !published {
          if volume.transport.kind == Unspecified {
            return Failed;
          }
          ok := cluster.Exec(Export(volume.serverHost, target, volume.datasetID));
        }
      } else if published {
        ok := cluster.Exec(Unexport(volume.serverHost, target));
      }
      return if ok then Done else Failed;
    }

    method SyncConnect(volume: Volume) returns (reply: SyncReply)
      modifies cluster
      ensures Performed(Perform(ConnectPhase(hosts, volume, old(cluster.world)),
                                old(cluster.world), old(cluster.budget)), reply)
    {
      hide Execute, Apply, Answers;
      ExecuteEmpty(cluster.world, cluster.budget);
      if volume.serverHost == "" || volume.clientHost == "" {
        return Done;
      }
      var server := Lookup(hosts, volume.serverHost);
      if server.None? {
        return Failed;
      }
      var client := Lookup(hosts, volume.clientHost);
      if client.None? {
        return Failed;
      }
      if server.value.connection.Local? {
        return Crashed;
      }
      var target, initiator := SyncTarget(server.value, volume), SyncInitiator(client.value, volume);
      var ok := true;
      if volume.IsConnected() {
        if volume.transport.kind == Unspecified {
          return Failed;
        }
        ok := SyncAuthorizeAndLogin(volume, target, initiator);
      } else {
        ok := SyncLogoutAndDeny(volume, target, initiator);
      }
      return if ok then Done else Failed;
    }

    method SyncAuthorizeAndLogin(volume: Volume, target: string, initiator: string) returns (ok: bool)
      modifies cluster
      ensures cluster.Ran(
        Execute((if CheckAuthorized(volume, old(cluster.world), target, initiator) then []
                 else [Allow(volume.serverHost, target, initiator)])
                + if CheckConnected(volume, old(cluster.world), target) then []
                  else [Login(volume.clientHost, volume.serverHost, target, initiator)],
                old(cluster.world), old(cluster.budget)), ok)
    {
      hide Execute, Apply, Answers;
      ghost var w, n := cluster.world, cluster.budget;
      var allow, login :=
        Allow(volume.serverHost, target, initiator),
        Login(volume.clientHost, volume.serverHost, target, initiator);
      var authorized := CheckAuthorized(volume, cluster.world, target, initiator);
      ghost var first := if authorized then [] else [allow];
      ghost var second := if CheckConnected(volume, w, target) then [] else [login];
      ExecuteAppend(first, second, w, n);
      ExecuteEmpty(w, n);
      if !authorized {
        ok := cluster.Exec(allow);
        if !ok {
          return;
        }
        AclCommandKeepsSessions(allow, w, n);
      }
      ExecuteEmpty(cluster.world, cluster.budget);
      var connected := CheckConnected(volume, cluster.world, target);
      if connected {
        return true;
      }
      ok := cluster.Exec(login);
    }

    method SyncLogoutAndDeny(volume: Volume, target: string, initiator: string) returns (ok: bool)
      modifies cluster
      ensures cluster.Ran(
        Execute((if CheckConnected(volume, old(cluster.world), target)
                 then [Logout(volume.clientHost, target)] else [])
                + if CheckAuthorized(volume, old(cluster.world), target, initiator)
                  then [Deny(volume.serverHost, target, initiator)] else [],
                old(cluster.world), old(cluster.budget)), ok)
    {
      hide Execute, Apply, Answers;
      ghost var w, n := cluster.world, cluster.budget;
      var logout, deny := Logout(volume.clientHost, target), Deny(volume.serverHost, target, initiator);
      var connected := CheckConnected(volume, cluster.world, target);
      ghost var first := if connected then [logout] else [];
      ghost var second := if CheckAuthorized(volume, w, target, initiator) then [deny] else [];
      ExecuteAppend(first, second, w, n);
      ExecuteEmpty(w, n);
      if connected {
        ok := cluster.Exec(logout);
        if !ok {
          return;
        }
        SessionCommandKeepsTargets(logout, w, n);
      }
      ExecuteEmpty(cluster.world, cluster.budget);
      var authorized := CheckAuthorized(volume, cluster.world, target, initiator);
      if !authorized {
        return true;
      }
      ok := cluster.Exec(deny);
    }

    method SyncStage(volume: Volume) returns (reply: SyncReply)
      modifies cluster
      ensures Performed(Perform(StagePhase(hosts, volume, old(cluster.world)),
                                old(cluster.world), old(cluster.budget)), reply)
    {
      hide Execute, Apply, Answers, StageScript;
      ExecuteEmpty(cluster.world, cluster.budget);
      if volume.serverHost == "" || volume.clientHost == "" || volume.stagingPath == "" {
        return Done;
      }
      var server := Lookup(hosts, volume.serverHost);
      if server.None? {
        return Failed;
      }
      if Lookup(hosts, volume.clientHost).None? {
        return Failed;
      }
      var mounted := IsMountPoint(cluster.world, volume.clientHost, volume.stagingPath);
      var ok := true;
      if volume.IsStaged() {
        if !mounted {
          if server.value.connection.Local? {
            return Crashed;
          }
          if volume.transport.kind == Unspecified {
            return Failed;
          }
          ok := RunStage(cluster, volume, SyncTarget(server.value, volume));
        }
      } else if mounted {
        ok := cluster.Exec(Umount(volume.clientHost, volume.stagingPath));
      }
      return if ok then Done else Failed;
    }

    method MountListed(volume: Volume) returns (reply: SyncReply)
      modifies cluster
      ensures Performed(MountAll(volume, volume.targetPaths, old(cluster.world), old(cluster.budget)), reply)
    {
      hide Execute, Apply, Answers, MountScript, IsMountPoint;
      ghost var paths := volume.targetPaths;
      ghost var whole := MountAll(volume, paths, cluster.world, cluster.budget);
      ghost var done: seq<Command> := [];
      assert paths[0..] == paths;
      PrefixedEmpty(whole);
      for i := 0 to |volume.targetPaths|
        invariant cluster.log == old(cluster.log) + done
        invariant whole == Prefixed(done, MountAll(volume, paths[i..], cluster.world, cluster.budget))
      {
        var path := volume.targetPaths[i];
        assert paths[i..][0] == path && paths[i..][1..] == paths[i + 1..];
        var mounted := IsMountPoint(cluster.world, volume.clientHost, path);
        if !mounted {
          ghost var first := Perform(Go(MountScript(volume, path)), cluster.world, cluster.budget);
          PrefixedTwice(done, first.run.log, MountAll(volume, paths[i + 1..], first.run.world, first.run.left));
          var ok := RunMount(cluster, volume, path);
          if !ok {
            return Failed;
          }
          done := done + first.run.log;
        }
      }
      return Done;
    }

    method UnmountListed(volume: Volume) returns (reply: SyncReply)
      modifies cluster
      ensures Performed(UnmountAll(volume, volume.targetPaths, old(cluster.world), old(cluster.budget)), reply)
    {
      hide Execute, Apply, Answers, IsMountPoint;
      ghost var paths := volume.targetPaths;
      ghost var whole := UnmountAll(volume, paths, cluster.world, cluster.budget);
      ghost var done: seq<Command> := [];
      assert paths[0..] == paths;
      PrefixedEmpty(whole);
      for i := 0 to |volume.targetPaths|
        invariant cluster.log == old(cluster.log) + done
        invariant whole == Prefixed(done, UnmountAll(volume, paths[i..], cluster.world, cluster.budget))
      {
        var path := volume.targetPaths[i];
        assert paths[i..][0] == path && paths[i..][1..] == paths[i + 1..];
        var mounted := IsMountPoint(cluster.world, volume.clientHost, path);
        if mounted {
          ghost var first := Perform(Go([Umount(volume.clientHost, path)]), cluster.world, cluster.budget);
          PrefixedTwice(done, first.run.log, UnmountAll(volume, paths[i + 1..], first.run.world, first.run.left));
          var ok := cluster.Exec(Umount(volume.clientHost, path));
          if !ok {
            return Failed;
          }
          done := done + first.run.log;
        }
      }
      return Done;
    }

    method SyncMount(volume: Volume) returns (reply: SyncReply)
      modifies cluster
      ensures Performed(MountPhase(hosts, volume, old(cluster.world), old(cluster.budget)), reply)
    {
      hide MountAll, UnmountAll;
      if volume.clientHost == "" || volume.stagingPath == "" {
        return Done;
      }
      if Lookup(hosts, volume.clientHost).None? {
        return Failed;
      }
      reply := MountListed(volume);
      if reply != Done || volume.IsMounted() {
        return;
      }
      reply := UnmountListed(volume);
    }

    method Sync(volume: Volume) returns (reply: SyncReply)
      modifies cluster
      ensures Performed(SyncFrom(0, hosts, volume, old(cluster.world), old(cluster.budget)), reply)
    {
      hide Execute, ZfsPhase, PublishPhase, ConnectPhase, StagePhase, MountPhase;
      ghost var w, n := cluster.world, cluster.budget;
      ghost var zfs := Perform(PhaseAt(0, hosts, volume, w), w, n);
      reply := SyncZFS(volume);
      if reply != Done {
        return;
      }
      ghost var publish := Perform(PhaseAt(1, hosts, volume, cluster.world), cluster.world, cluster.budget);
      reply := SyncPublish(volume);
      if reply != Done {
        return;
      }
      ghost var connect := Perform(PhaseAt(2, hosts, volume, cluster.world), cluster.world, cluster.budget);
      reply := SyncConnect(volume);
      if reply != Done {
        return;
      }
      ghost var stage := Perform(PhaseAt(3, hosts, volume, cluster.world), cluster.world, cluster.budget);
      reply := SyncStage(volume);
      if reply != Done {
        return;
      }
      ghost var mount := MountPhase(hosts, volume, cluster.world, cluster.budget);
      reply := SyncMount(volume);
    }

    /** `VolumeService.SyncVolumes`, on the rows in the order the database lists them. */
    method SyncVolumes(volumes: seq<Volume>, budgets: seq<nat>) returns (failed: seq<string>, crashed: bool)
      requires |budgets| == |volumes|
      modifies cluster
      ensures var s := SyncEach(hosts, volumes, old(cluster.world), budgets);
        && cluster.world == s.world && cluster.log == old(cluster.log) + s.log
        && failed == s.failed && crashed == s.crashed
    {
      hide SyncFrom;
      ghost var whole := SyncEach(hosts, volumes, cluster.world, budgets);
      ghost var done: seq<Command> := [];
      failed := [];
      assert volumes[0..] == volumes && budgets[0..] == budgets;
      JoinedTwice([], [], [], [], whole);
      for i := 0 to |volumes|
        invariant cluster.log == old(cluster.log) + done
        invariant whole == Joined(done, failed, SyncEach(hosts, volumes[i..], cluster.world, budgets[i..]))
      {
        assert volumes[i..][0] == volumes[i] && volumes[i..][1..] == volumes[i + 1..];
        assert budgets[i..][0] == budgets[i] && budgets[i..][1..] == budgets[i + 1..];
        ghost var p := SyncFrom(0, hosts, volumes[i], cluster.world, budgets[i]);
        cluster.Renew(budgets[i]);
        var reply := Sync(volumes[i]);
        if reply == Crashed {
          assert failed + [] == failed;
          return failed, true;
        }
        ghost var fails := if reply == Done then [] else [volumes[i].id];
        JoinedTwice(done, failed, p.run.log, fails,
                    SyncEach(hosts, volumes[i + 1..], cluster.world, budgets[i + 1..]));
        if reply == Failed {
          failed := failed + [volumes[i].id];
        } else {
          assert failed + [] == failed;
        }
        done := done + p.run.log;
      }
      assert done + [] == done && failed + [] == failed;
      return failed, false;
    }
  }
}
