/** Sync never disturbs the targets, ACLs and sessions of a row in order, whatever its mounts. */
module SyncLinks {
  import opened Names
  import opened Volumes
  import opened Clusters
  import opened Plans
  import opened Lifecycles
  import opened Links
  import opened Syncers

  lemma CreateKeepsLinks(hosts: Hosts, v: Volume, w: World, host: string, dataset: string, size: int)
    requires LinksAgree(hosts, v, w)
    ensures LinksAgree(hosts, v, Apply(CreateZvol(host, dataset, size), w))
  {
    hide TargetOf, InitiatorOf, Owns;
  }

  lemma LoginKeepsLinks(hosts: Hosts, v: Volume, w: World)
    requires LinksAgree(hosts, v, w) && v.IsConnected()
    ensures LinksAgree(hosts, v, Apply(Login(v.clientHost, v.serverHost, TargetOf(hosts, v), InitiatorOf(hosts, v)), w))
  {
    hide TargetOf, InitiatorOf, Owns;
  }

  lemma DenyKeepsLinks(hosts: Hosts, v: Volume, w: World, target: string, initiator: string)
    requires LinksAgree(hosts, v, w) && !v.IsConnected()
    ensures LinksAgree(hosts, v, Apply(Deny(v.serverHost, target, initiator), w))
  {
    hide TargetOf, InitiatorOf, Owns;
  }

  /** While the links agree there is nothing to publish or unpublish. */
  lemma PublishIdle(hosts: Hosts, v: Volume, w: World)
    requires Lifecycle(hosts, v) && LinksAgree(hosts, v, w)
    ensures PublishPhase(hosts, v, w) == Go([]) || PublishPhase(hosts, v, w) == Stop(Failed)
    ensures v.IsPublished() ==> PublishPhase(hosts, v, w) == Go([])
  {
    if v.IsPublished() {
      TargetNotEmpty(hosts, v);
    } else {
      var server := Lookup(hosts, v.serverHost);
      if server.Some? && TargetID(server.value, v.transport.kind, v.id).Some? {
        TargetNameOwned(ClientID(server.value, v.transport.kind).value, v.id);
      }
    }
  }

  /** At most the session of a connected volume, or a leftover ACL entry, is amiss. */
  lemma ConnectRepairs(hosts: Hosts, v: Volume, w: World)
    requires Lifecycle(hosts, v) && LinksAgree(hosts, v, w) && ConnectPhase(hosts, v, w).Go?
    ensures var script := ConnectPhase(hosts, v, w).script;
      || script == []
      || (v.IsConnected()
          && script == [Login(v.clientHost, v.serverHost, TargetOf(hosts, v), InitiatorOf(hosts, v))])
      || (!v.IsConnected() && TargetOf(hosts, v) != ""
          && script == [Deny(v.serverHost, TargetOf(hosts, v), InitiatorOf(hosts, v))])
  {
    if v.serverHost != "" && v.clientHost != "" {
      var server, target := Lookup(hosts, v.serverHost), TargetOf(hosts, v);
      if v.IsConnected() {
        TargetIsOwned(hosts, v);
        assert CheckAuthorized(v, w, target, InitiatorOf(hosts, v));
      } else if server.Some? && TargetID(server.value, v.transport.kind, v.id).Some? {
        TargetNameOwned(ClientID(server.value, v.transport.kind).value, v.id);
        assert !CheckConnected(v, w, target);
      } else {
        assert v.transport.kind != Unspecified && server.Some? ==> target == "";
      }
    }
  }

  /** What a Sync may do to a row whose links agree. */
  predicate Mends(hosts: Hosts, v: Volume, c: Command) {
    || c == QueryZvol(v.serverHost, v.datasetID)
    || c == CreateZvol(v.serverHost, v.datasetID, v.capacityBytes)
    || (c == Login(v.clientHost, v.serverHost, TargetOf(hosts, v), InitiatorOf(hosts, v)) && v.IsConnected())
    || (c == Deny(v.serverHost, TargetOf(hosts, v), InitiatorOf(hosts, v))
        && !v.IsConnected() && TargetOf(hosts, v) != "")
    || OnClient(c)
  }

  lemma MendKeepsLinks(hosts: Hosts, v: Volume, c: Command, w: World)
    requires LinksAgree(hosts, v, w) && Mends(hosts, v, c)
    ensures LinksAgree(hosts, v, Apply(c, w))
  {
    hide LinksAgree, Apply, OnClient, TargetOf, InitiatorOf;
    if OnClient(c) {
      CommandSides(c, w);
      SameTargetItself(v);
      SameTargetLinks(hosts, v, v, w, Apply(c, w));
    } else if c.CreateZvol? {
      CreateKeepsLinks(hosts, v, w, v.serverHost, v.datasetID, v.capacityBytes);
    } else if c.Login? {
      LoginKeepsLinks(hosts, v, w);
    } else if c.Deny? {
      DenyKeepsLinks(hosts, v, w, TargetOf(hosts, v), InitiatorOf(hosts, v));
    } else {
      QueryChangesNothing(c, w);
    }
  }

  lemma QueryChangesNothing(c: Command, w: World)
    requires !Mutates(c)
    ensures Apply(c, w) == w
  {
  }

  lemma EarlyPhaseMends(k: nat, hosts: Hosts, v: Volume, w: World, c: Command)
    requires k < 3 && Lifecycle(hosts, v) && LinksAgree(hosts, v, w)
    requires PhaseAt(k, hosts, v, w).Go? && c in PhaseAt(k, hosts, v, w).script
    ensures Mends(hosts, v, c)
  {
    match k
    case 0 =>
    case 1 => PublishIdle(hosts, v, w);
    case _ => ConnectRepairs(hosts, v, w);
  }

  lemma StagePhaseMends(hosts: Hosts, v: Volume, w: World, c: Command)
    requires StagePhase(hosts, v, w).Go? && c in StagePhase(hosts, v, w).script
    ensures OnClient(c)
  {
    hide Lookup, SyncTarget, IsMountPoint;
  }

  lemma PhaseMends(k: nat, hosts: Hosts, v: Volume, w: World, budget: nat, c: Command)
    requires k < 4 && Lifecycle(hosts, v) && LinksAgree(hosts, v, w)
    requires c in Perform(PhaseAt(k, hosts, v, w), w, budget).run.log
    ensures Mends(hosts, v, c)
  {
    hide Execute, LinksAgree, Lifecycle, ZfsPhase, PublishPhase, ConnectPhase, StagePhase, OnClient;
    var phase := PhaseAt(k, hosts, v, w);
    ExecuteIsPrefix(phase.script, w, budget);
    assert c in phase.script;
    if k < 3 {
      EarlyPhaseMends(k, hosts, v, w, c);
    } else {
      StagePhaseMends(hosts, v, w, c);
    }
  }

  lemma {:induction false} MountAllOnClient(v: Volume, paths: seq<string>, w: World, budget: nat, c: Command)
    requires c in MountAll(v, paths, w, budget).run.log
    ensures OnClient(c)
    decreases |paths|
  {
    hide Execute, IsMountPoint;
    if paths != [] {
      if IsMountPoint(w, v.clientHost, paths[0]) {
        MountAllOnClient(v, paths[1..], w, budget, c);
      } else {
        ExecuteIsPrefix(MountScript(v, paths[0]), w, budget);
        var first := Execute(MountScript(v, paths[0]), w, budget);
        assert c in first.log ==> c in MountScript(v, paths[0]);
        if first.ok && c !in first.log {
          MountAllOnClient(v, paths[1..], first.world, first.left, c);
        }
      }
    }
  }

  lemma {:induction false} UnmountAllOnClient(v: Volume, paths: seq<string>, w: World, budget: nat, c: Command)
    requires c in UnmountAll(v, paths, w, budget).run.log
    ensures OnClient(c)
    decreases |paths|
  {
    hide Execute, IsMountPoint;
    if paths != [] {
      if !IsMountPoint(w, v.clientHost, paths[0]) {
        UnmountAllOnClient(v, paths[1..], w, budget, c);
      } else {
        ExecuteIsPrefix([Umount(v.clientHost, paths[0])], w, budget);
        var first := Execute([Umount(v.clientHost, paths[0])], w, budget);
        assert c in first.log ==> c in [Umount(v.clientHost, paths[0])];
        if first.ok && c !in first.log {
          UnmountAllOnClient(v, paths[1..], first.world, first.left, c);
        }
      }
    }
  }

  lemma MountPhaseOnClient(hosts: Hosts, v: Volume, w: World, budget: nat, c: Command)
    requires c in MountPhase(hosts, v, w, budget).run.log
    ensures OnClient(c)
  {
    hide MountAll, UnmountAll, Lookup, Execute, OnClient;
    var mounted := MountAll(v, v.targetPaths, w, budget);
    if c in mounted.run.log {
      MountAllOnClient(v, v.targetPaths, w, budget, c);
    } else {
      UnmountAllOnClient(v, v.targetPaths, mounted.run.world, mounted.run.left, c);
    }
  }

  // -- A Sync is the replay of its log --------------------------------------------------

  lemma {:induction false} MountAllReplays(v: Volume, paths: seq<string>, w: World, budget: nat)
    ensures var r := MountAll(v, paths, w, budget).run; r.world == Replay(r.log, w)
    decreases |paths|
  {
    hide Execute, IsMountPoint, Apply, Replay, MountScript;
    ReplayEmpty(w);
    if paths != [] {
      if IsMountPoint(w, v.clientHost, paths[0]) {
        MountAllReplays(v, paths[1..], w, budget);
      } else {
        ExecuteIsPrefix(MountScript(v, paths[0]), w, budget);
        var first := Execute(MountScript(v, paths[0]), w, budget);
        MountAllReplays(v, paths[1..], first.world, first.left);
        ReplayAppend(first.log, MountAll(v, paths[1..], first.world, first.left).run.log, w);
      }
    }
  }

  lemma {:induction false} UnmountAllReplays(v: Volume, paths: seq<string>, w: World, budget: nat)
    ensures var r := UnmountAll(v, paths, w, budget).run; r.world == Replay(r.log, w)
    decreases |paths|
  {
    hide Execute, IsMountPoint, Apply, Replay;
    ReplayEmpty(w);
    if paths != [] {
      if !IsMountPoint(w, v.clientHost, paths[0]) {
        UnmountAllReplays(v, paths[1..], w, budget);
      } else {
        ExecuteIsPrefix([Umount(v.clientHost, paths[0])], w, budget);
        var first := Execute([Umount(v.clientHost, paths[0])], w, budget);
        UnmountAllReplays(v, paths[1..], first.world, first.left);
        ReplayAppend(first.log, UnmountAll(v, paths[1..], first.world, first.left).run.log, w);
      }
    }
  }

  lemma MountPhaseReplays(hosts: Hosts, v: Volume, w: World, budget: nat)
    ensures var r := MountPhase(hosts, v, w, budget).run; r.world == Replay(r.log, w)
  {
    hide MountAll, UnmountAll, Lookup, Execute, Replay, Apply;
    var mounted := MountAll(v, v.targetPaths, w, budget).run;
    ReplayEmpty(w);
    MountAllReplays(v, v.targetPaths, w, budget);
    UnmountAllReplays(v, v.targetPaths, mounted.world, mounted.left);
    ReplayAppend(mounted.log, UnmountAll(v, v.targetPaths, mounted.world, mounted.left).run.log, w);
  }

  lemma PerformReplays(p: Phase, w: World, budget: nat)
    ensures var r := Perform(p, w, budget).run; r.world == Replay(r.log, w)
  {
    hide Execute, Replay, Apply;
    ReplayEmpty(w);
    if p.Go? {
      ExecuteIsPrefix(p.script, w, budget);
    }
  }

  lemma {:induction false} SyncFromReplays(k: nat, hosts: Hosts, v: Volume, w: World, budget: nat)
    requires k <= 4
    ensures var r := SyncFrom(k, hosts, v, w, budget).run; r.world == Replay(r.log, w)
    decreases 4 - k
  {
    hide Execute, Replay, Apply, PhaseAt, Perform, MountPhase;
    if k == 4 {
      MountPhaseReplays(hosts, v, w, budget);
    } else {
      var phase := Perform(PhaseAt(k, hosts, v, w), w, budget);
      PerformReplays(PhaseAt(k, hosts, v, w), w, budget);
      if phase.reply == Done {
        SyncFromReplays(k + 1, hosts, v, phase.run.world, phase.run.left);
        ReplayAppend(phase.run.log, SyncFrom(k + 1, hosts, v, phase.run.world, phase.run.left).run.log, w);
      }
    }
  }

  /** Every command of a Sync is one that may be, so links agree with the row throughout. */
  lemma {:induction false} SyncFromMends(k: nat, hosts: Hosts, v: Volume, w: World, budget: nat)
    requires k <= 4 && Lifecycle(hosts, v) && LinksAgree(hosts, v, w)
    ensures forall c :: c in SyncFrom(k, hosts, v, w, budget).run.log ==> Mends(hosts, v, c)
    decreases 4 - k
  {
    hide LinksAgree, Execute, Replay, Apply, Lifecycle, PhaseAt, Perform, MountPhase, OnClient, TargetOf, InitiatorOf;
    if k == 4 {
      forall c | c in MountPhase(hosts, v, w, budget).run.log ensures Mends(hosts, v, c) {
        MountPhaseOnClient(hosts, v, w, budget, c);
      }
    } else {
      var phase := Perform(PhaseAt(k, hosts, v, w), w, budget);
      PerformReplays(PhaseAt(k, hosts, v, w), w, budget);
      forall c | c in phase.run.log ensures Mends(hosts, v, c) {
        PhaseMends(k, hosts, v, w, budget, c);
      }
      MendsKeepLinks(hosts, v, phase.run.log, w);
      if phase.reply == Done {
        SyncFromMends(k + 1, hosts, v, phase.run.world, phase.run.left);
      }
    }
  }

  lemma {:induction false} MendsKeepLinks(hosts: Hosts, v: Volume, log: seq<Command>, w: World)
    requires LinksAgree(hosts, v, w) && forall c :: c in log ==> Mends(hosts, v, c)
    ensures LinksAgree(hosts, v, Replay(log, w))
    decreases |log|
  {
    hide LinksAgree, Mends, Apply;
    if log != [] {
      MendKeepsLinks(hosts, v, log[0], w);
      MendsKeepLinks(hosts, v, log[1..], Apply(log[0], w));
    }
  }

  /** Whatever the mounts and whatever fails, a Sync only mends links. */
  lemma SyncMends(hosts: Hosts, v: Volume, w: World, budget: nat)
    requires Lifecycle(hosts, v) && LinksAgree(hosts, v, w)
    ensures var r := Sync(hosts, v, w, budget).run;
      && r.world == Replay(r.log, w) && LinksAgree(hosts, v, r.world)
      && forall c :: c in r.log ==> Mends(hosts, v, c)
  {
    hide LinksAgree, Mends, SyncFrom, Replay;
    SyncFromReplays(0, hosts, v, w, budget);
    SyncFromMends(0, hosts, v, w, budget);
    MendsKeepLinks(hosts, v, Sync(hosts, v, w, budget).run.log, w);
  }
}
