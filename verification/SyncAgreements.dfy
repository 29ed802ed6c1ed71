/** Sync never disturbs agreement, whatever fails, and repairs what failed handlers leave. */
module SyncAgreements {
  import opened Names
  import opened Volumes
  import opened Clusters
  import opened Plans
  import opened Lifecycles
  import opened Links
  import opened Agreements
  import opened Syncers
  import opened SyncLinks
  import opened Reconciliations

  /** The agreement of one row, as a property of worlds. */
  ghost function Agreeing(hosts: Hosts, v: Volume): World -> bool {
    w => Agree(hosts, v, w)
  }

  lemma UmountKeepsAgreement(hosts: Hosts, v: Volume, w: World, host: string, path: string)
    requires Agree(hosts, v, w) && !v.IsStaged() && v.targetPaths == []
    ensures Agree(hosts, v, Apply(Umount(host, path), w))
  {
    var mounts := Popped(w.mounts, host, path);
    assert MountsAgree(hosts, v, mounts) by {
      PoppedChanges(w.mounts, host, path);
      hide MountsAt, Popped, TargetOf, Owns, LinksAgree;
    }
    MountsDecide(hosts, v, v, w, mounts);
  }

  /** One phase keeps agreement after every command, and only its log changed the world. */
  lemma PhaseKeepsAgreement(k: nat, hosts: Hosts, v: Volume, w: World, budget: nat)
    requires k < 4 && Lifecycle(hosts, v) && Agree(hosts, v, w)
    ensures var r := Perform(PhaseAt(k, hosts, v, w), w, budget).run;
      Along(Agreeing(hosts, v), r.log, w) && r.world == Replay(r.log, w)
  {
    var phase := PhaseAt(k, hosts, v, w);
    match phase
    case Stop(_) =>
      AlongByCommand(Agreeing(hosts, v), [], w);
    case Go(script) =>
      ExecuteIsPrefix(script, w, budget);
      forall n: nat ensures Agree(hosts, v, Execute(script, w, n).world) {
        ScriptKeepsAgreement(k, hosts, v, w, script, n);
      }
      AlongExecute(Agreeing(hosts, v), script, w, budget);
  }

  lemma ScriptKeepsAgreement(k: nat, hosts: Hosts, v: Volume, w: World, script: seq<Command>, n: nat)
    requires k < 4 && Lifecycle(hosts, v) && Agree(hosts, v, w) && PhaseAt(k, hosts, v, w) == Go(script)
    ensures Agree(hosts, v, Execute(script, w, n).world)
  {
    if k < 3 {
      EarlyScriptKeepsAgreement(k, hosts, v, w, script, n);
    } else {
      ExecuteEmpty(w, n);
      StageIdleOrStale(hosts, v, w);
      hide Agree, Execute, StagePhase, Lifecycle, Idle;
      if script != [] {
        ExecuteOne(Umount(v.clientHost, v.stagingPath), w, n);
        UmountKeepsAgreement(hosts, v, w, v.clientHost, v.stagingPath);
      }
    }
  }

  lemma EarlyScriptKeepsAgreement(k: nat, hosts: Hosts, v: Volume, w: World, script: seq<Command>, n: nat)
    requires k < 3 && Lifecycle(hosts, v) && Agree(hosts, v, w) && PhaseAt(k, hosts, v, w) == Go(script)
    ensures Agree(hosts, v, Execute(script, w, n).world)
  {
    hide Execute, Replay, LinksAgree, MountsAgree, Lifecycle, PhaseAt, Mends, OnLinks;
    var r := Execute(script, w, n);
    ExecuteIsPrefix(script, w, n);
    forall c | c in script ensures Mends(hosts, v, c) && OnLinks(c) {
      EarlyPhaseMends(k, hosts, v, w, c);
      EarlyPhaseOnLinks(k, hosts, v, w, c);
    }
    assert forall c :: c in r.log ==> c in script;
    MendsKeepLinks(hosts, v, r.log, w);
    ScriptSides(script, w, n);
    SameMountsAgree(hosts, v, w, r.world);
  }

  lemma EarlyPhaseOnLinks(k: nat, hosts: Hosts, v: Volume, w: World, c: Command)
    requires k < 3 && PhaseAt(k, hosts, v, w).Go? && c in PhaseAt(k, hosts, v, w).script
    ensures OnLinks(c)
  {
    hide TargetID, ClientID, Lookup, CheckPublished, CheckAuthorized, CheckConnected;
  }

  /** In agreement, staging has nothing to do but unmount a stale path. */
  lemma StageIdleOrStale(hosts: Hosts, v: Volume, w: World)
    requires Lifecycle(hosts, v) && Agree(hosts, v, w) && StagePhase(hosts, v, w).Go?
    ensures var script := StagePhase(hosts, v, w).script;
      script == [] || (script == [Umount(v.clientHost, v.stagingPath)] && !v.IsStaged() && v.targetPaths == [])
  {
    hide LinksAgree, StageScript, SyncTarget, MountsAt;
  }

  /** All listed paths are mounted while row and hosts agree. */
  lemma MountIdle(hosts: Hosts, v: Volume, w: World, budget: nat)
    requires Lifecycle(hosts, v) && Agree(hosts, v, w)
    ensures var p := MountPhase(hosts, v, w, budget); p.run.world == w && p.run.log == []
    ensures v.IsConnected() ==> MountPhase(hosts, v, w, budget).reply == Done
  {
    if v.clientHost != "" && v.stagingPath != "" && Lookup(hosts, v.clientHost).Some? {
      MountAllQuiet(v, v.targetPaths, w, budget);
    }
  }

  lemma SyncFromKeepsAgreement(k: nat, hosts: Hosts, v: Volume, w: World, budget: nat)
    requires k <= 4 && Lifecycle(hosts, v) && Agree(hosts, v, w)
    ensures var r := SyncFrom(k, hosts, v, w, budget).run;
      Along(Agreeing(hosts, v), r.log, w) && r.world == Replay(r.log, w)
    decreases 4 - k
  {
    hide Agree, Execute, Replay;
    if k == 4 {
      MountIdle(hosts, v, w, budget);
      AlongByCommand(Agreeing(hosts, v), [], w);
      assert Replay([], w) == w by { ReplayEmpty(w); }
    } else {
      PhaseKeepsAgreement(k, hosts, v, w, budget);
      var phase := Perform(PhaseAt(k, hosts, v, w), w, budget);
      if phase.reply == Done {
        AlongEnds(Agreeing(hosts, v), phase.run.log, w);
        SyncFromKeepsAgreement(k + 1, hosts, v, phase.run.world, phase.run.left);
        var rest := SyncFrom(k + 1, hosts, v, phase.run.world, phase.run.left).run.log;
        AlongAppend(Agreeing(hosts, v), phase.run.log, rest, w);
        ReplayAppend(phase.run.log, rest, w);
      }
    }
  }

  /** After every single command of a Sync, successful or not, row and hosts agree. */
  lemma SyncKeepsAgreement(hosts: Hosts, v: Volume, w: World, budget: nat)
    requires Lifecycle(hosts, v) && Agree(hosts, v, w)
    ensures var r := Sync(hosts, v, w, budget).run;
      Along(Agreeing(hosts, v), r.log, w) && r.world == Replay(r.log, w) && Agree(hosts, v, r.world)
  {
    SyncFromKeepsAgreement(0, hosts, v, w, budget);
    AlongEnds(Agreeing(hosts, v), Sync(hosts, v, w, budget).run.log, w);
  }

  lemma StagePhaseSucceeds(hosts: Hosts, v: Volume, w: World, budget: nat)
    requires Lifecycle(hosts, v) && Agree(hosts, v, w) && v.IsConnected() && budget >= 1
    ensures SyncFrom(3, hosts, v, w, budget).reply == Done
  {
    ExecuteEmpty(w, budget);
    ExecuteOne(Umount(v.clientHost, v.stagingPath), w, budget);
    var phase := StagePhase(hosts, v, w);
    assert phase.Go? && Execute(phase.script, w, budget).ok;
    ScriptKeepsAgreement(3, hosts, v, w, phase.script, budget);
    var r := Execute(phase.script, w, budget);
    hide Execute, Agree, StagePhase;
    MountIdle(hosts, v, r.world, r.left);
  }

  lemma ConnectPhaseSucceeds(hosts: Hosts, v: Volume, w: World, budget: nat)
    requires Lifecycle(hosts, v) && Agree(hosts, v, w) && v.IsConnected() && budget >= 2
    ensures SyncFrom(2, hosts, v, w, budget).reply == Done <==> hosts[v.serverHost].connection.Remote?
  {
    var phase := ConnectPhase(hosts, v, w);
    assert phase.Go? <==> hosts[v.serverHost].connection.Remote?;
    if phase.Go? {
      ConnectRepairs(hosts, v, w);
      ExecuteEmpty(w, budget);
      ExecuteOne(Login(v.clientHost, v.serverHost, TargetOf(hosts, v), InitiatorOf(hosts, v)), w, budget);
      ScriptKeepsAgreement(2, hosts, v, w, phase.script, budget);
      var r := Execute(phase.script, w, budget);
      hide Execute, Agree, ConnectPhase;
      StagePhaseSucceeds(hosts, v, r.world, r.left);
    }
  }

  /**
   * Whatever failed handlers left of a connected volume, such as a disconnect that
   * dropped the session and then failed, Sync repairs, exactly when the server host is
   * remote: the code reads the server's remote address whatever its connection is.
   */
  lemma SyncRepairs(hosts: Hosts, v: Volume, w: World, budget: nat)
    requires Lifecycle(hosts, v) && Agree(hosts, v, w) && v.IsConnected() && budget >= 3
    ensures Sync(hosts, v, w, budget).reply == Done <==> hosts[v.serverHost].connection.Remote?
    ensures Sync(hosts, v, w, budget).reply == Done ==> Claimed(hosts, v, Sync(hosts, v, w, budget).run.world)
  {
    hide *;
    QuietStart(hosts, v, w, budget);
    ConnectPhaseSucceeds(hosts, v, w, budget - 1);
    if Sync(hosts, v, w, budget).reply == Done {
      SyncClaims(hosts, v, w, budget);
    }
  }

  /** A disconnect whose second command fails has dropped the session and rolls the row back. */
  lemma DisconnectHalfway(hosts: Hosts, v: Volume, w: World)
    requires DisconnectPlan(hosts, v).Act? && Lifecycle(hosts, v) && v.IsConnected()
    ensures var logout := Logout(v.clientHost, TargetOf(hosts, v));
      Handle(Disconnect, hosts, v, w, 1) == Outcome(v, Run(Apply(logout, w), 0, [logout], false), Error(Internal))
  {
    var target := TargetOf(hosts, v);
    var logout, deny := Logout(v.clientHost, target), Deny(v.serverHost, target, InitiatorOf(hosts, v));
    assert DisconnectPlan(hosts, v).script == [logout] + [deny];
    hide Apply, DisconnectPlan, TargetOf, InitiatorOf, Lifecycle, Execute;
    ExecuteAppend([logout], [deny], w, 1);
    ExecuteOne(logout, w, 1);
    ExecuteOne(deny, Apply(logout, w), 0);
  }

  lemma LogoutDropsSession(hosts: Hosts, v: Volume, w: World)
    ensures At(v.clientHost, TargetOf(hosts, v)) !in Apply(Logout(v.clientHost, TargetOf(hosts, v)), w).sessions
  {
  }

  /** Sync brings back the session a failed disconnect has dropped. */
  lemma FailedDisconnectIsRepaired(hosts: Hosts, v: Volume, w: World, budget: nat)
    requires Lifecycle(hosts, v) && Agree(hosts, v, w) && v.status == CONNECTED
    requires DisconnectPlan(hosts, v).Act? && budget >= 3 && hosts[v.serverHost].connection.Remote?
    ensures var o, key := Handle(Disconnect, hosts, v, w, 1), At(v.clientHost, TargetOf(hosts, v));
      && o.reply == Error(Internal) && o.volume == v && key !in o.run.world.sessions
      && var p := Sync(hosts, v, o.run.world, budget); p.reply == Done && key in p.run.world.sessions
  {
    hide Lifecycle, Agree, Sync, DisconnectPlan, TargetOf, InitiatorOf, Handle, Lookup;
    DisconnectHalfway(hosts, v, w);
    HandleKeepsAgreement(Disconnect, hosts, v, w, 1);
    LogoutDropsSession(hosts, v, w);
    SyncRepairs(hosts, v, Apply(Logout(v.clientHost, TargetOf(hosts, v)), w), budget);
  }

  lemma QuietStart(hosts: Hosts, v: Volume, w: World, budget: nat)
    requires Lifecycle(hosts, v) && Agree(hosts, v, w) && v.IsConnected() && budget >= 1
    ensures Sync(hosts, v, w, budget).reply == SyncFrom(2, hosts, v, w, budget - 1).reply
  {
    var query := QueryZvol(v.serverHost, v.datasetID);
    hide Execute, Agree, Lifecycle, PublishPhase, ZfsPhase, ConnectPhase, StagePhase, MountPhase;
    ZfsIdle(hosts, v, w);
    PublishIdle(hosts, v, w);
    ExecuteOne(query, w, budget);
    ExecuteEmpty(w, budget - 1);
    assert SyncFrom(1, hosts, v, w, budget - 1).reply == SyncFrom(2, hosts, v, w, budget - 1).reply;
  }

  lemma ZfsIdle(hosts: Hosts, v: Volume, w: World)
    requires Lifecycle(hosts, v) && Agree(hosts, v, w) && v.IsConnected()
    ensures ZfsPhase(hosts, v, w) == Go([QueryZvol(v.serverHost, v.datasetID)])
    ensures LinksAgree(hosts, v, w) && v.IsPublished()
  {
    var query := QueryZvol(v.serverHost, v.datasetID);
    assert [query] + [] == [query];
  }
}
