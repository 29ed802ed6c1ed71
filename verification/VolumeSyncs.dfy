/** What a sweep over all volumes (`SyncVolumes`) establishes, from any world at all. */
module VolumeSyncs {
  import opened Names
  import opened Volumes
  import opened Clusters
  import opened Plans
  import opened Lifecycles
  import opened Links
  import opened Syncers
  import opened SyncLinks
  import opened Reconciliations
  import opened Fleets
  import opened Nestings

  // -- The mounts one Sync leaves -------------------------------------------------------

  /** How many mounts a successful Sync of the row leaves on a mount point that had n. */
  function HeightAfter(v: Volume, n: nat, host: string, path: string): nat {
    if UmountsStale(v) && host == v.clientHost && path == v.stagingPath && n > 0 then n - 1
    else if Uses(v, host, path) && n == 0 then 1
    else n
  }

  lemma StageHeights(hosts: Hosts, v: Volume, w: World, budget: nat, host: string, path: string)
    requires Lifecycle(hosts, v) && Perform(StagePhase(hosts, v, w), w, budget).reply == Done
    ensures var w1 := Perform(StagePhase(hosts, v, w), w, budget).run.world;
      Height(w1, host, path) ==
        if v.IsStaged() && host == v.clientHost && path == v.stagingPath && Height(w, host, path) == 0 then 1
        else if UmountsStale(v) && host == v.clientHost && path == v.stagingPath && Height(w, host, path) > 0
        then Height(w, host, path) - 1
        else Height(w, host, path)
  {
    var target := TargetOf(hosts, v);
    hide Execute, Pushed, Popped, StageScript, Formatted, MountsAt, Lifecycle, TargetOf, SyncTarget, Backing;
    StagedTarget(hosts, v);
    LifecycleFields(hosts, v);
    ExecuteEmpty(w, budget);
    if v.IsStaged() {
      StageResult(v, w, target, budget);
      FormattedKeepsMounts(v, w, target);
      PushedChanges(w.mounts, v.clientHost, v.stagingPath, Device(target));
    } else {
      ExecuteOne(Umount(v.clientHost, v.stagingPath), w, budget);
      PoppedChanges(w.mounts, v.clientHost, v.stagingPath);
    }
  }

  lemma StagedTarget(hosts: Hosts, v: Volume)
    requires Lifecycle(hosts, v)
    ensures v.IsStaged() ==>
      && Lookup(hosts, v.serverHost).Some? && SyncTarget(hosts[v.serverHost], v) == TargetOf(hosts, v)
      && v.serverHost != ""
  {
  }

  lemma {:induction false} MountAllHeights(v: Volume, paths: seq<string>, w: World, budget: nat, host: string,
                                           path: string)
    requires MountAll(v, paths, w, budget).reply == Done
    ensures Height(MountAll(v, paths, w, budget).run.world, host, path)
         == if host == v.clientHost && path in paths && Height(w, host, path) == 0 then 1 else Height(w, host, path)
    decreases |paths|
  {
    hide Execute, MountScript, MountsAt;
    if paths != [] {
      if IsMountPoint(w, v.clientHost, paths[0]) {
        MountAllHeights(v, paths[1..], w, budget, host, path);
      } else {
        var first := Execute(MountScript(v, paths[0]), w, budget);
        MountAllHeights(v, paths[1..], first.world, first.left, host, path);
        MountOneHeight(v, paths[0], w, budget, host, path);
      }
    }
  }

  lemma MountOneHeight(v: Volume, mounted: string, w: World, budget: nat, host: string, path: string)
    requires Execute(MountScript(v, mounted), w, budget).ok
    ensures Height(Execute(MountScript(v, mounted), w, budget).world, host, path)
         == Height(w, host, path) + if host == v.clientHost && path == mounted then 1 else 0
  {
    hide Execute, MountScript, Pushed, MountsAt;
    MountResult(v, w, mounted, budget);
    PushedChanges(w.mounts, v.clientHost, mounted, Bind(v.stagingPath));
  }

  lemma MountHeights(hosts: Hosts, v: Volume, w: World, budget: nat, host: string, path: string)
    requires Lifecycle(hosts, v) && MountPhase(hosts, v, w, budget).reply == Done
    ensures Height(MountPhase(hosts, v, w, budget).run.world, host, path)
         == if host == v.clientHost && path in v.targetPaths && Height(w, host, path) == 0 then 1
            else Height(w, host, path)
  {
    LifecycleFields(hosts, v);
    hide Lifecycle, MountAll, MountsAt;
    if v.clientHost != "" && v.stagingPath != "" {
      MountAllHeights(v, v.targetPaths, w, budget, host, path);
    }
  }

  lemma {:induction false} UnmountAllHeights(v: Volume, paths: seq<string>, w: World, budget: nat, host: string,
                                             path: string)
    requires NoDuplicates(paths) && UnmountAll(v, paths, w, budget).reply == Done
    ensures var n := Height(w, host, path);
      Height(UnmountAll(v, paths, w, budget).run.world, host, path)
      == if host == v.clientHost && path in paths && n > 0 then n - 1 else n
    decreases |paths|
  {
    hide Execute, MountsAt, NoDuplicates;
    if paths != [] {
      TailAvoidsHead(paths);
      if !IsMountPoint(w, v.clientHost, paths[0]) {
        UnmountAllHeights(v, paths[1..], w, budget, host, path);
      } else {
        var umount := Umount(v.clientHost, paths[0]);
        ExecuteOne(umount, w, budget);
        hide Popped;
        PoppedChanges(w.mounts, v.clientHost, paths[0]);
        UnmountAllHeights(v, paths[1..], Apply(umount, w), budget - 1, host, path);
      }
    }
  }

  /**
   * The mount phase of any row, one outside the lifecycle too: listed paths are mounted if
   * nothing is on them; and if the row is not mounted, each is then unmounted once.
   */
  lemma MountPhaseHeights(hosts: Hosts, v: Volume, w: World, budget: nat, host: string, path: string)
    requires NoDuplicates(v.targetPaths) && MountPhase(hosts, v, w, budget).reply == Done
    ensures var n := Height(w, host, path);
      Height(MountPhase(hosts, v, w, budget).run.world, host, path) ==
        if v.clientHost == "" || v.stagingPath == "" || host != v.clientHost || path !in v.targetPaths then n
        else if v.IsMounted() then (if n == 0 then 1 else n)
        else (if n == 0 then 0 else n - 1)
  {
    if v.clientHost != "" && v.stagingPath != "" {
      var mounted := MountAll(v, v.targetPaths, w, budget);
      hide MountAll, UnmountAll, Height, NoDuplicates;
      MountAllHeights(v, v.targetPaths, w, budget, host, path);
      if !v.IsMounted() {
        UnmountAllHeights(v, v.targetPaths, mounted.run.world, mounted.run.left, host, path);
      }
    }
  }

  /** A successful Sync changes the height of every mount point as its row says, from any world. */
  lemma SyncHeights(hosts: Hosts, v: Volume, w: World, budget: nat, host: string, path: string)
    requires Lifecycle(hosts, v) && Sync(hosts, v, w, budget).reply == Done
    ensures Height(Sync(hosts, v, w, budget).run.world, host, path) == HeightAfter(v, Height(w, host, path), host, path)
  {
    var a := Perform(ZfsPhase(hosts, v, w), w, budget).run;
    var b := Perform(PublishPhase(hosts, v, a.world), a.world, a.left).run;
    var c := Perform(ConnectPhase(hosts, v, b.world), b.world, b.left).run;
    var d := Perform(StagePhase(hosts, v, c.world), c.world, c.left).run;
    LifecycleFields(hosts, v);
    hide Perform, MountPhase, ZfsPhase, PublishPhase, ConnectPhase, StagePhase, Lookup, TargetOf, InitiatorOf, MountsAt,
      Sync, Lifecycle, Linked;
    SyncPhases(hosts, v, w, budget);
    ZfsDone(hosts, v, w, budget);
    PublishDone(hosts, v, a.world, a.left);
    ConnectDone(hosts, v, b.world, b.left);
    StageHeights(hosts, v, c.world, c.left, host, path);
    MountHeights(hosts, v, d.world, d.left, host, path);
    SameHeight(w, c.world, host, path);
  }

  lemma SameHeight(w: World, w1: World, host: string, path: string)
    requires w1.mounts == w.mounts
    ensures Height(w1, host, path) == Height(w, host, path)
  {
  }

  // -- What one Sync leaves of other rows -----------------------------------------------

  lemma EarlyPhaseConfined(k: nat, hosts: Hosts, v: Volume, w: World, c: Command)
    requires k < 3 && Lifecycle(hosts, v) && PhaseAt(k, hosts, v, w).Go? && c in PhaseAt(k, hosts, v, w).script
    ensures Confined(v, c)
  {
    hide Owns, TargetID, ClientID, Lifecycle, Lookup, CheckPublished, CheckAuthorized, CheckConnected;
    NamedIsOwned(hosts, v);
    if v.IsPublished() {
      TargetIsOwned(hosts, v);
    }
    ChecksName(v, w);
  }

  lemma ChecksName(v: Volume, w: World)
    ensures !CheckPublished(v, w, "") && !CheckConnected(v, w, "")
    ensures forall initiator :: !CheckAuthorized(v, w, "", initiator)
  {
  }

  lemma OnClientConfined(v: Volume, c: Command)
    requires OnClient(c)
    ensures Confined(v, c)
  {
  }

  /** In any world, a Sync of one row names no target, and destroys no zvol, of another. */
  lemma {:induction false} SyncFromConfined(k: nat, hosts: Hosts, v: Volume, w: World, budget: nat, c: Command)
    requires k <= 4 && Lifecycle(hosts, v) && c in SyncFrom(k, hosts, v, w, budget).run.log
    ensures Confined(v, c)
    decreases 4 - k
  {
    hide Execute, Lifecycle, PhaseAt, MountPhase, Confined, OnClient;
    if k == 4 {
      MountPhaseOnClient(hosts, v, w, budget, c);
      OnClientConfined(v, c);
    } else {
      var phase := Perform(PhaseAt(k, hosts, v, w), w, budget);
      if c in phase.run.log {
        ExecuteIsPrefix(PhaseAt(k, hosts, v, w).script, w, budget);
        assert c in PhaseAt(k, hosts, v, w).script;
        if k < 3 {
          EarlyPhaseConfined(k, hosts, v, w, c);
        } else {
          LastPhase(k, hosts, v, w);
          StagePhaseMends(hosts, v, w, c);
          OnClientConfined(v, c);
        }
      } else {
        SyncFromConfined(k + 1, hosts, v, phase.run.world, phase.run.left, c);
      }
    }
  }

  lemma LastPhase(k: nat, hosts: Hosts, v: Volume, w: World)
    requires k == 3
    ensures PhaseAt(k, hosts, v, w) == StagePhase(hosts, v, w)
  {
  }

  lemma SyncLeaves(hosts: Hosts, v: Volume, w: World, budget: nat)
    requires Lifecycle(hosts, v)
    ensures Leaves(v, w, Sync(hosts, v, w, budget).run.world)
  {
    hide SyncFrom, Leaves, Confined, Lifecycle, Replay;
    var r := Sync(hosts, v, w, budget).run;
    SyncFromReplays(0, hosts, v, w, budget);
    forall c | c in r.log ensures Confined(v, c) {
      SyncFromConfined(0, hosts, v, w, budget, c);
    }
    LogLeaves(v, r.log, w);
  }

  /** The row's links are there as far as its status claims them, and no further. */
  ghost predicate LinksSettled(hosts: Hosts, v: Volume, w: World) {
    StoreClaimed(hosts, v, w) && LinkClaimed(hosts, v, w) && NoStrays(hosts, v, w)
  }

  lemma SettledLeft(hosts: Hosts, v: Volume, u: Volume, w: World, w1: World)
    requires Lifecycle(hosts, u) && LinksSettled(hosts, u, w) && Leaves(v, w, w1) && Apart(v, u)
    ensures LinksSettled(hosts, u, w1)
  {
    NamedIsOwned(hosts, u);
    if u.IsPublished() {
      TargetIsOwned(hosts, u);
    }
    assert TargetOf(hosts, u) != "" || u.IsPublished() ==> !Owns(v.id, TargetOf(hosts, u));
    hide TargetOf, InitiatorOf, Owns, Sanitize, Lifecycle;
  }

  lemma SyncSettlesLinks(hosts: Hosts, v: Volume, w: World, budget: nat)
    requires Lifecycle(hosts, v) && Sync(hosts, v, w, budget).reply == Done
    ensures LinksSettled(hosts, v, Sync(hosts, v, w, budget).run.world)
  {
    hide Sync, Lifecycle, StoreClaimed, LinkClaimed, MountsClaimed, NoStrays;
    SyncClaims(hosts, v, w, budget);
    SyncClearsStrays(hosts, v, w, budget);
  }

  // -- The sweep ------------------------------------------------------------------------

  predicate Succeeds(s: Sweep) {
    s.failed == [] && !s.crashed
  }

  /** The height a sweep leaves of a mount point, row by row. */
  function Heights(volumes: seq<Volume>, n: nat, host: string, path: string): nat
    decreases |volumes|
  {
    if volumes == [] then n else Heights(volumes[1..], HeightAfter(volumes[0], n, host, path), host, path)
  }

  /** Rows of the lifecycle whose names and datasets do not meet, in some order. */
  ghost predicate Listing(hosts: Hosts, volumes: seq<Volume>) {
    && (forall i :: 0 <= i < |volumes| ==> Lifecycle(hosts, volumes[i]))
    && (forall i, j :: 0 <= i < j < |volumes| ==> Apart(volumes[i], volumes[j]))
  }

  lemma ListingRest(hosts: Hosts, volumes: seq<Volume>)
    requires Listing(hosts, volumes) && volumes != []
    ensures Lifecycle(hosts, volumes[0]) && Listing(hosts, volumes[1..])
    ensures forall i :: 0 <= i < |volumes[1..]| ==>
              Apart(volumes[0], volumes[1..][i]) && Apart(volumes[1..][i], volumes[0])
  {
    hide Lifecycle, Sanitize;
  }

  lemma SweepFirst(hosts: Hosts, volumes: seq<Volume>, w: World, budgets: seq<nat>)
    requires |budgets| == |volumes| && volumes != []
    ensures var p, s := Sync(hosts, volumes[0], w, budgets[0]), SyncEach(hosts, volumes, w, budgets);
      Succeeds(s) ==>
        && p.reply == Done && Succeeds(SyncEach(hosts, volumes[1..], p.run.world, budgets[1..]))
        && s.world == SyncEach(hosts, volumes[1..], p.run.world, budgets[1..]).world
  {
    hide Sync;
  }

  lemma {:induction false} SweepHeights(hosts: Hosts, volumes: seq<Volume>, w: World, budgets: seq<nat>, host: string,
                                        path: string)
    requires |budgets| == |volumes| && Listing(hosts, volumes) && Succeeds(SyncEach(hosts, volumes, w, budgets))
    ensures Height(SyncEach(hosts, volumes, w, budgets).world, host, path)
         == Heights(volumes, Height(w, host, path), host, path)
    decreases |volumes|
  {
    if volumes != [] {
      hide Sync, Listing, Lifecycle, HeightAfter, Succeeds, SyncEach, Height;
      var p := Sync(hosts, volumes[0], w, budgets[0]);
      ListingRest(hosts, volumes);
      SweepFirst(hosts, volumes, w, budgets);
      SyncHeights(hosts, volumes[0], w, budgets[0], host, path);
      SweepHeights(hosts, volumes[1..], p.run.world, budgets[1..], host, path);
    }
  }

  /** What a sweep over a row more does: the sweep so far, then that row's own Sync, unless it crashed before. */
  function Onward(s: Sweep, id: string, p: Progress): Sweep {
    if s.crashed then s
    else Sweep(p.run.world, s.log + p.run.log, s.failed + (if p.reply == Failed then [id] else []), p.reply == Crashed)
  }

  /** A failing row is reported and does not stop the sweep; a crash does. */
  lemma {:induction false} OneMoreRow(hosts: Hosts, volumes: seq<Volume>, v: Volume, w: World, budgets: seq<nat>,
                                      n: nat)
    requires |budgets| == |volumes|
    ensures var s := SyncEach(hosts, volumes, w, budgets);
      SyncEach(hosts, volumes + [v], w, budgets + [n]) == Onward(s, v.id, Sync(hosts, v, s.world, n))
    decreases |volumes|
  {
    hide Sync;
    if volumes == [] {
      var p := Sync(hosts, v, w, n);
      assert volumes + [v] == [v] && budgets + [n] == [n] && [v][1..] == [] && [n][1..] == [];
      assert [] + p.run.log == p.run.log && p.run.log + [] == p.run.log;
    } else {
      var p := Sync(hosts, volumes[0], w, budgets[0]);
      assert (volumes + [v])[1..] == volumes[1..] + [v] && (budgets + [n])[1..] == budgets[1..] + [n];
      OneMoreRow(hosts, volumes[1..], v, p.run.world, budgets[1..], n);
      JoinedOnward(p.run.log, if p.reply == Done then [] else [volumes[0].id],
                   SyncEach(hosts, volumes[1..], p.run.world, budgets[1..]), v.id,
                   Sync(hosts, v, SyncEach(hosts, volumes[1..], p.run.world, budgets[1..]).world, n));
    }
  }

  lemma JoinedOnward(log: seq<Command>, failed: seq<string>, s: Sweep, id: string, p: Progress)
    ensures Joined(log, failed, Onward(s, id, p)) == Onward(Joined(log, failed, s), id, p)
  {
    assert log + (s.log + p.run.log) == (log + s.log) + p.run.log;
    assert failed + (s.failed + [id]) == (failed + s.failed) + [id];
    assert s.failed + [] == s.failed && (failed + s.failed) + [] == failed + s.failed;
  }

  /** The sweep over the first rows. */
  function SweepTo(hosts: Hosts, volumes: seq<Volume>, w: World, budgets: seq<nat>, i: nat): Sweep
    requires |budgets| == |volumes| && i <= |volumes|
  {
    SyncEach(hosts, volumes[..i], w, budgets[..i])
  }

  /** A row's own Sync, in the world the sweep has made by then. */
  function OwnSync(hosts: Hosts, volumes: seq<Volume>, w: World, budgets: seq<nat>, i: nat): Progress
    requires |budgets| == |volumes| && i < |volumes|
  {
    Sync(hosts, volumes[i], SweepTo(hosts, volumes, w, budgets, i).world, budgets[i])
  }

  lemma SweepStep(hosts: Hosts, volumes: seq<Volume>, w: World, budgets: seq<nat>, i: nat)
    requires |budgets| == |volumes| && i < |volumes|
    ensures SweepTo(hosts, volumes, w, budgets, i + 1)
         == Onward(SweepTo(hosts, volumes, w, budgets, i), volumes[i].id, OwnSync(hosts, volumes, w, budgets, i))
  {
    hide Sync, Onward;
    assert volumes[..i + 1] == volumes[..i] + [volumes[i]] && budgets[..i + 1] == budgets[..i] + [budgets[i]];
    OneMoreRow(hosts, volumes[..i], volumes[i], w, budgets[..i], budgets[i]);
  }

  lemma SweepWhole(hosts: Hosts, volumes: seq<Volume>, w: World, budgets: seq<nat>)
    requires |budgets| == |volumes|
    ensures SweepTo(hosts, volumes, w, budgets, |volumes|) == SyncEach(hosts, volumes, w, budgets)
  {
    assert volumes[..|volumes|] == volumes && budgets[..|budgets|] == budgets;
  }

  predicate Distinct(volumes: seq<Volume>) {
    forall i, j :: 0 <= i < j < |volumes| ==> volumes[i].id != volumes[j].id
  }

  /** None of the first rows crashed, and those that failed are the ones reported. */
  ghost predicate Reports(replies: seq<SyncReply>, volumes: seq<Volume>, failed: seq<string>)
    requires |replies| <= |volumes|
  {
    && Crashed !in replies
    && (forall i :: 0 <= i < |replies| ==> (volumes[i].id in failed <==> replies[i] == Failed))
    && (forall id :: id in failed ==> exists i :: 0 <= i < |replies| && volumes[i].id == id)
  }

  lemma ReportsOneMore(replies: seq<SyncReply>, volumes: seq<Volume>, failed: seq<string>, reply: SyncReply)
    requires |replies| < |volumes| && Distinct(volumes) && Reports(replies, volumes, failed) && reply != Crashed
    ensures Reports(replies + [reply], volumes, failed + (if reply == Failed then [volumes[|replies|].id] else []))
  {
    var n := |replies|;
    var more := failed + (if reply == Failed then [volumes[n].id] else []);
    forall id | id in more ensures exists i :: 0 <= i < n + 1 && volumes[i].id == id {
      if id in failed {
        var i :| 0 <= i < n && volumes[i].id == id;
        assert 0 <= i < n + 1;
      } else {
        assert volumes[n].id == id;
      }
    }
  }

  /** What the first rows' own Syncs answer. */
  function Replies(hosts: Hosts, volumes: seq<Volume>, w: World, budgets: seq<nat>, n: nat): seq<SyncReply>
    requires |budgets| == |volumes| && n <= |volumes|
  {
    seq(n, i requires 0 <= i < n => OwnSync(hosts, volumes, w, budgets, i).reply)
  }

  lemma RepliesGrow(hosts: Hosts, volumes: seq<Volume>, w: World, budgets: seq<nat>, n: nat)
    requires |budgets| == |volumes| && n < |volumes|
    ensures Replies(hosts, volumes, w, budgets, n + 1)
         == Replies(hosts, volumes, w, budgets, n) + [OwnSync(hosts, volumes, w, budgets, n).reply]
    ensures |Replies(hosts, volumes, w, budgets, n)| == n
  {
    hide OwnSync;
  }

  lemma {:induction false} ReportsTo(hosts: Hosts, volumes: seq<Volume>, w: World, budgets: seq<nat>, n: nat)
    requires |budgets| == |volumes| && n <= |volumes| && Distinct(volumes)
    ensures |Replies(hosts, volumes, w, budgets, n)| == n
    ensures !SweepTo(hosts, volumes, w, budgets, n).crashed ==>
              Reports(Replies(hosts, volumes, w, budgets, n), volumes, SweepTo(hosts, volumes, w, budgets, n).failed)
    decreases n
  {
    if n > 0 {
      hide SweepTo, Reports, OwnSync, Distinct, Replies;
      var before := SweepTo(hosts, volumes, w, budgets, n - 1);
      var reply := OwnSync(hosts, volumes, w, budgets, n - 1).reply;
      RepliesGrow(hosts, volumes, w, budgets, n - 1);
      ReportsTo(hosts, volumes, w, budgets, n - 1);
      SweepStep(hosts, volumes, w, budgets, n - 1);
      if !before.crashed && reply != Crashed {
        ReportsOneMore(Replies(hosts, volumes, w, budgets, n - 1), volumes, before.failed, reply);
      }
    }
  }

  /** What a report says of one row. */
  lemma ReportAt(hosts: Hosts, volumes: seq<Volume>, w: World, budgets: seq<nat>, failed: seq<string>, i: nat)
    requires |budgets| == |volumes| && i < |volumes|
    requires Reports(Replies(hosts, volumes, w, budgets, |volumes|), volumes, failed)
    ensures OwnSync(hosts, volumes, w, budgets, i).reply != Crashed
    ensures volumes[i].id in failed <==> OwnSync(hosts, volumes, w, budgets, i).reply == Failed
  {
    hide OwnSync;
    var replies := Replies(hosts, volumes, w, budgets, |volumes|);
    assert replies[i] == OwnSync(hosts, volumes, w, budgets, i).reply && replies[i] in replies;
  }

  /** A sweep that does not crash syncs every row, and reports exactly the rows whose own Sync fails. */
  lemma SweepReports(hosts: Hosts, volumes: seq<Volume>, w: World, budgets: seq<nat>)
    requires |budgets| == |volumes| && Distinct(volumes) && !SyncEach(hosts, volumes, w, budgets).crashed
    ensures forall id :: id in SyncEach(hosts, volumes, w, budgets).failed <==>
              exists i :: 0 <= i < |volumes| && volumes[i].id == id
                          && OwnSync(hosts, volumes, w, budgets, i).reply == Failed
  {
    hide OwnSync, SweepTo, Replies, SyncEach;
    ReportsTo(hosts, volumes, w, budgets, |volumes|);
    SweepWhole(hosts, volumes, w, budgets);
    var failed := SyncEach(hosts, volumes, w, budgets).failed;
    forall i | 0 <= i < |volumes|
      ensures volumes[i].id in failed <==> OwnSync(hosts, volumes, w, budgets, i).reply == Failed
    {
      ReportAt(hosts, volumes, w, budgets, failed, i);
    }
  }

  lemma ListedApart(hosts: Hosts, volumes: seq<Volume>)
    requires Listing(hosts, volumes)
    ensures Distinct(volumes)
    ensures forall i, j :: 0 <= i < |volumes| && 0 <= j < |volumes| && i != j ==> Apart(volumes[i], volumes[j])
  {
    hide Lifecycle, Sanitize;
  }

  lemma OwnSyncMet(hosts: Hosts, volumes: seq<Volume>, w: World, budgets: seq<nat>, i: nat)
    requires |budgets| == |volumes| && i < |volumes|
    ensures OwnSync(hosts, volumes, w, budgets, i)
         == Sync(hosts, volumes[i], SweepTo(hosts, volumes, w, budgets, i).world, budgets[i])
  {
  }

  lemma ListedRow(hosts: Hosts, volumes: seq<Volume>, i: nat)
    requires Listing(hosts, volumes) && i < |volumes|
    ensures Lifecycle(hosts, volumes[i])
  {
  }

  /** The Sync of a later row leaves an earlier one's links settled. */
  lemma SettlesOn(hosts: Hosts, volumes: seq<Volume>, w: World, budgets: seq<nat>, i: nat, n: nat)
    requires |budgets| == |volumes| && Listing(hosts, volumes) && i < n < |volumes|
    requires LinksSettled(hosts, volumes[i], SweepTo(hosts, volumes, w, budgets, n).world)
    ensures LinksSettled(hosts, volumes[i], SweepTo(hosts, volumes, w, budgets, n + 1).world)
  {
    hide Sync, Listing, Lifecycle, SweepTo, LinksSettled, Leaves, Apart, Distinct, OwnSync;
    var met := SweepTo(hosts, volumes, w, budgets, n).world;
    ListedApart(hosts, volumes);
    ListedRow(hosts, volumes, i);
    ListedRow(hosts, volumes, n);
    SweepStep(hosts, volumes, w, budgets, n);
    OwnSyncMet(hosts, volumes, w, budgets, n);
    SyncLeaves(hosts, volumes[n], met, budgets[n]);
    SettledLeft(hosts, volumes[n], volumes[i], met, Sync(hosts, volumes[n], met, budgets[n]).run.world);
  }

  lemma {:induction false} SettlesTo(hosts: Hosts, volumes: seq<Volume>, w: World, budgets: seq<nat>, i: nat, n: nat)
    requires |budgets| == |volumes| && Listing(hosts, volumes) && i < n <= |volumes|
    requires !SweepTo(hosts, volumes, w, budgets, i).crashed && OwnSync(hosts, volumes, w, budgets, i).reply == Done
    ensures LinksSettled(hosts, volumes[i], SweepTo(hosts, volumes, w, budgets, n).world)
    decreases n
  {
    hide Sync, Listing, Lifecycle, SweepTo, LinksSettled, OwnSync;
    if i == n - 1 {
      ListedRow(hosts, volumes, i);
      SweepStep(hosts, volumes, w, budgets, i);
      OwnSyncMet(hosts, volumes, w, budgets, i);
      SyncSettlesLinks(hosts, volumes[i], SweepTo(hosts, volumes, w, budgets, i).world, budgets[i]);
    } else {
      SettlesTo(hosts, volumes, w, budgets, i, n - 1);
      SettlesOn(hosts, volumes, w, budgets, i, n - 1);
    }
  }

  /** After a sweep that does not crash, every row is reported as failed, or its links are settled. */
  lemma SweepSettlesLinks(hosts: Hosts, volumes: seq<Volume>, w: World, budgets: seq<nat>, i: nat)
    requires |budgets| == |volumes| && Listing(hosts, volumes) && i < |volumes|
    requires !SyncEach(hosts, volumes, w, budgets).crashed
    ensures var s := SyncEach(hosts, volumes, w, budgets);
      volumes[i].id in s.failed || LinksSettled(hosts, volumes[i], s.world)
  {
    hide Listing, SyncEach, OwnSync, SweepTo, LinksSettled, Distinct, Reports, Replies;
    ListedApart(hosts, volumes);
    SweepWhole(hosts, volumes, w, budgets);
    ReportsTo(hosts, volumes, w, budgets, |volumes|);
    NotCrashedTo(hosts, volumes, w, budgets, i, |volumes|);
    ReportAt(hosts, volumes, w, budgets, SyncEach(hosts, volumes, w, budgets).failed, i);
    if volumes[i].id !in SyncEach(hosts, volumes, w, budgets).failed {
      SettlesTo(hosts, volumes, w, budgets, i, |volumes|);
    }
  }

  lemma {:induction false} NotCrashedTo(hosts: Hosts, volumes: seq<Volume>, w: World, budgets: seq<nat>, i: nat, n: nat)
    requires |budgets| == |volumes| && i <= n <= |volumes| && !SweepTo(hosts, volumes, w, budgets, n).crashed
    ensures !SweepTo(hosts, volumes, w, budgets, i).crashed
    decreases n
  {
    if i < n {
      hide SweepTo, OwnSync;
      SweepStep(hosts, volumes, w, budgets, n - 1);
      NotCrashedTo(hosts, volumes, w, budgets, i, n - 1);
    }
  }

  /**
   * After a successful sweep in any order, from any world, everything a row claims is in
   * place exactly when no mount point it counts on was unmounted down to nothing.
   */
  lemma SweepIsExact(hosts: Hosts, volumes: seq<Volume>, w: World, budgets: seq<nat>, i: nat)
    requires |budgets| == |volumes| && Listing(hosts, volumes) && Succeeds(SyncEach(hosts, volumes, w, budgets))
    requires i < |volumes|
    ensures var v, w1 := volumes[i], SyncEach(hosts, volumes, w, budgets).world;
      Claimed(hosts, v, w1) <==>
      forall p :: Uses(v, v.clientHost, p) ==> Heights(volumes, Height(w, v.clientHost, p), v.clientHost, p) > 0
  {
    var v, w1 := volumes[i], SyncEach(hosts, volumes, w, budgets).world;
    hide Listing, SyncEach, LinkClaimed, StoreClaimed, NoStrays, MountsAt, Heights, Uses;
    SweepSettlesLinks(hosts, volumes, w, budgets, i);
    forall p ensures IsMountPoint(w1, v.clientHost, p)
                <==> Heights(volumes, Height(w, v.clientHost, p), v.clientHost, p) > 0
    {
      SweepHeights(hosts, volumes, w, budgets, v.clientHost, p);
    }
  }

  // -- Which tables always sweep well ---------------------------------------------------

  /** No unstaged row stores a staging path that another row counts on. */
  predicate NoStaleUse(volumes: seq<Volume>) {
    forall i, j :: 0 <= i < |volumes| && 0 <= j < |volumes| && UmountsStale(volumes[i]) ==>
      !Uses(volumes[j], volumes[i].clientHost, volumes[i].stagingPath)
  }

  lemma {:induction false} HeightsStay(volumes: seq<Volume>, n: nat, host: string, path: string)
    requires forall i :: 0 <= i < |volumes| && UmountsStale(volumes[i]) ==>
               host != volumes[i].clientHost || path != volumes[i].stagingPath
    ensures Heights(volumes, n, host, path)
         == if n == 0 && exists i :: 0 <= i < |volumes| && Uses(volumes[i], host, path) then 1 else n
    decreases |volumes|
  {
    hide Uses, UmountsStale;
    if volumes != [] {
      HeightsStay(volumes[1..], HeightAfter(volumes[0], n, host, path), host, path);
      assert forall i :: 0 < i < |volumes| ==> volumes[i] == volumes[1..][i - 1];
      assert forall i :: 0 <= i < |volumes[1..]| ==> volumes[1..][i] == volumes[i + 1];
    }
  }

  /** Then a successful sweep leaves every row's claims in place, whatever the order and the world. */
  lemma SweepClaimsAll(hosts: Hosts, volumes: seq<Volume>, w: World, budgets: seq<nat>, i: nat)
    requires |budgets| == |volumes| && Listing(hosts, volumes) && Succeeds(SyncEach(hosts, volumes, w, budgets))
    requires i < |volumes| && NoStaleUse(volumes)
    ensures Claimed(hosts, volumes[i], SyncEach(hosts, volumes, w, budgets).world)
  {
    var v := volumes[i];
    hide Listing, Succeeds, SyncEach, Claimed, Height, Heights, Uses, UmountsStale;
    SweepIsExact(hosts, volumes, w, budgets, i);
    forall p | Uses(v, v.clientHost, p)
      ensures Heights(volumes, Height(w, v.clientHost, p), v.clientHost, p) > 0
    {
      HeightsStay(volumes, Height(w, v.clientHost, p), v.clientHost, p);
    }
  }

  /** One row counts on the path another has left behind: swept after it, its claims hold. */
  lemma StaleFirst(hosts: Hosts, stale: Volume, user: Volume, w: World, budgets: seq<nat>)
    requires |budgets| == 2 && Listing(hosts, [stale, user]) && Succeeds(SyncEach(hosts, [stale, user], w, budgets))
    requires UmountsStale(stale) && Uses(user, stale.clientHost, stale.stagingPath)
    ensures Claimed(hosts, user, SyncEach(hosts, [stale, user], w, budgets).world)
  {
    var volumes := [stale, user];
    ListedUser(hosts, volumes, 1, stale.clientHost, stale.stagingPath);
    hide *;
    SweepIsExact(hosts, volumes, w, budgets, 1);
    forall p | Uses(user, user.clientHost, p)
      ensures Heights(volumes, Height(w, user.clientHost, p), user.clientHost, p) > 0
    {
      HeightsOfTwo(stale, user, Height(w, user.clientHost, p), user.clientHost, p);
    }
  }

  /** Swept before it, they hold exactly when two mounts were on that path at first. */
  lemma StaleLast(hosts: Hosts, stale: Volume, user: Volume, w: World, budgets: seq<nat>)
    requires |budgets| == 2 && Listing(hosts, [user, stale]) && Succeeds(SyncEach(hosts, [user, stale], w, budgets))
    requires UmountsStale(stale) && Uses(user, stale.clientHost, stale.stagingPath)
    ensures Claimed(hosts, user, SyncEach(hosts, [user, stale], w, budgets).world)
       <==> Height(w, stale.clientHost, stale.stagingPath) >= 2
  {
    var volumes := [user, stale];
    ListedUser(hosts, volumes, 0, stale.clientHost, stale.stagingPath);
    hide *;
    SweepIsExact(hosts, volumes, w, budgets, 0);
    forall p | Uses(user, user.clientHost, p)
      ensures Heights(volumes, Height(w, user.clientHost, p), user.clientHost, p) > 0
         <==> (p == stale.stagingPath ==> Height(w, user.clientHost, p) >= 2)
    {
      HeightsOfTwo(stale, user, Height(w, user.clientHost, p), user.clientHost, p);
    }
  }

  lemma ListedUser(hosts: Hosts, volumes: seq<Volume>, i: nat, host: string, path: string)
    requires Listing(hosts, volumes) && i < |volumes| && Uses(volumes[i], host, path)
    ensures volumes[i].IsStaged() && volumes[i].clientHost == host
  {
    assert Lifecycle(hosts, volumes[i]);
    LifecycleFields(hosts, volumes[i]);
    hide Lifecycle;
  }

  lemma HeightsOfTwo(stale: Volume, user: Volume, n: nat, host: string, path: string)
    requires UmountsStale(stale) && user.IsStaged() && Uses(user, host, path) && stale.clientHost == host
    ensures Heights([stale, user], n, host, path) > 0
    ensures Heights([user, stale], n, host, path) > 0 <==> (path == stale.stagingPath ==> n >= 2)
  {
    assert [stale, user][1..] == [user] && [user, stale][1..] == [stale] && [user][1..] == [] && [stale][1..] == [];
    var a, b := HeightAfter(stale, n, host, path), HeightAfter(user, n, host, path);
    assert Heights([user], a, host, path) == Heights([], HeightAfter(user, a, host, path), host, path);
    assert Heights([stale], b, host, path) == Heights([], HeightAfter(stale, b, host, path), host, path);
  }
}
