/**
 * The targets, ACLs and sessions of a volume, under every pattern of command failures.
 * They agree with the row whatever happens to mounts.
 */
module Links {
  import opened Names
  import opened Volumes
  import opened Clusters
  import opened Plans
  import opened Lifecycles

  /**
   * A target of the volume is exported exactly while the row is published, from the
   * row's server and over its zvol; and its ACL admits the row's client while connected.
   */
  ghost predicate TargetsAgree(hosts: Hosts, v: Volume, targets: map<At, Target>, zvols: map<At, int>) {
    var key := At(v.serverHost, TargetOf(hosts, v));
    && (forall k :: k in targets && Owns(v.id, k.name) ==> v.IsPublished() && k == key)
    && (v.IsPublished() ==>
          key in targets && targets[key].dataset == v.datasetID && At(v.serverHost, v.datasetID) in zvols)
    && (v.IsConnected() ==> InitiatorOf(hosts, v) in targets[key].acl)
  }

  /** A session to the volume exists only while connected, and only from the row's client. */
  ghost predicate SessionsAgree(hosts: Hosts, v: Volume, sessions: map<At, Session>) {
    forall k :: k in sessions && Owns(v.id, k.name) ==>
      && v.IsConnected()
      && k == At(v.clientHost, TargetOf(hosts, v))
      && sessions[k] == Session(v.serverHost, InitiatorOf(hosts, v))
  }

  ghost predicate LinksAgree(hosts: Hosts, v: Volume, w: World) {
    TargetsAgree(hosts, v, w.targets, w.zvols) && SessionsAgree(hosts, v, w.sessions)
  }

  /** The target of a published row belongs to its volume. */
  lemma TargetIsOwned(hosts: Hosts, v: Volume)
    requires Lifecycle(hosts, v) && v.IsPublished()
    ensures Owns(v.id, TargetOf(hosts, v))
  {
    var identifier := ClientID(hosts[v.serverHost], v.transport.kind).value;
    TargetNameOwned(identifier, v.id);
  }

  /**
   * Whatever fails, the script leaves a world in order for the new row if it succeeded
   * and for the old row if it did not.
   */
  ghost predicate Transacts(p: (Volume, World) -> bool, v: Volume, u: Volume, script: seq<Command>, w: World) {
    forall budget: nat ::
      var r := Execute(script, w, budget); p(if r.ok then u else v, r.world)
  }

  lemma TransactsLast(p: (Volume, World) -> bool, v: Volume, u: Volume, c: Command, w: World)
    requires p(v, w) && p(u, Apply(c, w))
    ensures Transacts(p, v, u, [c], w)
  {
    hide Apply;
    forall budget: nat
      ensures var r := Execute([c], w, budget); p(if r.ok then u else v, r.world)
    {
      ExecuteOne(c, w, budget);
    }
  }

  lemma TransactsFirst(p: (Volume, World) -> bool, v: Volume, u: Volume, c: Command, rest: seq<Command>, w: World)
    requires p(v, w) && (Answers(c, w) ==> Transacts(p, v, u, rest, Apply(c, w)))
    ensures Transacts(p, v, u, [c] + rest, w)
  {
    hide Apply;
    forall budget: nat
      ensures var r := Execute([c] + rest, w, budget); p(if r.ok then u else v, r.world)
    {
      assert ([c] + rest)[1..] == rest;
      if budget > 0 && Answers(c, w) {
        var r := Execute(rest, Apply(c, w), budget - 1);
        assert p(if r.ok then u else v, r.world);
      }
    }
  }

  ghost function LinksOf(hosts: Hosts): (Volume, World) -> bool {
    (v, w) => LinksAgree(hosts, v, w)
  }

  /** Exporting the target takes the links from an unpublished row to the published one. */
  lemma ExportLinks(hosts: Hosts, v: Volume, u: Volume, w: World)
    requires LinksAgree(hosts, v, w) && !v.IsPublished()
    requires Lifecycle(hosts, u) && u.status == PUBLISHED && u.id == v.id
    requires At(u.serverHost, u.datasetID) in w.zvols
    ensures LinksAgree(hosts, u, Apply(Export(u.serverHost, TargetOf(hosts, u), u.datasetID), w))
  {
    hide TargetOf, InitiatorOf, Owns;
  }

  lemma PublishLinks(hosts: Hosts, v: Volume, w: World, kind: TransportKind, server: string)
    requires Lifecycle(hosts, v) && LinksAgree(hosts, v, w)
    requires PublishPlan(hosts, v, w, kind, server).Act?
    ensures var plan := PublishPlan(hosts, v, w, kind, server);
      Transacts(LinksOf(hosts), v, Persist(v, plan.given), plan.script, w)
  {
    var plan := PublishPlan(hosts, v, w, kind, server);
    var u, key := Persist(v, plan.given), At(server, v.datasetID);
    HandleKeepsLifecycle(Publish(kind, server), hosts, v, w, |plan.script|);
    var target := TargetOf(hosts, u);
    var query, create, expose :=
      QueryZvol(server, v.datasetID), CreateZvol(server, v.datasetID, v.capacityBytes),
      Export(server, target, v.datasetID);
    if key in w.zvols {
      assert plan.script == [query] + [expose];
      ExportLinks(hosts, v, u, w);
      TransactsLast(LinksOf(hosts), v, u, expose, w);
      TransactsFirst(LinksOf(hosts), v, u, query, [expose], w);
    } else {
      assert plan.script == [query] + ([create] + [expose]);
      var w1 := Apply(create, w);
      ExportLinks(hosts, v, u, w1);
      TransactsLast(LinksOf(hosts), v, u, expose, w1);
      TransactsFirst(LinksOf(hosts), v, u, create, [expose], w);
      TransactsFirst(LinksOf(hosts), v, u, query, [create] + [expose], w);
    }
  }

  lemma UnexportLinks(hosts: Hosts, v: Volume, u: Volume, w: World)
    requires LinksAgree(hosts, v, w) && v.status == PUBLISHED && u.id == v.id && u.status == INITIAL
    ensures LinksAgree(hosts, u, Apply(Unexport(v.serverHost, TargetOf(hosts, v)), w))
  {
    hide TargetOf, InitiatorOf, Owns;
  }

  lemma UnpublishLinks(hosts: Hosts, v: Volume, w: World)
    requires Lifecycle(hosts, v) && LinksAgree(hosts, v, w)
    requires UnpublishPlan(hosts, v).Act?
    ensures var plan := UnpublishPlan(hosts, v);
      Transacts(LinksOf(hosts), v, Persist(v, plan.given), plan.script, w)
  {
    var plan := UnpublishPlan(hosts, v);
    var u := Persist(v, plan.given);
    UnexportLinks(hosts, v, u, w);
    TransactsLast(LinksOf(hosts), v, u, Unexport(v.serverHost, TargetOf(hosts, v)), w);
  }

  lemma AllowKeepsLinks(hosts: Hosts, v: Volume, w: World, initiator: string)
    requires LinksAgree(hosts, v, w) && v.IsPublished()
    ensures var w1 := Apply(Allow(v.serverHost, TargetOf(hosts, v), initiator), w);
      LinksAgree(hosts, v, w1) && initiator in w1.targets[At(v.serverHost, TargetOf(hosts, v))].acl
  {
    hide TargetOf, InitiatorOf, Owns;
  }

  lemma LoginLinks(hosts: Hosts, v: Volume, u: Volume, w: World)
    requires LinksAgree(hosts, v, w) && v.status == PUBLISHED
    requires u == v.(status := CONNECTED, clientHost := u.clientHost, transport := u.transport)
    requires u.transport.kind == v.transport.kind
    requires InitiatorOf(hosts, u) in w.targets[At(v.serverHost, TargetOf(hosts, v))].acl
    ensures LinksAgree(hosts, u, Apply(Login(u.clientHost, v.serverHost, TargetOf(hosts, v), InitiatorOf(hosts, u)), w))
  {
    assert TargetOf(hosts, u) == TargetOf(hosts, v);
    hide TargetOf, InitiatorOf, Owns;
  }

  lemma ConnectLinks(hosts: Hosts, v: Volume, w: World, client: string)
    requires Lifecycle(hosts, v) && LinksAgree(hosts, v, w)
    requires ConnectPlan(hosts, v, client).Act?
    ensures var plan := ConnectPlan(hosts, v, client);
      Transacts(LinksOf(hosts), v, Persist(v, plan.given), plan.script, w)
  {
    var plan := ConnectPlan(hosts, v, client);
    var u := Persist(v, plan.given);
    assert u == v.(status := CONNECTED, clientHost := u.clientHost, transport := u.transport);
    var target, initiator := TargetOf(hosts, v), InitiatorOf(hosts, u);
    var allow, login :=
      Allow(v.serverHost, target, initiator), Login(u.clientHost, v.serverHost, target, initiator);
    assert plan.script == [allow] + [login];
    AllowKeepsLinks(hosts, v, w, initiator);
    LoginLinks(hosts, v, u, Apply(allow, w));
    TransactsLast(LinksOf(hosts), v, u, login, Apply(allow, w));
    TransactsFirst(LinksOf(hosts), v, u, allow, [login], w);
  }

  lemma LogoutKeepsLinks(hosts: Hosts, v: Volume, w: World)
    requires LinksAgree(hosts, v, w) && v.IsConnected()
    ensures var w1 := Apply(Logout(v.clientHost, TargetOf(hosts, v)), w);
      LinksAgree(hosts, v, w1) && forall k :: k in w1.sessions ==> !Owns(v.id, k.name)
  {
    hide TargetOf, InitiatorOf, Owns;
  }

  lemma DenyLinks(hosts: Hosts, v: Volume, u: Volume, w: World)
    requires LinksAgree(hosts, v, w) && v.IsConnected()
    requires forall k :: k in w.sessions ==> !Owns(v.id, k.name)
    requires u == v.(status := PUBLISHED, transport := u.transport) && u.transport.kind == v.transport.kind
    ensures LinksAgree(hosts, u, Apply(Deny(v.serverHost, TargetOf(hosts, v), InitiatorOf(hosts, v)), w))
  {
    assert TargetOf(hosts, u) == TargetOf(hosts, v);
    hide TargetOf, InitiatorOf, Owns;
  }

  lemma DisconnectLinks(hosts: Hosts, v: Volume, w: World)
    requires Lifecycle(hosts, v) && LinksAgree(hosts, v, w)
    requires DisconnectPlan(hosts, v).Act?
    ensures var plan := DisconnectPlan(hosts, v);
      Transacts(LinksOf(hosts), v, Persist(v, plan.given), plan.script, w)
  {
    var plan := DisconnectPlan(hosts, v);
    var u := Persist(v, plan.given);
    assert u == v.(status := PUBLISHED, transport := u.transport);
    var target, initiator := TargetOf(hosts, v), InitiatorOf(hosts, v);
    var logout, deny := Logout(v.clientHost, target), Deny(v.serverHost, target, initiator);
    assert plan.script == [logout] + [deny];
    LogoutKeepsLinks(hosts, v, w);
    DenyLinks(hosts, v, u, Apply(logout, w));
    TransactsLast(LinksOf(hosts), v, u, deny, Apply(logout, w));
    TransactsFirst(LinksOf(hosts), v, u, logout, [deny], w);
  }

  /** The rows agree on everything the targets and sessions of the volume depend on. */
  predicate SameTarget(v: Volume, u: Volume) {
    && u.id == v.id && u.serverHost == v.serverHost && u.clientHost == v.clientHost
    && u.datasetID == v.datasetID && u.transport == v.transport && u.mode == v.mode
    && (u.IsPublished() <==> v.IsPublished()) && (u.IsConnected() <==> v.IsConnected())
  }

  /** Commands that only touch devices and mounts, and commands that never do. */
  predicate OnClient(c: Command) {
    || c.Format? || c.MountDevice? || c.MountBind? || c.Umount? || c.MakePath? || c.Chmod?
    || c.FindDevice? || c.QueryFilesystem? || c.Rescan? || c.ResizeFilesystem?
  }

  predicate OnLinks(c: Command) {
    || c.QueryZvol? || c.CreateZvol? || c.Export? || c.Unexport? || c.Allow? || c.Deny? || c.Login? || c.Logout?
  }

  lemma CommandSides(c: Command, w: World)
    ensures var w1 := Apply(c, w);
      && (OnClient(c) ==> w1.targets == w.targets && w1.sessions == w.sessions && w1.zvols == w.zvols)
      && (OnLinks(c) ==> w1.mounts == w.mounts && w1.filesystems == w.filesystems)
  {
    hide Backing, Pushed, Popped;
  }

  lemma {:induction false} ScriptSides(script: seq<Command>, w: World, budget: nat)
    ensures var w1 := Execute(script, w, budget).world;
      && ((forall c :: c in script ==> OnClient(c)) ==>
            w1.targets == w.targets && w1.sessions == w.sessions && w1.zvols == w.zvols)
      && ((forall c :: c in script ==> OnLinks(c)) ==> w1.mounts == w.mounts && w1.filesystems == w.filesystems)
    decreases |script|
  {
    hide Apply, Answers, OnClient, OnLinks;
    if script != [] && budget != 0 && Answers(script[0], w) {
      CommandSides(script[0], w);
      ScriptSides(script[1..], Apply(script[0], w), budget - 1);
    }
  }

  predicate LinkCall(op: Op) {
    op.Publish? || op.Unpublish? || op.Connect? || op.Disconnect?
  }

  lemma PlanSides(op: Op, hosts: Hosts, v: Volume, w: World, c: Command)
    requires PlanOf(op, hosts, v, w).Act? && c in PlanOf(op, hosts, v, w).script
    ensures if LinkCall(op) then OnLinks(c) else OnClient(c)
  {
    hide TargetID, ClientID, Lookup;
  }

  /** A call changes links or mounts, never both. */
  lemma CallSides(op: Op, hosts: Hosts, v: Volume, w: World, budget: nat)
    ensures var w1 := Handle(op, hosts, v, w, budget).run.world;
      if LinkCall(op) then w1.mounts == w.mounts && w1.filesystems == w.filesystems
      else w1.targets == w.targets && w1.sessions == w.sessions && w1.zvols == w.zvols
  {
    hide PlanOf, Execute, Persist, OnClient, OnLinks;
    var plan := PlanOf(op, hosts, v, w);
    if plan.Act? {
      forall c | c in plan.script ensures if LinkCall(op) then OnLinks(c) else OnClient(c) {
        PlanSides(op, hosts, v, w, c);
      }
      ScriptSides(plan.script, w, budget);
    }
  }

  lemma SameTargetLinks(hosts: Hosts, v: Volume, u: Volume, w: World, w1: World)
    requires LinksAgree(hosts, v, w) && SameTarget(v, u)
    requires w1.targets == w.targets && w1.sessions == w.sessions && w1.zvols == w.zvols
    ensures LinksAgree(hosts, u, w1)
  {
    assert TargetOf(hosts, u) == TargetOf(hosts, v) && InitiatorOf(hosts, u) == InitiatorOf(hosts, v);
    hide TargetOf, InitiatorOf, Owns;
  }

  lemma MountMovesKeepTarget(op: Op, v: Volume, u: Volume)
    requires Moves(op, v, u) && !LinkCall(op) && INITIAL <= v.status <= MOUNTED
    requires v.IsMounted() <==> v.targetPaths != []
    ensures SameTarget(v, u)
  {
  }

  /** Whatever fails and whatever is called, links agree with the row the call leaves. */
  lemma HandleKeepsLinks(op: Op, hosts: Hosts, v: Volume, w: World, budget: nat)
    requires Lifecycle(hosts, v) && LinksAgree(hosts, v, w) && Validated(op)
    ensures var o := Handle(op, hosts, v, w, budget);
      Lifecycle(hosts, o.volume) && LinksAgree(hosts, o.volume, o.run.world)
  {
    LifecycleStatus(hosts, v);
    hide LinksAgree, Execute, Lifecycle, Persist, Moves, PublishPlan, UnpublishPlan, ConnectPlan, DisconnectPlan,
      StagePlan, UnstagePlan, MountPlan, UnmountPlan, Effective, SameTarget;
    HandleKeepsLifecycle(op, hosts, v, w, budget);
    if LinkCall(op) {
      if PlanOf(op, hosts, v, w).Act? {
        match op
        case Publish(kind, server) => PublishLinks(hosts, v, w, kind, server);
        case Unpublish => UnpublishLinks(hosts, v, w);
        case Connect(client) => ConnectLinks(hosts, v, w, client);
        case Disconnect => DisconnectLinks(hosts, v, w);
        case _ =>
      }
    } else {
      CallSides(op, hosts, v, w, budget);
      CallMoves(op, hosts, v, w, budget);
      var o := Handle(op, hosts, v, w, budget);
      if o.volume != v {
        MountMovesKeepTarget(op, v, o.volume);
      } else {
        SameTargetItself(v);
      }
      SameTargetLinks(hosts, v, o.volume, w, o.run.world);
    }
  }

  lemma SameTargetItself(v: Volume)
    ensures SameTarget(v, v)
  {
  }

  lemma LifecycleStatus(hosts: Hosts, v: Volume)
    requires Lifecycle(hosts, v)
    ensures INITIAL <= v.status <= MOUNTED && (v.IsMounted() <==> v.targetPaths != []) && NoDuplicates(v.targetPaths)
  {
  }
}
