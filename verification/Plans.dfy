/**
 * What each volume handler is to do (app/internal/service/service_volume.go): either
 * answer at once, or write one row and run one script of commands in a transaction.
 */
module Plans {
  import opened Wrappers
  import opened Names
  import opened Volumes
  import opened Clusters

  datatype Code = NotFound | InvalidArgument | Internal | AlreadyExists

  /** `Panic` is a nil dereference; the transaction rolls back as it unwinds. */
  datatype Reply = Ok(volume: Volume) | Error(code: Code) | Panic

  datatype Op =
    | Publish(kind: TransportKind, serverHost: string)
    | Unpublish
    | Connect(clientHost: string)
    | Disconnect
    | Stage(stagingPath: string)
    | Unstage
    | Mount(mountPath: string)
    | Unmount(mountPath: string)

  datatype Plan =
    | Refuse(code: Code)
    | Crash
    | Already
    | Act(given: Volume, script: seq<Command>)

  type Hosts = map<string, Host>

  /** `getExecutorForHost`: hosts are found by name, and no host is found by the empty name. */
  function Lookup(hosts: Hosts, name: string): Option<Host> {
    if name == "" || name !in hosts then None else Some(hosts[name])
  }

  /** Create the zvol unless it exists, and export it. */
  function PublishScript(v: Volume, w: World, target: string): seq<Command> {
    [QueryZvol(v.serverHost, v.datasetID)]
    + (if At(v.serverHost, v.datasetID) in w.zvols then []
       else [CreateZvol(v.serverHost, v.datasetID, v.capacityBytes)])
    + [Export(v.serverHost, target, v.datasetID)]
  }

  function PublishPlan(hosts: Hosts, v: Volume, w: World, requested: TransportKind, server: string): Plan {
    if v.IsPublished() then Already
    else
      var kind := if requested == NvmeofTcp then NvmeofTcp else Iscsi;
      var host := Lookup(hosts, server);
      if host.None? then Refuse(NotFound)
      else
        var target := TargetID(host.value, kind, v.id);
        if target.None? then Refuse(Internal)
        else if host.value.role.Client? then Crash
        else
          var payload := Endpoint(host.value.role.endpoint, target.value, host.value.key, "", "");
          var given :=
            v.(transport := Bare(kind).WithPayload(payload), serverHost := server, status := PUBLISHED);
          Act(given, PublishScript(given, w, target.value))
  }

  function UnpublishPlan(hosts: Hosts, v: Volume): Plan {
    if !v.IsPublished() then Already
    else if v.IsConnected() then Refuse(InvalidArgument)
    else
      var host := Lookup(hosts, v.serverHost);
      if host.None? then Refuse(NotFound)
      else
        var target := TargetID(host.value, v.transport.kind, v.id);
        if target.None? then Refuse(Internal)
        else
          Act(v.(serverHost := "", transport := Bare(Unspecified), status := INITIAL),
              [Unexport(v.serverHost, target.value)])
  }

  function ConnectPlan(hosts: Hosts, v: Volume, clientName: string): Plan {
    if !v.IsPublished() then Refuse(InvalidArgument)
    else if v.IsConnected() then Already
    else
      var server, client := Lookup(hosts, v.serverHost), Lookup(hosts, clientName);
      if server.None? || client.None? then Refuse(NotFound)
      else if v.transport.kind == Unspecified then Refuse(Internal)
      else if v.transport.Payload().None? then Crash
      else
        var payload := v.transport.Payload().value;
        var initiator := ClientID(client.value, v.transport.kind);
        if initiator.None? then Refuse(Internal)
        else
          Act(v.(clientHost := clientName, status := CONNECTED,
                 transport := v.transport.WithPayload(
                   payload.(initiatorID := initiator.value, initiatorPassword := client.value.key))),
              [Allow(v.serverHost, payload.targetID, initiator.value)]
              + [Login(clientName, v.serverHost, payload.targetID, initiator.value)])
  }

  function DisconnectPlan(hosts: Hosts, v: Volume): Plan {
    if !v.IsPublished() then Refuse(InvalidArgument)
    else if !v.IsConnected() then Already
    else if v.IsMounted() then Refuse(InvalidArgument)
    else
      var server, client := Lookup(hosts, v.serverHost), Lookup(hosts, v.clientHost);
      if server.None? || client.None? then Refuse(NotFound)
      else if v.transport.kind == Unspecified then Refuse(Internal)
      else if v.transport.Payload().None? then Crash
      else
        var payload := v.transport.Payload().value;
        var initiator := ClientID(client.value, v.transport.kind);
        if initiator.None? then Refuse(Internal)
        else
          Act(v.(clientHost := "", status := PUBLISHED,
                 transport := v.transport.WithPayload(payload.(initiatorID := "", initiatorPassword := ""))),
              [Logout(v.clientHost, payload.targetID)]
              + [Deny(v.serverHost, payload.targetID, initiator.value)])
  }

  /** A finished publish script has exported the zvol, creating it if it was missing. */
  lemma PublishResult(v: Volume, w: World, target: string, budget: nat)
    ensures var r := Execute(PublishScript(v, w, target), w, budget);
      var key := At(v.serverHost, v.datasetID);
      var w1 := if key in w.zvols then w else w.(zvols := w.zvols[key := v.capacityBytes]);
      (r.ok ==> r.world == w1.(targets := w1.targets[At(v.serverHost, target) := Target(v.datasetID, {})]))
      && (budget >= 3 ==> r.ok)
  {
    hide Execute;
    var query, create, expose :=
      QueryZvol(v.serverHost, v.datasetID),
      CreateZvol(v.serverHost, v.datasetID, v.capacityBytes),
      Export(v.serverHost, target, v.datasetID);
    if At(v.serverHost, v.datasetID) in w.zvols {
      ExecuteTwo(query, expose, w, budget);
      assert PublishScript(v, w, target) == [query] + [expose];
    } else {
      assert PublishScript(v, w, target) == [query] + [create] + [expose];
      ExecuteTwo(query, create, w, budget);
      ExecuteAppend([query] + [create], [expose], w, budget);
      var r := Execute([query] + [create], w, budget);
      ExecuteOne(expose, r.world, r.left);
    }
  }

  /** Format a filesystem volume's device, but only when it holds no filesystem yet. */
  function FormatScript(v: Volume, w: World, target: string): seq<Command> {
    if v.mode != Filesystem then []
    else if HasFilesystem(w, v.clientHost, target) then [QueryFilesystem(v.clientHost, target)]
    else [QueryFilesystem(v.clientHost, target)] + [Format(v.clientHost, target)]
  }

  /** Find the device, prepare it, and mount it on the staging path. */
  function StageScript(v: Volume, w: World, target: string): seq<Command> {
    [FindDevice(v.clientHost, target)]
    + FormatScript(v, w, target)
    + [MakePath(v.clientHost, v.stagingPath)]
    + [MountDevice(v.clientHost, target, v.stagingPath)]
  }

  /** The world once the device is prepared: formatted if a filesystem volume had no filesystem. */
  function Formatted(v: Volume, w: World, target: string): World {
    if v.mode == Filesystem && !HasFilesystem(w, v.clientHost, target)
    then Apply(Format(v.clientHost, target), w) else w
  }

  lemma PrepareResult(v: Volume, w: World, target: string, budget: nat)
    ensures var r := Execute([FindDevice(v.clientHost, target)] + FormatScript(v, w, target), w, budget);
      && (r.ok ==> r.world == Formatted(v, w, target) && r.left + 3 >= budget
                   && Backing(w, v.clientHost, target).Some?)
      && (budget >= 3 && Backing(w, v.clientHost, target).Some? ==> r.ok)
  {
    var find, prepare := FindDevice(v.clientHost, target), FormatScript(v, w, target);
    assert Apply(find, w) == w;
    hide Execute, Apply, FormatScript, Formatted;
    ExecuteAppend([find], prepare, w, budget);
    ExecuteOne(find, w, budget);
    if budget > 0 && Answers(find, w) {
      FormatResult(v, w, target, budget - 1);
    }
  }

  /** A finished staging script has prepared the device and mounted it. */
  lemma StageResult(v: Volume, w: World, target: string, budget: nat)
    ensures var r := Execute(StageScript(v, w, target), w, budget);
      r.ok ==> && r.world == Apply(MountDevice(v.clientHost, target, v.stagingPath), Formatted(v, w, target))
               && Backing(w, v.clientHost, target).Some?
    ensures budget >= 5 && Backing(w, v.clientHost, target).Some? ==> Execute(StageScript(v, w, target), w, budget).ok
  {
    var prepare := [FindDevice(v.clientHost, target)] + FormatScript(v, w, target);
    var make, device := MakePath(v.clientHost, v.stagingPath), MountDevice(v.clientHost, target, v.stagingPath);
    var w1 := Formatted(v, w, target);
    assert Apply(make, w1) == w1;
    assert StageScript(v, w, target) == prepare + ([make] + [device]);
    hide Execute, Apply, FormatScript, Formatted, StageScript;
    ExecuteAppend(prepare, [make] + [device], w, budget);
    PrepareResult(v, w, target, budget);
    var r := Execute(prepare, w, budget);
    if r.ok {
      ExecuteTwo(make, device, w1, r.left);
    }
  }

  lemma FormatResult(v: Volume, w: World, target: string, budget: nat)
    ensures var r := Execute(FormatScript(v, w, target), w, budget);
      && (r.ok ==> r.world == Formatted(v, w, target) && r.left + 2 >= budget)
      && (budget >= 2 ==> r.ok)
  {
    var query, format := QueryFilesystem(v.clientHost, target), Format(v.clientHost, target);
    ExecuteEmpty(w, budget);
    ExecuteOne(query, w, budget);
    ExecuteTwo(query, format, w, budget);
  }

  /** A finished mount script has bound the staging path. */
  lemma MountResult(v: Volume, w: World, path: string, budget: nat)
    ensures var r := Execute(MountScript(v, path), w, budget);
      r.ok ==> r.world == Apply(MountBind(v.clientHost, v.stagingPath, path), w)
    ensures budget >= 3 ==> Execute(MountScript(v, path), w, budget).ok
    ensures Execute(MountScript(v, path), w, budget).left + 3 >= budget
  {
    var make, bind, chmod :=
      MakePath(v.clientHost, path), MountBind(v.clientHost, v.stagingPath, path), Chmod(v.clientHost, path);
    var w1 := Apply(bind, w);
    assert Apply(make, w) == w && Apply(chmod, w1) == w1;
    hide Execute, Apply;
    ExecuteAppend([make] + [bind], if v.mode == Filesystem then [chmod] else [], w, budget);
    ExecuteAppend([make], [bind], w, budget);
    ExecuteOne(make, w, budget);
    if budget > 0 {
      ExecuteOne(bind, w, budget - 1);
      if budget > 1 {
        ExecuteOne(chmod, w1, budget - 2);
        ExecuteEmpty(w1, budget - 2);
      }
    }
  }

  /** A path is made before anything is mounted on it. */
  predicate MadeFirst(script: seq<Command>, host: string, path: string) {
    forall j :: 0 <= j < |script| && (script[j].MountDevice? || script[j].MountBind?) ==>
      exists i :: 0 <= i < j && script[i] == MakePath(host, path)
  }

  /** The commands that leave no trace in the world: paths are made first, and opened to pods in filesystem mode. */
  lemma PathsAreMade(v: Volume, w: World, target: string, path: string)
    ensures MadeFirst(StageScript(v, w, target), v.clientHost, v.stagingPath)
    ensures MadeFirst(MountScript(v, path), v.clientHost, path)
    ensures Chmod(v.clientHost, path) in MountScript(v, path) <==> v.mode == Filesystem
  {
    var prepare := [FindDevice(v.clientHost, target)] + FormatScript(v, w, target);
    var script := StageScript(v, w, target);
    var n := |prepare|;
    assert script[n] == MakePath(v.clientHost, v.stagingPath);
    assert forall j :: 0 <= j < n ==> script[j] == prepare[j] && !script[j].MountDevice? && !script[j].MountBind?;
    var mounts := MountScript(v, path);
    assert mounts[0] == MakePath(v.clientHost, path);
    if v.mode == Filesystem {
      assert mounts[2] == Chmod(v.clientHost, path);
    }
  }

  function StagePlan(hosts: Hosts, v: Volume, w: World, path: string): Plan {
    if !v.IsPublished() || !v.IsConnected() then Refuse(InvalidArgument)
    else if v.IsStaged() then (if v.stagingPath == path then Already else Refuse(InvalidArgument))
    else
      var client := Lookup(hosts, v.clientHost);
      if client.None? then Refuse(NotFound)
      else if v.transport.kind == Unspecified then Refuse(Internal)
      else if v.transport.Payload().None? then Crash
      else
        var given := v.(stagingPath := path, status := STAGED);
        Act(given, StageScript(given, w, v.transport.Payload().value.targetID))
  }

  function UnstagePlan(hosts: Hosts, v: Volume): Plan {
    if !v.IsStaged() then Already
    else if v.IsMounted() then Refuse(InvalidArgument)
    else if Lookup(hosts, v.clientHost).None? then Refuse(Internal)
    else Act(v.(stagingPath := "", status := CONNECTED), [Umount(v.clientHost, v.stagingPath)])
  }

  function MountScript(v: Volume, path: string): seq<Command> {
    [MakePath(v.clientHost, path)]
    + [MountBind(v.clientHost, v.stagingPath, path)]
    + (if v.mode == Filesystem then [Chmod(v.clientHost, path)] else [])
  }

  function MountPlan(hosts: Hosts, v: Volume, path: string): Plan {
    if !v.IsPublished() || !v.IsConnected() || !v.IsStaged() then Refuse(InvalidArgument)
    else if path in v.targetPaths then Already
    else if Lookup(hosts, v.clientHost).None? then Refuse(NotFound)
    else
      var given := v.(targetPaths := v.targetPaths + [path], status := MOUNTED);
      Act(given, MountScript(given, path))
  }

  function UnmountPlan(hosts: Hosts, v: Volume, path: string): Plan {
    if path !in v.targetPaths then Already
    else if Lookup(hosts, v.clientHost).None? then Refuse(NotFound)
    else
      var paths := Without(v.targetPaths, IndexOf(v.targetPaths, path));
      Act(v.(targetPaths := paths, status := if paths == [] then STAGED else v.status),
          [Umount(v.clientHost, path)])
  }

  function PlanOf(op: Op, hosts: Hosts, v: Volume, w: World): Plan {
    match op
    case Publish(kind, server) => PublishPlan(hosts, v, w, kind, server)
    case Unpublish => UnpublishPlan(hosts, v)
    case Connect(client) => ConnectPlan(hosts, v, client)
    case Disconnect => DisconnectPlan(hosts, v)
    case Stage(path) => StagePlan(hosts, v, w, path)
    case Unstage => UnstagePlan(hosts, v)
    case Mount(path) => MountPlan(hosts, v, path)
    case Unmount(path) => UnmountPlan(hosts, v, path)
  }

  /** One handler call on one row: the row and world it leaves, and its answer. */
  datatype Outcome = Outcome(volume: Volume, run: Run, reply: Reply)

  /** The row is written exactly when the whole script succeeds; otherwise it rolls back. */
  function Handle(op: Op, hosts: Hosts, v: Volume, w: World, budget: nat): Outcome {
    match PlanOf(op, hosts, v, w)
    case Refuse(code) => Outcome(v, Run(w, budget, [], false), Error(code))
    case Crash => Outcome(v, Run(w, budget, [], false), Panic)
    case Already => Outcome(v, Run(w, budget, [], true), Ok(v))
    case Act(given, script) =>
      var run := Execute(script, w, budget);
      if run.ok then Outcome(Persist(v, given), run, Ok(given)) else Outcome(v, run, Error(Internal))
  }

  lemma HandleKeepsID(op: Op, hosts: Hosts, v: Volume, w: World, budget: nat)
    ensures Handle(op, hosts, v, w, budget).volume.id == v.id
  {
    hide PlanOf, Execute;
  }

  /** A call is effective when it takes the row forward or back, rather than finding it there. */
  predicate Effective(op: Op, hosts: Hosts, v: Volume, w: World, budget: nat) {
    PlanOf(op, hosts, v, w).Act? && Handle(op, hosts, v, w, budget).reply.Ok?
  }
}
