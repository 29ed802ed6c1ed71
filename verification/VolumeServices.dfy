/** The volume service (app/internal/service/service_volume.go), statement by statement. */
module VolumeServices {
  import opened Wrappers
  import opened Names
  import opened Structs
  import opened Volumes
  import opened Clusters
  import opened Conversions
  import opened Plans

  type Table = map<string, Volume>

  predicate KeyedByID(rows: Table) {
    forall id :: id in rows ==> rows[id].id == id
  }

  datatype Service = Service(rows: Table, run: Run, reply: Reply)

  /** A handler call by volume ID on the whole table. */
  function Serve(op: Op, id: string, hosts: Hosts, rows: Table, w: World, budget: nat): Service {
    if id !in rows then Service(rows, Run(w, budget, [], false), Error(NotFound))
    else
      var o := Handle(op, hosts, rows[id], w, budget);
      Service(rows[id := o.volume], o.run, o.reply)
  }

  /** `DeleteVolume`: destroys the zvol if the row still names a server host, then the row. */
  function ServeDelete(id: string, hosts: Hosts, rows: Table, w: World, budget: nat): Service {
    if id !in rows then Service(rows, Run(w, budget, [], false), Error(NotFound))
    else
      var v := rows[id];
      if v.IsPublished() then Service(rows, Run(w, budget, [], false), Error(InvalidArgument))
      else if v.serverHost == "" then Service(rows - {id}, Run(w, budget, [], true), Ok(v))
      else if Lookup(hosts, v.serverHost).None? then Service(rows, Run(w, budget, [], false), Error(NotFound))
      else
        var run := Execute([DestroyZvol(v.serverHost, v.datasetID)], w, budget);
        if run.ok then Service(rows - {id}, run, Ok(v)) else Service(rows, run, Error(Internal))
  }

  /** `CreateVolume`: a new row in status INITIAL, unless the ID is taken or it has no capacity. */
  function ServeCreate(request: ApiVolume, rows: Table, w: World, budget: nat): Service {
    var v := FromApi(request).(status := INITIAL);
    if v.id in rows then Service(rows, Run(w, budget, [], false), Error(AlreadyExists))
    else if v.capacityBytes <= 0 then Service(rows, Run(w, budget, [], false), Error(Internal))
    else Service(rows[v.id := v], Run(w, budget, [], true), Ok(v))
  }

  function OptionScript(host: string, dataset: string, options: seq<VolumeOption>): seq<Command> {
    seq(|options|, i requires 0 <= i < |options| => SetOption(host, dataset, options[i].key, options[i].value))
  }

  /** Commands to run after an update was written, and the error that ends it if they succeed. */
  datatype Refresh = Refresh(script: seq<Command>, failure: Option<Reply>)

  function ServerRefresh(v: Volume): seq<Command> {
    if v.serverHost == "" then []
    else [SetVolsize(v.serverHost, v.datasetID, v.capacityBytes)]
         + OptionScript(v.serverHost, v.datasetID, v.options)
  }

  function ClientRefresh(hosts: Hosts, v: Volume): Refresh {
    if !v.IsConnected() || v.clientHost == "" then Refresh([], None)
    else
      var client, server := Lookup(hosts, v.clientHost), Lookup(hosts, v.serverHost);
      if client.None? || server.None? then Refresh([], Some(Error(Internal)))
      else
        var target := TargetID(server.value, v.transport.kind, v.id);
        if target.None? then Refresh([], Some(Error(Internal)))
        else if server.value.role.Client? then Refresh([], Some(Panic))
        else
          Refresh([Rescan(v.clientHost, target.value)]
                  + (if v.mode != Filesystem then []
                     else [FindDevice(v.clientHost, target.value)]
                          + [ResizeFilesystem(v.clientHost, target.value)]), None)
  }

  /** The update that a request makes of a row, before GORM merges it. */
  function GivenUpdate(stored: Volume, updates: map<string, Value>): Volume
    requires WellTyped(updates)
  {
    FromApi(Updated(ToApi(stored), updates))
  }

  lemma GivenUpdateKeepsID(stored: Volume, updates: map<string, Value>)
    requires WellTyped(updates)
    ensures GivenUpdate(stored, updates).id == stored.id
  {
  }

  /** `UpdateVolume`: the row is written first and kept even when a later command fails. */
  function ServeUpdate(updates: map<string, Value>, hosts: Hosts, rows: Table, w: World, budget: nat): Service {
    var refused := Run(w, budget, [], false);
    var id := StringField(updates, "id");
    if "id" !in updates then Service(rows, refused, Error(InvalidArgument))
    else if id !in rows then Service(rows, refused, Error(NotFound))
    else if !WellTyped(updates) then Service(rows, refused, Error(InvalidArgument))
    else
      var given := GivenUpdate(rows[id], updates);
      if given.capacityBytes < 0 then Service(rows, refused, Error(Internal))
      else
        var written := rows[id := Persist(rows[id], given)];
        if given.serverHost != "" && Lookup(hosts, given.serverHost).None?
        then Service(written, refused, Error(Internal))
        else
          var refresh := ClientRefresh(hosts, given);
          var run := Execute(ServerRefresh(given) + refresh.script, w, budget);
          Service(written, run,
                  if !run.ok then Error(Internal)
                  else if refresh.failure.Some? then refresh.failure.value
                  else Ok(given))
  }

  /** Format a filesystem volume's device, but only when it holds no filesystem yet. */
  method RunFormat(cluster: Cluster, volume: Volume, target: string) returns (ok: bool)
    modifies cluster
    ensures cluster.Ran(Execute(FormatScript(volume, old(cluster.world), target),
                                old(cluster.world), old(cluster.budget)), ok)
  {
    hide Execute, Apply, Answers;
    if volume.mode != Filesystem {
      ExecuteEmpty(cluster.world, cluster.budget);
      return true;
    }
    var query, format := QueryFilesystem(volume.clientHost, target), Format(volume.clientHost, target);
    var formatted := HasFilesystem(cluster.world, volume.clientHost, target);
    ExecuteAppend([query], [format], cluster.world, cluster.budget);
    assert [query] + [] == [query];
    ok := cluster.Exec(query);
    if !ok {
      return;
    }
    if !formatted {
      ok := cluster.Exec(format);
    }
  }

  /** The staging commands, shared with the syncer. */
  method RunStage(cluster: Cluster, volume: Volume, target: string) returns (ok: bool)
    modifies cluster
    ensures cluster.Ran(Execute(StageScript(volume, old(cluster.world), target),
                                old(cluster.world), old(cluster.budget)), ok)
  {
    hide Execute, Apply, Answers, FormatScript;
    var find, path, device :=
      FindDevice(volume.clientHost, target),
      MakePath(volume.clientHost, volume.stagingPath),
      MountDevice(volume.clientHost, target, volume.stagingPath);
    ghost var w, n := cluster.world, cluster.budget;
    ghost var format := FormatScript(volume, w, target);
    ExecuteAppend([find] + format + [path], [device], w, n);
    ExecuteAppend([find] + format, [path], w, n);
    ExecuteAppend([find], format, w, n);
    ok := cluster.Exec(find);
    if !ok {
      return;
    }
    assert cluster.world == w by {
      ExecuteQuery(find, w, n);
    }
    ok := RunFormat(cluster, volume, target);
    if !ok {
      return;
    }
    ok := cluster.Exec(path);
    if !ok {
      return;
    }
    ok := cluster.Exec(device);
  }

  /** The mount commands, shared with the syncer. */
  method RunMount(cluster: Cluster, volume: Volume, path: string) returns (ok: bool)
    modifies cluster
    ensures cluster.Ran(Execute(MountScript(volume, path), old(cluster.world), old(cluster.budget)), ok)
  {
    hide Execute, Apply, Answers;
    var make, bind, chmod :=
      MakePath(volume.clientHost, path),
      MountBind(volume.clientHost, volume.stagingPath, path),
      Chmod(volume.clientHost, path);
    ghost var last := if volume.mode == Filesystem then [chmod] else [];
    assert MountScript(volume, path) == [make] + [bind] + last;
    ExecuteAppend([make] + [bind], last, cluster.world, cluster.budget);
    ExecuteAppend([make], [bind], cluster.world, cluster.budget);
    ok := cluster.Exec(make);
    if !ok {
      return;
    }
    ok := cluster.Exec(bind);
    if !ok {
      return;
    }
    if volume.mode == Filesystem {
      ok := cluster.Exec(chmod);
    } else {
      assert [make] + [bind] + [] == [make] + [bind];
    }
  }

  class VolumeService {
    var rows: Table
    const hosts: Hosts
    const cluster: Cluster

    constructor (hosts: Hosts, cluster: Cluster)
      ensures this.hosts == hosts && this.cluster == cluster && rows == map[]
    {
      this.hosts, this.cluster, this.rows := hosts, cluster, map[];
    }

    ghost predicate Valid()
      reads this
    {
      KeyedByID(rows)
    }

    /** The state and answer of a call are those of its specification. */
    twostate predicate Served(s: Service, reply: Reply)
      reads this, cluster
    {
      && rows == s.rows && reply == s.reply
      && cluster.world == s.run.world && cluster.budget == s.run.left
      && cluster.log == old(cluster.log) + s.run.log
    }

    /** `gorm.G[*database.Volume](tx).Updates`. */
    method Updates(volume: Volume)
      requires Valid() && volume.id in rows
      modifies this`rows
      ensures rows == old(rows)[volume.id := Persist(old(rows)[volume.id], volume)]
    {
      rows := rows[volume.id := Persist(rows[volume.id], volume)];
    }

    method GetVolume(id: string) returns (reply: Reply)
      ensures reply == if id in rows then Ok(rows[id]) else Error(NotFound)
    {
      return if id in rows then Ok(rows[id]) else Error(NotFound);
    }

    /** The commands of the publish transaction. */
    method RunPublish(volume: Volume, target: string) returns (ok: bool)
      modifies cluster
      ensures cluster.Ran(Execute(PublishScript(volume, old(cluster.world), target),
                                  old(cluster.world), old(cluster.budget)), ok)
    {
      hide Execute, Apply, Answers;
      var query, create, expose :=
        QueryZvol(volume.serverHost, volume.datasetID),
        CreateZvol(volume.serverHost, volume.datasetID, volume.capacityBytes),
        Export(volume.serverHost, target, volume.datasetID);
      var present := At(volume.serverHost, volume.datasetID) in cluster.world.zvols;
      ghost var optional := if present then [] else [create];
      ghost var w, n := cluster.world, cluster.budget;
      assert PublishScript(volume, w, target) == [query] + optional + [expose];
      ExecuteAppend([query] + optional, [expose], w, n);
      ExecuteAppend([query], optional, w, n);
      assert [query] + [] == [query];
      ok := cluster.Exec(query);
      if !ok {
        return;
      }
      if !present {
        ok := cluster.Exec(create);
        if !ok {
          return;
        }
      }
      ok := cluster.Exec(expose);
    }

    method PublishVolume(id: string, requested: TransportKind, serverHost: string) returns (reply: Reply)
      requires Valid()
      modifies this`rows, cluster
      ensures Valid()
      ensures Served(
        Serve(Publish(requested, serverHost), id, hosts, old(rows), old(cluster.world), old(cluster.budget)), reply)
    {
      hide Execute, Persist, PublishScript;
      if id !in rows {
        return Error(NotFound);
      }
      var volume := rows[id];
      if volume.IsPublished() {
        assert rows[id := volume] == rows;
        return Ok(volume);
      }
      var kind := Iscsi;
      if requested == NvmeofTcp {
        kind := NvmeofTcp;
      }
      var stored, saved := volume, rows;
      volume := volume.(transport := Bare(kind), serverHost := serverHost, status := PUBLISHED);

      var failure := Some(Error(Internal));
      label transaction: {
        var server := Lookup(hosts, volume.serverHost);
        if server.None? {
          failure := Some(Error(NotFound));
          break transaction;
        }
        var target := TargetID(server.value, kind, volume.id);
        if target.None? {
          break transaction;
        }
        if server.value.role.Client? {
          failure := Some(Panic);
          break transaction;
        }
        var payload := Endpoint(server.value.role.endpoint, target.value, server.value.key, "", "");
        volume := volume.(transport := volume.transport.WithPayload(payload));
        Updates(volume);

        var ok := RunPublish(volume, target.value);
        if !ok {
          break transaction;
        }
        failure := None;
      }
      if failure.Some? {
        rows := saved;
        assert rows[id := stored] == rows;
        return failure.value;
      }
      return Ok(volume);
    }

    method UnpublishVolume(id: string) returns (reply: Reply)
      requires Valid()
      modifies this`rows, cluster
      ensures Valid()
      ensures Served(Serve(Unpublish, id, hosts, old(rows), old(cluster.world), old(cluster.budget)), reply)
    {
      hide Execute, Persist;
      if id !in rows {
        return Error(NotFound);
      }
      var volume := rows[id];
      if !volume.IsPublished() {
        assert rows[id := volume] == rows;
        return Ok(volume);
      } else if volume.IsConnected() {
        assert rows[id := volume] == rows;
        return Error(InvalidArgument);
      }
      var stored, saved := volume, rows;
      var failure := Some(Error(Internal));
      label transaction: {
        var server := Lookup(hosts, volume.serverHost);
        if server.None? {
          failure := Some(Error(NotFound));
          break transaction;
        }
        var previous := volume.transport;
        var target := TargetID(server.value, previous.kind, volume.id);
        if target.None? {
          break transaction;
        }
        var serverHost := volume.serverHost;
        volume := volume.(serverHost := "", transport := Bare(Unspecified), status := INITIAL);
        Updates(volume);
        var ok := cluster.Exec(Unexport(serverHost, target.value));
        if !ok {
          break transaction;
        }
        failure := None;
      }
      if failure.Some? {
        rows := saved;
        assert rows[id := stored] == rows;
        return failure.value;
      }
      return Ok(volume);
    }

    method ConnectVolume(id: string, clientHost: string) returns (reply: Reply)
      requires Valid()
      modifies this`rows, cluster
      ensures Valid()
      ensures Served(Serve(Connect(clientHost), id, hosts, old(rows), old(cluster.world), old(cluster.budget)), reply)
    {
      hide Execute, Persist;
      if id !in rows {
        return Error(NotFound);
      }
      var volume := rows[id];
      assert rows[id := volume] == rows;
      if !volume.IsPublished() {
        return Error(InvalidArgument);
      } else if volume.IsConnected() {
        return Ok(volume);
      }
      var saved := rows;
      volume := volume.(clientHost := clientHost, status := CONNECTED);
      var failure := Some(Error(Internal));
      label transaction: {
        var server, client := Lookup(hosts, volume.serverHost), Lookup(hosts, volume.clientHost);
        if server.None? || client.None? {
          failure := Some(Error(NotFound));
          break transaction;
        }
        if volume.transport.kind == Unspecified {
          break transaction;
        }
        if volume.transport.Payload().None? {
          failure := Some(Panic);
          break transaction;
        }
        var payload := volume.transport.Payload().value;
        var initiator := ClientID(client.value, volume.transport.kind);
        if initiator.None? {
          break transaction;
        }
        volume := volume.(transport := volume.transport.WithPayload(
          payload.(initiatorID := initiator.value, initiatorPassword := client.value.key)));
        Updates(volume);
        var allow, login :=
          Allow(volume.serverHost, payload.targetID, initiator.value),
          Login(volume.clientHost, volume.serverHost, payload.targetID, initiator.value);
        ExecuteAppend([allow], [login], cluster.world, cluster.budget);
        var ok := cluster.Exec(allow);
        if !ok {
          break transaction;
        }
        ok := cluster.Exec(login);
        if !ok {
          break transaction;
        }
        failure := None;
      }
      if failure.Some? {
        rows := saved;
        return failure.value;
      }
      return Ok(volume);
    }

    method DisconnectVolume(id: string) returns (reply: Reply)
      requires Valid()
      modifies this`rows, cluster
      ensures Valid()
      ensures Served(Serve(Disconnect, id, hosts, old(rows), old(cluster.world), old(cluster.budget)), reply)
    {
      hide Execute, Persist;
      if id !in rows {
        return Error(NotFound);
      }
      var volume := rows[id];
      assert rows[id := volume] == rows;
      if !volume.IsPublished() {
        return Error(InvalidArgument);
      } else if !volume.IsConnected() {
        return Ok(volume);
      } else if volume.IsMounted() {
        return Error(InvalidArgument);
      }
      var saved := rows;
      var failure := Some(Error(Internal));
      label transaction: {
        var server, client := Lookup(hosts, volume.serverHost), Lookup(hosts, volume.clientHost);
        if server.None? || client.None? {
          failure := Some(Error(NotFound));
          break transaction;
        }
        if volume.transport.kind == Unspecified {
          break transaction;
        }
        if volume.transport.Payload().None? {
          failure := Some(Panic);
          break transaction;
        }
        var payload := volume.transport.Payload().value;
        var initiator := ClientID(client.value, volume.transport.kind);
        if initiator.None? {
          break transaction;
        }
        var clientHost := volume.clientHost;
        volume := volume.(
          transport := volume.transport.WithPayload(payload.(initiatorID := "", initiatorPassword := "")));
        volume := volume.(clientHost := "", status := PUBLISHED);
        Updates(volume);
        var logout, deny :=
          Logout(clientHost, payload.targetID),
          Deny(volume.serverHost, payload.targetID, initiator.value);
        ExecuteAppend([logout], [deny], cluster.world, cluster.budget);
        var ok := cluster.Exec(logout);
        if !ok {
          break transaction;
        }
        ok := cluster.Exec(deny);
        if !ok {
          break transaction;
        }
        failure := None;
      }
      if failure.Some? {
        rows := saved;
        return failure.value;
      }
      return Ok(volume);
    }

    method StageVolume(id: string, stagingPath: string) returns (reply: Reply)
      requires Valid()
      modifies this`rows, cluster
      ensures Valid()
      ensures Served(Serve(Stage(stagingPath), id, hosts, old(rows), old(cluster.world), old(cluster.budget)), reply)
    {
      hide Execute, Persist, StageScript;
      if id !in rows {
        return Error(NotFound);
      }
      var volume := rows[id];
      assert rows[id := volume] == rows;
      if !volume.IsPublished() {
        return Error(InvalidArgument);
      } else if !volume.IsConnected() {
        return Error(InvalidArgument);
      } else if volume.IsStaged() {
        if volume.stagingPath == stagingPath {
          return Ok(volume);
        }
        return Error(InvalidArgument);
      }
      var saved := rows;
      volume := volume.(stagingPath := stagingPath, status := STAGED);
      var failure := Some(Error(Internal));
      label transaction: {
        Updates(volume);
        var client := Lookup(hosts, volume.clientHost);
        if client.None? {
          failure := Some(Error(NotFound));
          break transaction;
        }
        if volume.transport.kind == Unspecified {
          break transaction;
        }
        if volume.transport.Payload().None? {
          failure := Some(Panic);
          break transaction;
        }
        var ok := RunStage(cluster, volume, volume.transport.Payload().value.targetID);
        if !ok {
          break transaction;
        }
        failure := None;
      }
      if failure.Some? {
        rows := saved;
        return failure.value;
      }
      return Ok(volume);
    }

    method UnstageVolume(id: string) returns (reply: Reply)
      requires Valid()
      modifies this`rows, cluster
      ensures Valid()
      ensures Served(Serve(Unstage, id, hosts, old(rows), old(cluster.world), old(cluster.budget)), reply)
    {
      hide Execute, Persist;
      if id !in rows {
        return Error(NotFound);
      }
      var volume := rows[id];
      assert rows[id := volume] == rows;
      if !volume.IsStaged() {
        return Ok(volume);
      } else if volume.IsMounted() {
        return Error(InvalidArgument);
      }
      var saved := rows;
      var failure := Some(Error(Internal));
      label transaction: {
        var previousPath := volume.stagingPath;
        volume := volume.(stagingPath := "", status := CONNECTED);
        Updates(volume);
        if Lookup(hosts, volume.clientHost).None? {
          break transaction;
        }
        var ok := cluster.Exec(Umount(volume.clientHost, previousPath));
        if !ok {
          break transaction;
        }
        failure := None;
      }
      if failure.Some? {
        rows := saved;
        return failure.value;
      }
      return Ok(volume);
    }

    method MountVolume(id: string, mountPath: string) returns (reply: Reply)
      requires Valid()
      modifies this`rows, cluster
      ensures Valid()
      ensures Served(Serve(Mount(mountPath), id, hosts, old(rows), old(cluster.world), old(cluster.budget)), reply)
    {
      hide Execute, Persist, MountScript;
      if id !in rows {
        return Error(NotFound);
      }
      var volume := rows[id];
      assert rows[id := volume] == rows;
      if !volume.IsPublished() || !volume.IsConnected() || !volume.IsStaged() {
        return Error(InvalidArgument);
      }
      if IndexOf(volume.targetPaths, mountPath) != -1 {
        return Ok(volume);
      }
      var saved := rows;
      volume := volume.(targetPaths := volume.targetPaths + [mountPath], status := MOUNTED);
      var failure := Some(Error(Internal));
      label transaction: {
        Updates(volume);
        if Lookup(hosts, volume.clientHost).None? {
          failure := Some(Error(NotFound));
          break transaction;
        }
        var ok := RunMount(cluster, volume, mountPath);
        if !ok {
          break transaction;
        }
        failure := None;
      }
      if failure.Some? {
        rows := saved;
        return failure.value;
      }
      return Ok(volume);
    }

    method UnmountVolume(id: string, mountPath: string) returns (reply: Reply)
      requires Valid()
      modifies this`rows, cluster
      ensures Valid()
      ensures Served(Serve(Unmount(mountPath), id, hosts, old(rows), old(cluster.world), old(cluster.budget)), reply)
    {
      hide Execute, Persist;
      if id !in rows {
        return Error(NotFound);
      }
      var volume := rows[id];
      assert rows[id := volume] == rows;
      var index := IndexOf(volume.targetPaths, mountPath);
      if index == -1 {
        return Ok(volume);
      }
      var saved := rows;
      volume := volume.(targetPaths := volume.targetPaths[..index] + volume.targetPaths[index + 1..]);
      if |volume.targetPaths| == 0 {
        volume := volume.(status := STAGED);
      }
      var failure := Some(Error(Internal));
      label transaction: {
        Updates(volume);
        if Lookup(hosts, volume.clientHost).None? {
          failure := Some(Error(NotFound));
          break transaction;
        }
        var ok := cluster.Exec(Umount(volume.clientHost, mountPath));
        if !ok {
          break transaction;
        }
        failure := None;
      }
      if failure.Some? {
        rows := saved;
        return failure.value;
      }
      return Ok(volume);
    }

    method DeleteVolume(id: string) returns (reply: Reply)
      requires Valid()
      modifies this`rows, cluster
      ensures Valid()
      ensures Served(ServeDelete(id, hosts, old(rows), old(cluster.world), old(cluster.budget)), reply)
    {
      hide Execute;
      if id !in rows {
        return Error(NotFound);
      }
      var volume := rows[id];
      if volume.IsPublished() {
        return Error(InvalidArgument);
      }
      if volume.serverHost != "" {
        if Lookup(hosts, volume.serverHost).None? {
          return Error(NotFound);
        }
        var ok := cluster.Exec(DestroyZvol(volume.serverHost, volume.datasetID));
        if !ok {
          return Error(Internal);
        }
      }
      rows := rows - {id};
      return Ok(volume);
    }

    method CreateVolume(request: ApiVolume) returns (reply: Reply)
      requires Valid()
      modifies this`rows
      ensures Valid()
      ensures Served(ServeCreate(request, old(rows), cluster.world, cluster.budget), reply)
    {
      var volume := FromAPIToDB(request);
      volume := volume.(status := INITIAL);
      if volume.id in rows {
        return Error(AlreadyExists);
      }
      if volume.capacityBytes <= 0 {
        return Error(Internal);
      }
      rows := rows[volume.id := volume];
      return Ok(volume);
    }

    /** One `zfs set` per option, stopping at the first failure. */
    method RunOptions(host: string, dataset: string, options: seq<VolumeOption>) returns (ok: bool)
      modifies cluster
      ensures cluster.Ran(Execute(OptionScript(host, dataset, options), old(cluster.world), old(cluster.budget)), ok)
    {
      hide Execute, Apply, Answers;
      ghost var script, w, n := OptionScript(host, dataset, options), cluster.world, cluster.budget;
      ExecuteEmpty(w, n);
      for i := 0 to |options|
        invariant cluster.Ran(Execute(script[..i], w, n), true)
      {
        var assign := SetOption(host, dataset, options[i].key, options[i].value);
        assert script[..i + 1] == script[..i] + [assign];
        assert script == script[..i + 1] + script[i + 1..];
        ExecuteAppend(script[..i], [assign], w, n);
        ExecuteAppend(script[..i + 1], script[i + 1..], w, n);
        ok := cluster.Exec(assign);
        if !ok {
          return;
        }
      }
      assert script[..|options|] == script;
      return true;
    }

    /** The storage host's part of an update. */
    method RunServerRefresh(volume: Volume) returns (ok: bool)
      modifies cluster
      ensures cluster.Ran(Execute(ServerRefresh(volume), old(cluster.world), old(cluster.budget)), ok)
    {
      hide Execute, Apply, Answers;
      ExecuteEmpty(cluster.world, cluster.budget);
      if volume.serverHost == "" {
        return true;
      }
      var resize := SetVolsize(volume.serverHost, volume.datasetID, volume.capacityBytes);
      ExecuteAppend([resize], OptionScript(volume.serverHost, volume.datasetID, volume.options),
                    cluster.world, cluster.budget);
      ok := cluster.Exec(resize);
      if !ok {
        return;
      }
      ok := RunOptions(volume.serverHost, volume.datasetID, volume.options);
    }

    /** The client's part of an update: rescan the target and grow the filesystem. */
    method RunClientRefresh(volume: Volume, target: string) returns (ok: bool)
      modifies cluster
      ensures cluster.Ran(
        Execute([Rescan(volume.clientHost, target)]
                + (if volume.mode != Filesystem then []
                   else [FindDevice(volume.clientHost, target)] + [ResizeFilesystem(volume.clientHost, target)]),
                old(cluster.world), old(cluster.budget)), ok)
    {
      hide Execute, Apply, Answers;
      var rescan, find, grow :=
        Rescan(volume.clientHost, target),
        FindDevice(volume.clientHost, target),
        ResizeFilesystem(volume.clientHost, target);
      ExecuteAppend([rescan], [find] + [grow], cluster.world, cluster.budget);
      ok := cluster.Exec(rescan);
      if !ok || volume.mode != Filesystem {
        assert [rescan] + [] == [rescan];
        return;
      }
      ExecuteAppend([find], [grow], cluster.world, cluster.budget);
      ok := cluster.Exec(find);
      if !ok {
        return;
      }
      ok := cluster.Exec(grow);
    }

    method UpdateVolume(updates: map<string, Value>) returns (reply: Reply)
      requires Valid()
      modifies this`rows, cluster
      ensures Valid()
      ensures Served(ServeUpdate(updates, hosts, old(rows), old(cluster.world), old(cluster.budget)), reply)
    {
      hide Execute, Persist, Updated, FromApi, ToApi, ServerRefresh, WellTyped;
      if "id" !in updates {
        return Error(InvalidArgument);
      }
      var id := StringField(updates, "id");
      if id !in rows {
        return Error(NotFound);
      }
      var api := FromDBToAPI(rows[id]);
      var ok;
      api, ok := ApplyVolumeUpdate(api, updates);
      if !ok {
        return Error(InvalidArgument);
      }
      var volume := FromAPIToDB(api);
      if volume.capacityBytes < 0 {
        return Error(Internal);
      }
      GivenUpdateKeepsID(rows[id], updates);
      Updates(volume);
      if volume.serverHost != "" && Lookup(hosts, volume.serverHost).None? {
        return Error(Internal);
      }
      ghost var refresh := ClientRefresh(hosts, volume);
      ExecuteAppend(ServerRefresh(volume), refresh.script, cluster.world, cluster.budget);
      ok := RunServerRefresh(volume);
      if !ok {
        return Error(Internal);
      }
      ExecuteEmpty(cluster.world, cluster.budget);
      if volume.IsConnected() && volume.clientHost != "" {
        var client := Lookup(hosts, volume.clientHost);
        if client.None? {
          return Error(Internal);
        }
        var server := Lookup(hosts, volume.serverHost);
        if server.None? {
          return Error(Internal);
        }
        var target := TargetID(server.value, volume.transport.kind, volume.id);
        if target.None? {
          return Error(Internal);
        }
        if server.value.role.Client? {
          return Panic;
        }
        ok := RunClientRefresh(volume, target.value);
        if !ok {
          return Error(Internal);
        }
      }
      return Ok(volume);
    }
  }
}
