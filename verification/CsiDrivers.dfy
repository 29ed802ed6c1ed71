/**
 * The CSI driver (csi/internal/service/service.go). Each CSI call is a task that sends
 * backend calls one at a time; other tasks may run between them.
 */
module CsiDrivers {
  import opened Wrappers
  import opened Names
  import opened Structs
  import opened Volumes
  import opened Clusters
  import opened Conversions
  import opened Plans
  import opened VolumeServices
  import opened Capacities

  datatype CsiCode =
    | CsiNotFound | CsiInvalidArgument | CsiInternal | CsiAlreadyExists | CsiFailedPrecondition | CsiUnavailable

  datatype CsiReply = Succeeded | Sized(capacityBytes: int) | Fault(code: CsiCode)

  /** One request to the volume service. */
  datatype Request =
    | Get(id: string)
    | Call(id: string, op: Op)
    | Create(volume: ApiVolume)
    | Remove(id: string)
    | Update(updates: map<string, Value>)

  /** A CSI call in progress, named after the request it sends next. */
  datatype Task =
    | CreateCall(volume: ApiVolume)
    | CreateCheck(volume: ApiVolume)
    | AttachGet(id: string, node: string, server: string)
    | AttachPublish(id: string, node: string, server: string, kind: TransportKind)
    | AttachConnect(id: string, node: string)
    | DetachGet(id: string, node: string)
    | DetachDisconnect(id: string)
    | DetachUnpublish(id: string)
    | StageGet(id: string, host: string, path: string)
    | StageConnect(id: string, host: string, path: string)
    | StageStage(id: string, path: string)
    | UnstageGet(id: string, host: string)
    | UnstageUnstage(id: string, disconnects: bool)
    | UnstageDisconnect(id: string)
    | MountCall(id: string, path: string)
    | UnmountCall(id: string, path: string)
    | DeleteCall(id: string)
    | ExpandGet(id: string, required: int)
    | ExpandUpdate(id: string, required: int)
    | Finished(reply: CsiReply)

  function MapCode(code: Code): CsiCode {
    match code
    case NotFound => CsiNotFound
    case InvalidArgument => CsiInvalidArgument
    case Internal => CsiInternal
    case AlreadyExists => CsiAlreadyExists
  }

  /** `mapError`: no error stays none; a backend that panics drops the connection. */
  function MapError(reply: Reply): CsiReply {
    match reply
    case Ok(_) => Succeeded
    case Error(code) => Fault(MapCode(code))
    case Panic => Fault(CsiUnavailable)
  }

  /**
   * `isErrorID` looks for "id" in the text of an InvalidArgument error. The text starts
   * with the code itself, "invalid_argument", so it is found in every one of them.
   */
  predicate IsErrorID(reply: Reply) {
    reply == Error(InvalidArgument)
  }

  /** `mapErrorID` */
  function MapErrorID(reply: Reply): CsiReply {
    if IsErrorID(reply) then Fault(CsiNotFound) else MapError(reply)
  }

  /** A missing or malformed ID means the volume is already gone. */
  predicate IsGone(reply: Reply) {
    reply == Error(NotFound) || IsErrorID(reply)
  }

  const DEFAULT_CAPACITY := 1024 * 1024 * 1024

  /** The volume a create request asks for: the fields only the service writes are left out. */
  function NewVolume(name: string, parent: string, mode: Mode, required: int, sparse: bool,
                     options: seq<VolumeOption>, kind: TransportKind): (volume: ApiVolume)
    ensures ColonFree(name) ==> ColonFree(volume.id)
  {
    var id := "vol_" + name;
    ApiVolume(id, "volumes/" + id, parent + "/" + id, options, Some(sparse), mode,
              if required == 0 then DEFAULT_CAPACITY else required,
              UNSPECIFIED, None, None, Some(kind), None, [], None)
  }

  /** The update travels as JSON, which holds the capacity as a double. */
  function ExpandUpdates(id: string, required: int): map<string, Value> {
    map["id" := StringValue(id), "capacity_bytes" := NumberValue(ToDouble(required) as real)]
  }

  function RequestOf(t: Task): Request
    requires !t.Finished?
  {
    match t
    case CreateCall(volume) => Create(volume)
    case CreateCheck(volume) => Get(volume.id)
    case AttachGet(id, _, _) => Get(id)
    case AttachPublish(id, _, server, kind) => Call(id, Publish(kind, server))
    case AttachConnect(id, node) => Call(id, Connect(node))
    case DetachGet(id, _) => Get(id)
    case DetachDisconnect(id) => Call(id, Disconnect)
    case DetachUnpublish(id) => Call(id, Unpublish)
    case StageGet(id, _, _) => Get(id)
    case StageConnect(id, host, _) => Call(id, Connect(host))
    case StageStage(id, path) => Call(id, Stage(path))
    case UnstageGet(id, _) => Get(id)
    case UnstageUnstage(id, _) => Call(id, Unstage)
    case UnstageDisconnect(id) => Call(id, Disconnect)
    case MountCall(id, path) => Call(id, Mount(path))
    case UnmountCall(id, path) => Call(id, Unmount(path))
    case DeleteCall(id) => Remove(id)
    case ExpandGet(id, _) => Get(id)
    case ExpandUpdate(id, required) => Update(ExpandUpdates(id, required))
  }

  /** Requests a task may still send. */
  function Ahead(t: Task): nat {
    match t
    case CreateCall(_) => 2
    case AttachGet(_, _, _) => 3
    case AttachPublish(_, _, _, _) => 2
    case DetachGet(_, _) => 3
    case DetachDisconnect(_) => 2
    case StageGet(_, _, _) => 3
    case StageConnect(_, _, _) => 2
    case UnstageGet(_, _) => 3
    case UnstageUnstage(_, _) => 2
    case ExpandGet(_, _) => 2
    case Finished(_) => 0
    case _ => 1
  }

  /** What a task does with an answer. */
  function Resume(t: Task, reply: Reply): (next: Task)
    requires !t.Finished?
    ensures Ahead(next) < Ahead(t)
  {
    match t
    case CreateCall(volume) =>
      if reply == Error(AlreadyExists) then CreateCheck(volume)
      else Finished(if reply.Ok? then Sized(reply.volume.capacityBytes) else MapError(reply))
    case CreateCheck(volume) =>
      if && reply.Ok? && reply.volume.capacityBytes == volume.capacityBytes
         && reply.volume.datasetID == volume.datasetID
      then Finished(Sized(reply.volume.capacityBytes))
      else Finished(Fault(CsiAlreadyExists))
    case AttachGet(id, node, server) =>
      if reply.Ok? then AttachPublish(id, node, server, reply.volume.transport.kind) else Finished(MapErrorID(reply))
    case AttachPublish(id, node, _, _) =>
      if reply.Ok? then AttachConnect(id, node) else Finished(MapErrorID(reply))
    case AttachConnect(_, node) =>
      if !reply.Ok? then Finished(MapError(reply))
      else if reply.volume.clientHost != "" && reply.volume.clientHost != node
      then Finished(Fault(CsiFailedPrecondition))
      else Finished(Succeeded)
    case DetachGet(id, node) =>
      if !reply.Ok? then Finished(if IsGone(reply) then Succeeded else MapError(reply))
      else
        var v := reply.volume;
        if node != "" && v.clientHost != "" && v.clientHost != node then Finished(Succeeded)
        else if v.IsConnected() then DetachDisconnect(id)
        else if v.IsPublished() then DetachUnpublish(id)
        else Finished(Succeeded)
    case DetachDisconnect(id) => if reply.Ok? then DetachUnpublish(id) else Finished(MapError(reply))
    case DetachUnpublish(_) => Finished(if reply.Ok? then Succeeded else MapError(reply))
    case StageGet(id, host, path) =>
      if !reply.Ok? then Finished(MapErrorID(reply))
      else
        var v := reply.volume;
        if v.IsStaged() then Finished(if v.stagingPath == path then Succeeded else Fault(CsiFailedPrecondition))
        else if !v.IsConnected() || v.clientHost != host then StageConnect(id, host, path)
        else StageStage(id, path)
    case StageConnect(id, _, path) => if reply.Ok? then StageStage(id, path) else Finished(MapError(reply))
    case StageStage(_, _) => Finished(if reply.Ok? then Succeeded else MapError(reply))
    case UnstageGet(id, host) =>
      if !reply.Ok? then Finished(if IsGone(reply) then Succeeded else MapError(reply))
      else
        var v := reply.volume;
        var disconnects := v.IsConnected() && v.clientHost == host;
        if v.IsStaged() then UnstageUnstage(id, disconnects)
        else if disconnects then UnstageDisconnect(id)
        else Finished(Succeeded)
    case UnstageUnstage(id, disconnects) =>
      if !reply.Ok? then Finished(MapError(reply))
      else if disconnects then UnstageDisconnect(id)
      else Finished(Succeeded)
    case UnstageDisconnect(_) => Finished(if reply.Ok? then Succeeded else MapError(reply))
    case MountCall(_, _) => Finished(if reply.Ok? then Succeeded else MapError(reply))
    case UnmountCall(_, _) => Finished(if reply.Ok? || IsGone(reply) then Succeeded else MapError(reply))
    case DeleteCall(_) => Finished(if reply.Ok? || IsGone(reply) then Succeeded else MapError(reply))
    case ExpandGet(id, required) =>
      if !reply.Ok? then Finished(if reply == Error(NotFound) then Fault(CsiNotFound) else Fault(CsiInternal))
      else if reply.volume.capacityBytes >= required then Finished(Sized(reply.volume.capacityBytes))
      else ExpandUpdate(id, required)
    case ExpandUpdate(_, _) =>
      Finished(if reply.Ok? then Sized(reply.volume.capacityBytes) else MapError(reply))
  }

  /** The volume service's answer to a request. */
  function Answer(r: Request, hosts: Hosts, rows: Table, w: World, budget: nat): Service {
    match r
    case Get(id) =>
      Service(rows, Run(w, budget, [], true), if id in rows then Ok(rows[id]) else Error(NotFound))
    case Call(id, op) => Serve(op, id, hosts, rows, w, budget)
    case Create(volume) => ServeCreate(volume, rows, w, budget)
    case Remove(id) => ServeDelete(id, hosts, rows, w, budget)
    case Update(updates) => ServeUpdate(updates, hosts, rows, w, budget)
  }

  datatype CsiResult = CsiResult(rows: Table, world: World, left: nat, reply: CsiReply)

  /** A task that nothing interrupts, to its end. */
  function Alone(t: Task, hosts: Hosts, rows: Table, w: World, budget: nat): CsiResult
    decreases Ahead(t)
  {
    if t.Finished? then CsiResult(rows, w, budget, t.reply)
    else
      var s := Answer(RequestOf(t), hosts, rows, w, budget);
      Alone(Resume(t, s.reply), hosts, s.rows, s.run.world, s.run.left)
  }

  /** A task alone sends its request and goes on with the answer. */
  lemma AloneSends(t: Task, hosts: Hosts, rows: Table, w: World, budget: nat)
    requires !t.Finished?
    ensures var s := Answer(RequestOf(t), hosts, rows, w, budget);
      Alone(t, hosts, rows, w, budget) == Alone(Resume(t, s.reply), hosts, s.rows, s.run.world, s.run.left)
  {
  }

  lemma AloneEnds(reply: CsiReply, hosts: Hosts, rows: Table, w: World, budget: nat)
    ensures Alone(Finished(reply), hosts, rows, w, budget) == CsiResult(rows, w, budget, reply)
  {
  }

  /** A whole create call, in closed form. */
  lemma CreateAlone(volume: ApiVolume, hosts: Hosts, rows: Table, w: World, budget: nat)
    ensures Alone(CreateCall(volume), hosts, rows, w, budget) ==
      if volume.id !in rows then
        var v := FromApi(volume).(status := INITIAL);
        if volume.capacityBytes <= 0 then CsiResult(rows, w, budget, Fault(CsiInternal))
        else CsiResult(rows[volume.id := v], w, budget, Sized(volume.capacityBytes))
      else if rows[volume.id].capacityBytes == volume.capacityBytes && rows[volume.id].datasetID == volume.datasetID
      then CsiResult(rows, w, budget, Sized(volume.capacityBytes))
      else CsiResult(rows, w, budget, Fault(CsiAlreadyExists))
  {
    var s := ServeCreate(volume, rows, w, budget);
    var next := Resume(CreateCall(volume), s.reply);
    assert next.CreateCheck? ==> next == CreateCheck(volume) && volume.id in rows;
    assert Alone(CreateCall(volume), hosts, rows, w, budget) == Alone(next, hosts, s.rows, w, budget);
    if next.CreateCheck? {
      var last := Resume(next, Ok(rows[volume.id]));
      assert Alone(next, hosts, rows, w, budget) == Alone(last, hosts, rows, w, budget);
    }
  }

  /** Creating a volume again answers as the first time and changes nothing. */
  lemma CreateIsIdempotent(volume: ApiVolume, hosts: Hosts, rows: Table, w: World, budget: nat)
    ensures var r := Alone(CreateCall(volume), hosts, rows, w, budget);
      r.reply.Sized? ==> Alone(CreateCall(volume), hosts, r.rows, r.world, r.left) == r
  {
    var r := Alone(CreateCall(volume), hosts, rows, w, budget);
    CreateAlone(volume, hosts, rows, w, budget);
    CreateAlone(volume, hosts, r.rows, r.world, r.left);
    hide Alone;
  }

  /**
   * A delete call answers success and leaves the volume in place exactly when the service
   * refuses it: the volume is published, or its server host is gone.
   */
  lemma DeleteSucceeds(id: string, hosts: Hosts, rows: Table, w: World, budget: nat)
    ensures var r := Alone(DeleteCall(id), hosts, rows, w, budget);
      r.reply == Succeeded && id in r.rows
      <==> id in rows && (rows[id].IsPublished() ||
                          (rows[id].serverHost != "" && Lookup(hosts, rows[id].serverHost).None?))
  {
    hide Execute, Lookup;
    var s := ServeDelete(id, hosts, rows, w, budget);
    assert Alone(DeleteCall(id), hosts, rows, w, budget).rows == s.rows;
  }

  /** The driver on one node. */
  class CsiDriver {
    const hostID: string
    const backend: VolumeService

    constructor (hostID: string, backend: VolumeService)
      ensures this.hostID == hostID && this.backend == backend
    {
      this.hostID, this.backend := hostID, backend;
    }

    twostate predicate Did(r: CsiResult, reply: CsiReply)
      reads backend, backend.cluster
    {
      && reply == r.reply && backend.rows == r.rows
      && backend.cluster.world == r.world && backend.cluster.budget == r.left
    }

    /** What a task does from here on, alone. */
    ghost function Onward(t: Task): CsiResult
      reads backend, backend.cluster
    {
      Alone(t, backend.hosts, backend.rows, backend.cluster.world, backend.cluster.budget)
    }

    /** The backend's answer to a request sent now. */
    ghost function Answered(t: Task): Service
      requires !t.Finished?
      reads backend, backend.cluster
    {
      Answer(RequestOf(t), backend.hosts, backend.rows, backend.cluster.world, backend.cluster.budget)
    }

    /** A task alone sends its request and goes on with the answer. */
    lemma Sends(t: Task)
      requires !t.Finished?
      ensures var s := Answered(t);
        Onward(t) == Alone(Resume(t, s.reply), backend.hosts, s.rows, s.run.world, s.run.left)
    {
    }

    lemma Ends(reply: CsiReply)
      ensures Onward(Finished(reply))
           == CsiResult(backend.rows, backend.cluster.world, backend.cluster.budget, reply)
    {
    }

    method CreateVolume(name: string, parent: string, mode: Mode, required: int, sparse: bool,
                        options: seq<VolumeOption>, kind: TransportKind) returns (reply: CsiReply)
      requires backend.Valid()
      modifies backend`rows
      ensures backend.Valid()
      ensures Did(old(Onward(CreateCall(NewVolume(name, parent, mode, required, sparse, options, kind)))), reply)
    {
      hide Alone, ServeCreate;
      var volume := NewVolume(name, parent, mode, required, sparse, options, kind);
      Sends(CreateCall(volume));
      var created := backend.CreateVolume(volume);
      if created == Error(AlreadyExists) {
        Sends(CreateCheck(volume));
        var got := backend.GetVolume(volume.id);
        reply := Fault(CsiAlreadyExists);
        if got.Ok? && got.volume.capacityBytes == volume.capacityBytes && got.volume.datasetID == volume.datasetID {
          reply := Sized(got.volume.capacityBytes);
        }
      } else if created.Ok? {
        reply := Sized(created.volume.capacityBytes);
      } else {
        reply := MapError(created);
      }
      Ends(reply);
    }

    method ControllerPublishVolume(id: string, node: string, storageHost: string) returns (reply: CsiReply)
      requires backend.Valid()
      modifies backend`rows, backend.cluster
      ensures backend.Valid()
      ensures Did(old(Onward(AttachGet(id, node, storageHost))), reply)
    {
      hide Serve, Alone;
      Sends(AttachGet(id, node, storageHost));
      var got := backend.GetVolume(id);
      if !got.Ok? {
        reply := MapErrorID(got);
        Ends(reply);
        return;
      }
      var kind := got.volume.transport.kind;
      Sends(AttachPublish(id, node, storageHost, kind));
      var published := backend.PublishVolume(id, kind, storageHost);
      if !published.Ok? {
        reply := MapErrorID(published);
        Ends(reply);
        return;
      }
      Sends(AttachConnect(id, node));
      var connected := backend.ConnectVolume(id, node);
      if !connected.Ok? {
        reply := MapError(connected);
      } else if connected.volume.clientHost != "" && connected.volume.clientHost != node {
        reply := Fault(CsiFailedPrecondition);
      } else {
        reply := Succeeded;
      }
      Ends(reply);
    }

    method ControllerUnpublishVolume(id: string, node: string) returns (reply: CsiReply)
      requires backend.Valid()
      modifies backend`rows, backend.cluster
      ensures backend.Valid()
      ensures Did(old(Onward(DetachGet(id, node))), reply)
    {
      hide Serve, Alone;
      Sends(DetachGet(id, node));
      var got := backend.GetVolume(id);
      if !got.Ok? {
        reply := if IsGone(got) then Succeeded else MapError(got);
        Ends(reply);
        return;
      }
      var volume := got.volume;
      if node != "" && volume.clientHost != "" && volume.clientHost != node {
        Ends(Succeeded);
        return Succeeded;
      }
      if volume.IsConnected() {
        Sends(DetachDisconnect(id));
        var disconnected := backend.DisconnectVolume(id);
        if !disconnected.Ok? {
          reply := MapError(disconnected);
          Ends(reply);
          return;
        }
      }
      reply := Succeeded;
      if volume.IsPublished() {
        Sends(DetachUnpublish(id));
        var unpublished := backend.UnpublishVolume(id);
        if !unpublished.Ok? {
          reply := MapError(unpublished);
        }
      }
      Ends(reply);
    }

    method NodeStageVolume(id: string, stagingPath: string) returns (reply: CsiReply)
      requires backend.Valid()
      modifies backend`rows, backend.cluster
      ensures backend.Valid()
      ensures Did(old(Onward(StageGet(id, hostID, stagingPath))), reply)
    {
      hide Serve, Alone;
      Sends(StageGet(id, hostID, stagingPath));
      var got := backend.GetVolume(id);
      if !got.Ok? {
        reply := MapErrorID(got);
        Ends(reply);
        return;
      }
      var volume := got.volume;
      if volume.IsStaged() {
        reply := if volume.stagingPath == stagingPath then Succeeded else Fault(CsiFailedPrecondition);
        Ends(reply);
        return;
      }
      if !volume.IsConnected() || volume.clientHost != hostID {
        Sends(StageConnect(id, hostID, stagingPath));
        var connected := backend.ConnectVolume(id, hostID);
        if !connected.Ok? {
          reply := MapError(connected);
          Ends(reply);
          return;
        }
      }
      Sends(StageStage(id, stagingPath));
      var staged := backend.StageVolume(id, stagingPath);
      reply := if staged.Ok? then Succeeded else MapError(staged);
      Ends(reply);
    }

    method NodeUnstageVolume(id: string) returns (reply: CsiReply)
      requires backend.Valid()
      modifies backend`rows, backend.cluster
      ensures backend.Valid()
      ensures Did(old(Onward(UnstageGet(id, hostID))), reply)
    {
      hide Serve, Alone;
      Sends(UnstageGet(id, hostID));
      var got := backend.GetVolume(id);
      if !got.Ok? {
        reply := if IsGone(got) then Succeeded else MapError(got);
        Ends(reply);
        return;
      }
      var volume := got.volume;
      var disconnects := volume.IsConnected() && volume.clientHost == hostID;
      if volume.IsStaged() {
        Sends(UnstageUnstage(id, disconnects));
        var unstaged := backend.UnstageVolume(id);
        if !unstaged.Ok? {
          reply := MapError(unstaged);
          Ends(reply);
          return;
        }
      }
      reply := Succeeded;
      if disconnects {
        Sends(UnstageDisconnect(id));
        var disconnected := backend.DisconnectVolume(id);
        if !disconnected.Ok? {
          reply := MapError(disconnected);
        }
      }
      Ends(reply);
    }

    method NodePublishVolume(id: string, targetPath: string) returns (reply: CsiReply)
      requires backend.Valid()
      modifies backend`rows, backend.cluster
      ensures backend.Valid()
      ensures Did(old(Onward(MountCall(id, targetPath))), reply)
    {
      hide Serve, Alone;
      Sends(MountCall(id, targetPath));
      var mounted := backend.MountVolume(id, targetPath);
      reply := if mounted.Ok? then Succeeded else MapError(mounted);
      Ends(reply);
    }

    method NodeUnpublishVolume(id: string, targetPath: string) returns (reply: CsiReply)
      requires backend.Valid()
      modifies backend`rows, backend.cluster
      ensures backend.Valid()
      ensures Did(old(Onward(UnmountCall(id, targetPath))), reply)
    {
      hide Serve, Alone;
      Sends(UnmountCall(id, targetPath));
      var unmounted := backend.UnmountVolume(id, targetPath);
      reply := if unmounted.Ok? || IsGone(unmounted) then Succeeded else MapError(unmounted);
      Ends(reply);
    }

    method DeleteVolume(id: string) returns (reply: CsiReply)
      requires backend.Valid()
      modifies backend`rows, backend.cluster
      ensures backend.Valid()
      ensures Did(old(Onward(DeleteCall(id))), reply)
    {
      hide ServeDelete, Alone;
      Sends(DeleteCall(id));
      var deleted := backend.DeleteVolume(id);
      reply := if deleted.Ok? || IsGone(deleted) then Succeeded else MapError(deleted);
      Ends(reply);
    }

    method ControllerExpandVolume(id: string, requiredBytes: int) returns (reply: CsiReply)
      requires backend.Valid()
      modifies backend`rows, backend.cluster
      ensures backend.Valid()
      ensures Did(old(Onward(ExpandGet(id, requiredBytes))), reply)
    {
      hide ServeUpdate, Alone;
      Sends(ExpandGet(id, requiredBytes));
      var got := backend.GetVolume(id);
      if !got.Ok? {
        reply := if got == Error(NotFound) then Fault(CsiNotFound) else Fault(CsiInternal);
        Ends(reply);
        return;
      }
      if got.volume.capacityBytes >= requiredBytes {
        reply := Sized(got.volume.capacityBytes);
        Ends(reply);
        return;
      }
      Sends(ExpandUpdate(id, requiredBytes));
      var updated := backend.UpdateVolume(ExpandUpdates(id, requiredBytes));
      reply := if updated.Ok? then Sized(updated.volume.capacityBytes) else MapError(updated);
      Ends(reply);
    }
  }
}
