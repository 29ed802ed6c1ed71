/** CSI calls that find the volume gone, done with, or held by another node. */
module CsiCalls {
  import opened Names
  import opened Volumes
  import opened Clusters
  import opened Plans
  import opened VolumeServices
  import opened Lifecycles
  import opened Links
  import opened CallAnswers
  import opened CsiDrivers

  /** Of a volume that is gone, calls that set up answer not found. */
  lemma GoneSetsUp(id: string, node: string, server: string, path: string, required: int, hosts: Hosts, rows: Table,
                   w: World, budget: nat)
    requires id !in rows
    ensures var gone := CsiResult(rows, w, budget, Fault(CsiNotFound));
      && Alone(AttachGet(id, node, server), hosts, rows, w, budget) == gone
      && Alone(StageGet(id, node, path), hosts, rows, w, budget) == gone
      && Alone(MountCall(id, path), hosts, rows, w, budget) == gone
      && Alone(ExpandGet(id, required), hosts, rows, w, budget) == gone
  {
    hide Alone;
    MissingEnds(AttachGet(id, node, server), id, hosts, rows, w, budget);
    MissingEnds(StageGet(id, node, path), id, hosts, rows, w, budget);
    MissingEnds(MountCall(id, path), id, hosts, rows, w, budget);
    MissingEnds(ExpandGet(id, required), id, hosts, rows, w, budget);
  }

  /** Calls that tear down succeed. */
  lemma GoneTearsDown(id: string, node: string, path: string, hosts: Hosts, rows: Table, w: World, budget: nat)
    requires id !in rows
    ensures var done := CsiResult(rows, w, budget, Succeeded);
      && Alone(DetachGet(id, node), hosts, rows, w, budget) == done
      && Alone(UnstageGet(id, node), hosts, rows, w, budget) == done
      && Alone(UnmountCall(id, path), hosts, rows, w, budget) == done
      && Alone(DeleteCall(id), hosts, rows, w, budget) == done
  {
    hide Alone;
    MissingEnds(DetachGet(id, node), id, hosts, rows, w, budget);
    MissingEnds(UnstageGet(id, node), id, hosts, rows, w, budget);
    MissingEnds(UnmountCall(id, path), id, hosts, rows, w, budget);
    MissingEnds(DeleteCall(id), id, hosts, rows, w, budget);
  }

  /** A malformed ID is taken for a missing volume. */
  lemma MalformedIsGone(id: string, node: string, server: string, kind: TransportKind, path: string)
    ensures var bad, gone := Error(InvalidArgument), Finished(Fault(CsiNotFound));
      && Resume(AttachGet(id, node, server), bad) == Resume(AttachPublish(id, node, server, kind), bad) == gone
      && Resume(StageGet(id, node, path), bad) == gone
    ensures var bad, done := Error(InvalidArgument), Finished(Succeeded);
      && Resume(DetachGet(id, node), bad) == Resume(UnstageGet(id, node), bad) == done
      && Resume(UnmountCall(id, path), bad) == Resume(DeleteCall(id), bad) == done
  {
  }

  lemma MissingEnds(t: Task, id: string, hosts: Hosts, rows: Table, w: World, budget: nat)
    requires !t.Finished? && id !in rows && Resume(t, Error(NotFound)).Finished?
    requires var r := RequestOf(t); (r.Get? || r.Call? || r.Remove?) && r.id == id
    ensures Alone(t, hosts, rows, w, budget) == CsiResult(rows, w, budget, Resume(t, Error(NotFound)).reply)
  {
    hide Alone, Resume, RequestOf, Handle;
    AloneSends(t, hosts, rows, w, budget);
    AloneEnds(Resume(t, Error(NotFound)).reply, hosts, rows, w, budget);
  }

  /** One backend call whose answer ends the task. */
  lemma CallEnds(t: Task, id: string, op: Op, reply: CsiReply, hosts: Hosts, rows: Table, w: World, budget: nat)
    requires !t.Finished? && RequestOf(t) == Request.Call(id, op) && id in rows
    requires Resume(t, Handle(op, hosts, rows[id], w, budget).reply) == Finished(reply)
    ensures var o := Handle(op, hosts, rows[id], w, budget);
      Alone(t, hosts, rows, w, budget) == CsiResult(rows[id := o.volume], o.run.world, o.run.left, reply)
  {
    hide Alone, Handle, Resume;
    var o := Handle(op, hosts, rows[id], w, budget);
    AloneSends(t, hosts, rows, w, budget);
    AloneEnds(reply, hosts, rows[id := o.volume], o.run.world, o.run.left);
  }

  /** A backend call that finds its work done changes nothing. */
  lemma CallPasses(t: Task, id: string, op: Op, hosts: Hosts, rows: Table, w: World, budget: nat)
    requires !t.Finished? && RequestOf(t) == Request.Call(id, op) && id in rows
    requires INITIAL <= rows[id].status <= MOUNTED && AlreadySo(op, rows[id])
    ensures Alone(t, hosts, rows, w, budget) == Alone(Resume(t, Ok(rows[id])), hosts, rows, w, budget)
  {
    hide Alone, Handle, Resume, AlreadySo, OutOfOrder, HostMissing;
    CallsAnswer(op, hosts, rows[id], w, budget);
    AloneSends(t, hosts, rows, w, budget);
    assert rows[id := rows[id]] == rows;
  }

  lemma GetPasses(t: Task, id: string, hosts: Hosts, rows: Table, w: World, budget: nat)
    requires !t.Finished? && RequestOf(t) == Get(id) && id in rows
    ensures Alone(t, hosts, rows, w, budget) == Alone(Resume(t, Ok(rows[id])), hosts, rows, w, budget)
  {
    hide Alone, Resume;
    AloneSends(t, hosts, rows, w, budget);
  }

  /** Attaching a volume that is attached succeeds on its own node and is refused on any other; nothing changes. */
  lemma AttachAttached(id: string, node: string, server: string, hosts: Hosts, rows: Table, w: World, budget: nat)
    requires id in rows && CONNECTED <= rows[id].status <= MOUNTED && rows[id].clientHost != ""
    ensures Alone(AttachGet(id, node, server), hosts, rows, w, budget)
         == CsiResult(rows, w, budget, if rows[id].clientHost == node then Succeeded else Fault(CsiFailedPrecondition))
  {
    hide Alone;
    var kind := rows[id].transport.kind;
    GetPasses(AttachGet(id, node, server), id, hosts, rows, w, budget);
    CallPasses(AttachPublish(id, node, server, kind), id, Publish(kind, server), hosts, rows, w, budget);
    CallPasses(AttachConnect(id, node), id, Connect(node), hosts, rows, w, budget);
    AloneEnds(if rows[id].clientHost == node then Succeeded else Fault(CsiFailedPrecondition), hosts, rows, w, budget);
  }

  /** Detaching from a node that does not hold the volume succeeds and changes nothing. */
  lemma DetachElsewhere(id: string, node: string, hosts: Hosts, rows: Table, w: World, budget: nat)
    requires id in rows && node != "" && rows[id].clientHost != "" && rows[id].clientHost != node
    ensures Alone(DetachGet(id, node), hosts, rows, w, budget) == CsiResult(rows, w, budget, Succeeded)
  {
    hide Alone;
    GetPasses(DetachGet(id, node), id, hosts, rows, w, budget);
    AloneEnds(Succeeded, hosts, rows, w, budget);
  }

  /** Detaching a volume that is not published succeeds; one that is mounted is refused; neither changes anything. */
  lemma DetachEnds(id: string, node: string, hosts: Hosts, rows: Table, w: World, budget: nat)
    requires id in rows && rows[id].clientHost == node && INITIAL <= rows[id].status <= MOUNTED
    ensures rows[id].status == INITIAL ==>
              Alone(DetachGet(id, node), hosts, rows, w, budget) == CsiResult(rows, w, budget, Succeeded)
    ensures rows[id].status == MOUNTED ==>
              Alone(DetachGet(id, node), hosts, rows, w, budget)
              == CsiResult(rows, w, budget, Fault(CsiInvalidArgument))
  {
    hide Alone;
    GetPasses(DetachGet(id, node), id, hosts, rows, w, budget);
    if rows[id].status == INITIAL {
      AloneEnds(Succeeded, hosts, rows, w, budget);
    } else if rows[id].status == MOUNTED {
      CallsAnswer(Disconnect, hosts, rows[id], w, budget);
      RefusedStays(Disconnect, hosts, rows[id], w, budget);
      CallEnds(DetachDisconnect(id), id, Disconnect, Fault(CsiInvalidArgument), hosts, rows, w, budget);
      assert rows[id := rows[id]] == rows;
    }
    hide Handle;
  }

  lemma RefusedStays(op: Op, hosts: Hosts, v: Volume, w: World, budget: nat)
    requires Handle(op, hosts, v, w, budget).reply == Error(InvalidArgument)
    ensures var o := Handle(op, hosts, v, w, budget);
      o.volume == v && o.run.world == w && o.run.left == budget
  {
    hide PlanOf, Execute, Persist;
  }

  /** Staging a staged volume succeeds on its own path and is refused on any other; nothing changes. */
  lemma StageStaged(id: string, host: string, path: string, hosts: Hosts, rows: Table, w: World, budget: nat)
    requires id in rows && rows[id].IsStaged()
    ensures Alone(StageGet(id, host, path), hosts, rows, w, budget)
         == CsiResult(rows, w, budget, if rows[id].stagingPath == path then Succeeded else Fault(CsiFailedPrecondition))
  {
    hide Alone;
    GetPasses(StageGet(id, host, path), id, hosts, rows, w, budget);
    AloneEnds(if rows[id].stagingPath == path then Succeeded else Fault(CsiFailedPrecondition), hosts, rows, w, budget);
  }

  function Ended(reply: Reply): CsiReply {
    if reply.Ok? then Succeeded else MapError(reply)
  }

  /**
   * Staging an attached volume is one backend call, whichever node asks: a node that does not
   * hold the volume is answered as if it did, and the device is mounted on the node that does.
   */
  lemma StageAttached(id: string, host: string, path: string, hosts: Hosts, rows: Table, w: World, budget: nat)
    requires id in rows && rows[id].status == CONNECTED
    ensures var o := Handle(Stage(path), hosts, rows[id], w, budget);
      && Alone(StageGet(id, host, path), hosts, rows, w, budget)
         == CsiResult(rows[id := o.volume], o.run.world, o.run.left, Ended(o.reply))
      && forall h, p :: h != rows[id].clientHost ==> MountsAt(o.run.world.mounts, h, p) == MountsAt(w.mounts, h, p)
  {
    hide Alone, Handle, MountsAt;
    GetPasses(StageGet(id, host, path), id, hosts, rows, w, budget);
    if rows[id].clientHost != host {
      CallPasses(StageConnect(id, host, path), id, Connect(host), hosts, rows, w, budget);
    }
    CallEnds(StageStage(id, path), id, Stage(path), Ended(Handle(Stage(path), hosts, rows[id], w, budget).reply), hosts,
             rows, w, budget);
    StageStaysOnClient(path, hosts, rows[id], w, budget);
  }

  predicate MountsOn(host: string, c: Command) {
    (c.MountDevice? || c.MountBind? || c.Umount?) ==> c.host == host
  }

  lemma {:induction false} ScriptStaysOn(host: string, script: seq<Command>, w: World, budget: nat, h: string,
                                         p: string)
    requires forall c :: c in script ==> MountsOn(host, c)
    requires h != host
    ensures MountsAt(Execute(script, w, budget).world.mounts, h, p) == MountsAt(w.mounts, h, p)
    decreases |script|
  {
    hide Apply, Answers, MountsAt, MountsOn;
    if script != [] && budget != 0 && Answers(script[0], w) {
      CommandStaysOn(host, script[0], w, h, p);
      ScriptStaysOn(host, script[1..], Apply(script[0], w), budget - 1, h, p);
    }
  }

  lemma CommandStaysOn(host: string, c: Command, w: World, h: string, p: string)
    requires MountsOn(host, c) && h != host
    ensures MountsAt(Apply(c, w).mounts, h, p) == MountsAt(w.mounts, h, p)
  {
    match c {
      case MountDevice(_, t, path) => PushedChanges(w.mounts, host, path, Device(t));
      case MountBind(_, s, path) => PushedChanges(w.mounts, host, path, Bind(s));
      case Umount(_, path) => PoppedChanges(w.mounts, host, path);
      case _ =>
    }
    hide Backing, MountsAt, Pushed, Popped;
  }

  lemma StageStaysOnClient(path: string, hosts: Hosts, v: Volume, w: World, budget: nat)
    ensures var w1 := Handle(Stage(path), hosts, v, w, budget).run.world;
      forall h, p :: h != v.clientHost ==> MountsAt(w1.mounts, h, p) == MountsAt(w.mounts, h, p)
  {
    var plan := StagePlan(hosts, v, w, path);
    if plan.Act? {
      StageScriptOnClient(hosts, v, w, path);
      hide StagePlan, Execute, MountsAt, MountsOn;
      forall h, p | h != v.clientHost
        ensures MountsAt(Execute(plan.script, w, budget).world.mounts, h, p) == MountsAt(w.mounts, h, p)
      {
        ScriptStaysOn(v.clientHost, plan.script, w, budget, h, p);
      }
    }
    hide StagePlan, Execute, MountsAt;
  }

  lemma StageScriptOnClient(hosts: Hosts, v: Volume, w: World, path: string)
    requires StagePlan(hosts, v, w, path).Act?
    ensures forall c :: c in StagePlan(hosts, v, w, path).script ==> MountsOn(v.clientHost, c)
  {
    hide Lookup, Backing;
  }

  /** Unstaging on a node that does not hold the volume leaves its links alone, and keeps it attached. */
  lemma UnstageElsewhere(id: string, host: string, hosts: Hosts, rows: Table, w: World, budget: nat)
    requires id in rows && rows[id].clientHost != host && INITIAL <= rows[id].status <= MOUNTED
    ensures var r := Alone(UnstageGet(id, host), hosts, rows, w, budget);
      && r.world.targets == w.targets && r.world.sessions == w.sessions
      && id in r.rows && r.rows == rows[id := r.rows[id]] && (rows[id].IsConnected() ==> r.rows[id].IsConnected())
      && r.rows[id].clientHost == rows[id].clientHost
      && (!rows[id].IsStaged() ==> r == CsiResult(rows, w, budget, Succeeded))
  {
    hide Alone, Handle, Moves;
    GetPasses(UnstageGet(id, host), id, hosts, rows, w, budget);
    if rows[id].IsStaged() {
      var o := Handle(Unstage, hosts, rows[id], w, budget);
      CallEnds(UnstageUnstage(id, false), id, Unstage, Ended(o.reply), hosts, rows, w, budget);
      CallSides(Unstage, hosts, rows[id], w, budget);
      UnstageKeepsClient(hosts, rows[id], w, budget);
    } else {
      AloneEnds(Succeeded, hosts, rows, w, budget);
      assert rows[id := rows[id]] == rows;
    }
  }

  lemma UnstageKeepsClient(hosts: Hosts, v: Volume, w: World, budget: nat)
    requires INITIAL <= v.status <= MOUNTED
    ensures var u := Handle(Unstage, hosts, v, w, budget).volume;
      u.clientHost == v.clientHost && (v.IsConnected() ==> u.IsConnected())
  {
    CallMoves(Unstage, hosts, v, w, budget);
    hide Handle, Effective;
  }

  /** Unmounting a path that is not listed succeeds and changes nothing; so does mounting one that is. */
  lemma MountsAsListed(id: string, path: string, hosts: Hosts, rows: Table, w: World, budget: nat)
    requires id in rows && INITIAL <= rows[id].status <= MOUNTED
    ensures path !in rows[id].targetPaths ==>
              Alone(UnmountCall(id, path), hosts, rows, w, budget) == CsiResult(rows, w, budget, Succeeded)
    ensures path in rows[id].targetPaths && rows[id].IsStaged() ==>
              Alone(MountCall(id, path), hosts, rows, w, budget) == CsiResult(rows, w, budget, Succeeded)
  {
    hide Alone;
    if path !in rows[id].targetPaths {
      CallPasses(UnmountCall(id, path), id, Unmount(path), hosts, rows, w, budget);
    } else if rows[id].IsStaged() {
      CallPasses(MountCall(id, path), id, Mount(path), hosts, rows, w, budget);
    }
    AloneEnds(Succeeded, hosts, rows, w, budget);
  }

  /** A volume that is large enough is reported as it is. */
  lemma ExpandEnough(id: string, required: int, hosts: Hosts, rows: Table, w: World, budget: nat)
    requires id in rows && rows[id].capacityBytes >= required
    ensures Alone(ExpandGet(id, required), hosts, rows, w, budget)
         == CsiResult(rows, w, budget, Sized(rows[id].capacityBytes))
  {
    hide Alone;
    GetPasses(ExpandGet(id, required), id, hosts, rows, w, budget);
    AloneEnds(Sized(rows[id].capacityBytes), hosts, rows, w, budget);
  }

  /** An expansion the service cannot finish answers with its code, or finds the backend down. */
  lemma ExpandFails(id: string, required: int, hosts: Hosts, rows: Table, w: World, budget: nat)
    requires id in rows && rows[id].capacityBytes < required
    ensures var s := ServeUpdate(ExpandUpdates(id, required), hosts, rows, w, budget);
      var r := Alone(ExpandGet(id, required), hosts, rows, w, budget);
      && r.rows == s.rows && r.world == s.run.world
      && (s.reply == Error(Internal) <==> r.reply == Fault(CsiInternal))
      && (s.reply == Panic <==> r.reply == Fault(CsiUnavailable))
  {
    hide Alone, ServeUpdate;
    var s := ServeUpdate(ExpandUpdates(id, required), hosts, rows, w, budget);
    var last := Resume(ExpandUpdate(id, required), s.reply);
    GetPasses(ExpandGet(id, required), id, hosts, rows, w, budget);
    AloneSends(ExpandUpdate(id, required), hosts, rows, w, budget);
    AloneEnds(last.reply, hosts, s.rows, s.run.world, s.run.left);
  }

  /**
   * An unmount call fails only when its one command does: it answers success also when the client host
   * is gone, and then leaves the path listed and mounted.
   */
  lemma UnmountSucceeds(id: string, path: string, hosts: Hosts, rows: Table, w: World, budget: nat)
    requires id in rows && INITIAL <= rows[id].status <= MOUNTED && path in rows[id].targetPaths
    ensures var r := Alone(UnmountCall(id, path), hosts, rows, w, budget);
      var missing := Lookup(hosts, rows[id].clientHost).None?;
      && (r.reply == Succeeded <==> missing || budget > 0)
      && (missing || budget == 0 ==> r.rows == rows && r.world == w)
      && (!missing && budget > 0 ==> r.world == Apply(Umount(rows[id].clientHost, path), w))
  {
    var o := Handle(Unmount(path), hosts, rows[id], w, budget);
    ExecuteOne(Umount(rows[id].clientHost, path), w, budget);
    UnmountOutcome(path, hosts, rows[id], w, budget);
    hide Alone, Handle, Lookup, Apply, Execute;
    CallEnds(UnmountCall(id, path), id, Unmount(path), if o.reply.Ok? || IsGone(o.reply) then Succeeded
                                                         else MapError(o.reply), hosts, rows, w, budget);
    assert rows[id := rows[id]] == rows;
  }

  lemma UnmountOutcome(path: string, hosts: Hosts, v: Volume, w: World, budget: nat)
    requires path in v.targetPaths
    ensures var o, umount := Handle(Unmount(path), hosts, v, w, budget), Umount(v.clientHost, path);
      if Lookup(hosts, v.clientHost).None? then o == Outcome(v, Run(w, budget, [], false), Error(NotFound))
      else if budget == 0 then o == Outcome(v, Run(w, 0, [], false), Error(Internal))
      else o.reply.Ok? && o.run.world == Apply(umount, w)
  {
    ExecuteOne(Umount(v.clientHost, path), w, budget);
    hide Execute, Apply, Lookup, Persist, IndexOf, Without;
  }

  /**
   * A published volume that was updated has lost its payload, and attaching it finds the
   * backend down: the service dereferences what is not there.
   */
  lemma AttachCut(id: string, node: string, server: string, hosts: Hosts, rows: Table, w: World, budget: nat)
    requires id in rows && rows[id].status == PUBLISHED && rows[id].transport.Payload().None?
    requires rows[id].transport.kind != Unspecified
    requires Lookup(hosts, rows[id].serverHost).Some? && Lookup(hosts, node).Some?
    ensures Alone(AttachGet(id, node, server), hosts, rows, w, budget)
         == CsiResult(rows, w, budget, Fault(CsiUnavailable))
  {
    var kind := rows[id].transport.kind;
    assert Handle(Connect(node), hosts, rows[id], w, budget) == Outcome(rows[id], Run(w, budget, [], false), Panic);
    hide Alone, Handle;
    GetPasses(AttachGet(id, node, server), id, hosts, rows, w, budget);
    CallPasses(AttachPublish(id, node, server, kind), id, Publish(kind, server), hosts, rows, w, budget);
    CallEnds(AttachConnect(id, node), id, Connect(node), Fault(CsiUnavailable), hosts, rows, w, budget);
    assert rows[id := rows[id]] == rows;
  }

  /** What a create call asks for is what the new row says; the capacity is 1 GiB when none is asked for. */
  lemma CreateMakes(name: string, parent: string, mode: Mode, required: int, sparse: bool,
                    options: seq<VolumeOption>, kind: TransportKind, hosts: Hosts, rows: Table, w: World, budget: nat)
    requires "vol_" + name !in rows && required >= 0
    ensures var call := CreateCall(NewVolume(name, parent, mode, required, sparse, options, kind));
      var r, id := Alone(call, hosts, rows, w, budget), "vol_" + name;
      && r.reply == Sized(if required == 0 then 1073741824 else required) && r.world == w && id in r.rows
      && r.rows == rows[id := r.rows[id]]
      && var v := r.rows[id];
      && v.id == id && v.name == "volumes/" + id && v.datasetID == parent + "/" + id && v.status == INITIAL
      && v.capacityBytes == r.reply.capacityBytes && v.mode == mode && v.sparse == sparse && v.options == options
      && v.transport == Bare(kind) && v.serverHost == "" && v.clientHost == "" && v.stagingPath == ""
      && v.targetPaths == [] && v.metadata == map[]
  {
    CreateAlone(NewVolume(name, parent, mode, required, sparse, options, kind), hosts, rows, w, budget);
    hide Alone;
  }
}
