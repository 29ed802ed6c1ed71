/** When a call finds nothing to do, comes out of order, or misses a host. */
module CallAnswers {
  import opened Names
  import opened Volumes
  import opened Clusters
  import opened Plans
  import opened VolumeServices

  /** What the call asks for is so already. */
  predicate AlreadySo(op: Op, v: Volume) {
    match op
    case Publish(_, _) => v.status >= PUBLISHED
    case Unpublish => v.status < PUBLISHED
    case Connect(_) => v.status >= CONNECTED
    case Disconnect => v.status == PUBLISHED
    case Stage(path) => v.status >= STAGED && path == v.stagingPath
    case Unstage => v.status < STAGED
    case Mount(path) => v.status >= STAGED && path in v.targetPaths
    case Unmount(path) => path !in v.targetPaths
  }

  /** The row's status is too low or too high for the call. */
  predicate OutOfOrder(op: Op, v: Volume) {
    match op
    case Publish(_, _) => false
    case Unpublish => v.status >= CONNECTED
    case Connect(_) => v.status < PUBLISHED
    case Disconnect => v.status < PUBLISHED || v.status == MOUNTED
    case Stage(path) => v.status < CONNECTED || (v.status >= STAGED && path != v.stagingPath)
    case Unstage => v.status == MOUNTED
    case Mount(_) => v.status < STAGED
    case Unmount(_) => false
  }

  /** A host the call needs is not known. Unstaging answers that as an internal error. */
  predicate HostMissing(op: Op, hosts: Hosts, v: Volume) {
    match op
    case Publish(_, server) => Lookup(hosts, server).None?
    case Unpublish => Lookup(hosts, v.serverHost).None?
    case Connect(client) => Lookup(hosts, v.serverHost).None? || Lookup(hosts, client).None?
    case Disconnect => Lookup(hosts, v.serverHost).None? || Lookup(hosts, v.clientHost).None?
    case Stage(_) => Lookup(hosts, v.clientHost).None?
    case Unstage => false
    case Mount(_) => Lookup(hosts, v.clientHost).None?
    case Unmount(_) => Lookup(hosts, v.clientHost).None?
  }

  /**
   * A call answers with the row as it is, at once and without a command, exactly when what it
   * asks for is so already; it is refused exactly when it comes out of order or misses a host,
   * and then changes nothing.
   */
  lemma CallsAnswer(op: Op, hosts: Hosts, v: Volume, w: World, budget: nat)
    requires INITIAL <= v.status <= MOUNTED
    ensures var o := Handle(op, hosts, v, w, budget);
      && (AlreadySo(op, v) ==> o == Outcome(v, Run(w, budget, [], true), Ok(v)))
      && (o.reply.Ok? && !Effective(op, hosts, v, w, budget) <==> AlreadySo(op, v))
      && (o.reply == Error(InvalidArgument) <==> OutOfOrder(op, v))
      && (o.reply == Error(NotFound) <==> !AlreadySo(op, v) && !OutOfOrder(op, v) && HostMissing(op, hosts, v))
      && (OutOfOrder(op, v) || HostMissing(op, hosts, v) ==> o.volume == v && o.run.world == w && o.run.log == [])
  {
    hide Execute, TargetID, ClientID, Lookup, PublishScript, StageScript, MountScript, Persist;
  }

  /**
   * An effective call answers with the row it has written, except that the answer to an
   * unpublish, a disconnect or an unstage no longer names what it released and the row still does.
   */
  lemma AnswersWithRow(op: Op, hosts: Hosts, v: Volume, w: World, budget: nat)
    requires Effective(op, hosts, v, w, budget) && (op.Stage? ==> op.stagingPath != "")
    ensures var o := Handle(op, hosts, v, w, budget);
      o.reply == Ok(o.volume.(
        serverHost := if op.Unpublish? then "" else o.volume.serverHost,
        clientHost := if op.Disconnect? then "" else o.volume.clientHost,
        stagingPath := if op.Unstage? then "" else o.volume.stagingPath))
  {
    hide Execute, TargetID, ClientID, PublishScript, StageScript, MountScript;
  }

  /** Unstaging with the client host gone fails without a command. */
  lemma UnstageMissesHost(hosts: Hosts, v: Volume, w: World, budget: nat)
    requires v.status == STAGED && budget >= 1
    ensures Handle(Unstage, hosts, v, w, budget).reply == Error(Internal) <==> Lookup(hosts, v.clientHost).None?
  {
    ExecuteOne(Umount(v.clientHost, v.stagingPath), w, budget);
    hide Execute, Lookup;
  }

  /** A deletion succeeds and takes the row, with its zvol if it still names a host, or changes nothing. */
  lemma DeleteRemoves(id: string, hosts: Hosts, rows: Table, w: World, budget: nat)
    ensures var s := ServeDelete(id, hosts, rows, w, budget);
      if s.reply.Ok? then
        && id in rows && !rows[id].IsPublished() && s.rows == rows - {id}
        && s.run.world == (if rows[id].serverHost == "" then w
                           else Apply(DestroyZvol(rows[id].serverHost, rows[id].datasetID), w))
      else s.rows == rows && s.run.world == w
    ensures budget > 0 ==>
      (ServeDelete(id, hosts, rows, w, budget).reply.Ok? <==>
       id in rows && !rows[id].IsPublished() &&
       (rows[id].serverHost != "" ==> Lookup(hosts, rows[id].serverHost).Some?))
  {
    if id in rows {
      ExecuteOne(DestroyZvol(rows[id].serverHost, rows[id].datasetID), w, budget);
    }
    hide Execute, Apply, Lookup;
  }
}
