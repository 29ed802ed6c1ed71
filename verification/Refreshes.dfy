/** What an update stores, and what it does to the hosts. */
module Refreshes {
  import opened Wrappers
  import opened Names
  import opened Structs
  import opened Volumes
  import opened Clusters
  import opened Conversions
  import opened Plans
  import opened VolumeServices
  import opened Lifecycles

  // -- The row --------------------------------------------------------------------------

  /** The option says what the object says; a missing or ill-typed part is empty. */
  predicate Spells(o: VolumeOption, item: Value) {
    && item.StructValue?
    && var fields := item.fields;
    && (if "key" in fields && fields["key"].StringValue? then o.key == fields["key"].text else o.key == "")
    && (if "value" in fields && fields["value"].StringValue? then o.value == fields["value"].text else o.value == "")
  }

  predicate SpellAll(options: seq<VolumeOption>, items: seq<Value>) {
    |options| == |items| && forall i :: 0 <= i < |options| ==> Spells(options[i], items[i])
  }

  predicate Accepted(v: Volume, updates: map<string, Value>) {
    WellTyped(updates) && ("capacity_bytes" in updates ==> Int64OfFloat(updates["capacity_bytes"].number) >= 0)
  }

  /**
   * An accepted update stores the struct, the capacity and the options it was given. Neither
   * a capacity of zero nor an empty list of options changes what is stored.
   */
  lemma UpdateStoresGiven(v: Volume, updates: map<string, Value>)
    requires Accepted(v, updates) && v.capacityBytes >= 0
    ensures var u := Amended(v, updates);
      && u.metadata == (if "struct" in updates then updates["struct"].fields else v.metadata)
      && (if "options" in updates && updates["options"].values != []
          then SpellAll(u.options, updates["options"].values) else u.options == v.options)
      && u.capacityBytes
         == (if "capacity_bytes" in updates && Int64OfFloat(updates["capacity_bytes"].number) != 0
             then Int64OfFloat(updates["capacity_bytes"].number) else v.capacityBytes)
  {
    hide Int64OfFloat;
    if "options" in updates {
      OptionsSpell(updates["options"].values);
    }
  }

  lemma OptionsSpell(items: seq<Value>)
    requires AllStructs(items)
    ensures SpellAll(OptionsOf(items), items) && (OptionsOf(items) == [] <==> items == [])
  {
  }

  // -- The hosts ------------------------------------------------------------------------

  /** The log sets the size of the zvol, then each option once and in order. */
  predicate SetsProperties(v: Volume, log: seq<Command>) {
    && |log| == 1 + |v.options|
    && log[0] == SetVolsize(v.serverHost, v.datasetID, v.capacityBytes)
    && forall i :: 0 <= i < |v.options| ==>
         log[1 + i] == SetOption(v.serverHost, v.datasetID, v.options[i].key, v.options[i].value)
  }

  /** The client sees the new size: it rescans the target, and grows a filesystem on its device. */
  function Grows(hosts: Hosts, v: Volume): seq<Command> {
    var target := TargetOf(hosts, v);
    if !v.IsConnected() || v.clientHost == "" then []
    else if v.mode != Filesystem then [Rescan(v.clientHost, target)]
    else [Rescan(v.clientHost, target), FindDevice(v.clientHost, target), ResizeFilesystem(v.clientHost, target)]
  }

  /** The world with the zvol, if it is there, resized. */
  function Resized(v: Volume, w: World): World {
    var key := At(v.serverHost, v.datasetID);
    if v.serverHost != "" && key in w.zvols then w.(zvols := w.zvols[key := v.capacityBytes]) else w
  }

  lemma {:induction false} IdleLog(log: seq<Command>, w: World)
    requires forall c :: c in log ==> c.SetOption? || c.Rescan? || c.FindDevice? || c.ResizeFilesystem?
    ensures Replay(log, w) == w
    decreases |log|
  {
    if log != [] {
      assert Apply(log[0], w) == w;
      IdleLog(log[1..], w);
    }
  }

  lemma ServerPart(v: Volume, w: World)
    ensures v.serverHost != "" ==> SetsProperties(v, ServerRefresh(v))
    ensures v.serverHost == "" ==> ServerRefresh(v) == []
    ensures Replay(ServerRefresh(v), w) == Resized(v, w)
  {
    var resize := SetVolsize(v.serverHost, v.datasetID, v.capacityBytes);
    var options := OptionScript(v.serverHost, v.datasetID, v.options);
    if v.serverHost != "" {
      ReplayAppend([resize], options, w);
      assert [resize][1..] == [];
      ReplayEmpty(Apply(resize, w));
      IdleLog(options, Apply(resize, w));
    } else {
      ReplayEmpty(w);
    }
  }

  lemma ClientPart(hosts: Hosts, v: Volume, w: World)
    requires ClientRefresh(hosts, v).failure.None?
    ensures ClientRefresh(hosts, v).script == Grows(hosts, v) && Replay(Grows(hosts, v), w) == w
  {
    var target := TargetOf(hosts, v);
    var rescan, find, grow :=
      Rescan(v.clientHost, target), FindDevice(v.clientHost, target), ResizeFilesystem(v.clientHost, target);
    assert [rescan] + ([find] + [grow]) == [rescan, find, grow] && [rescan] + [] == [rescan];
    IdleLog(Grows(hosts, v), w);
    hide TargetID, Apply, Replay;
  }

  /** The commands of a refresh: properties on the server if there is one, then growth on the client. */
  ghost predicate Refreshed(hosts: Hosts, v: Volume, log: seq<Command>) {
    exists server :: log == server + Grows(hosts, v)
      && if v.serverHost == "" then server == [] else SetsProperties(v, server)
  }

  lemma RefreshRuns(hosts: Hosts, given: Volume, w: World, budget: nat)
    requires ClientRefresh(hosts, given).failure.None?
    ensures var r := Execute(ServerRefresh(given) + ClientRefresh(hosts, given).script, w, budget);
      r.ok ==> r.world == Resized(given, w) && Refreshed(hosts, given, r.log)
  {
    hide ServerRefresh, ClientRefresh, Execute, Replay, Grows, Resized, SetsProperties;
    var server := ServerRefresh(given);
    ServerPart(given, w);
    ClientPart(hosts, given, Resized(given, w));
    ExecuteIsPrefix(server + Grows(hosts, given), w, budget);
    ReplayAppend(server, Grows(hosts, given), w);
  }

  /** A successful update in full: the row, the size of the zvol, and every command in order. */
  lemma UpdateRefreshes(hosts: Hosts, rows: Table, updates: map<string, Value>, w: World, budget: nat)
    ensures var s, id := ServeUpdate(updates, hosts, rows, w, budget), StringField(updates, "id");
      s.reply.Ok? ==>
        && id in rows && s.rows == rows[id := Amended(rows[id], updates)] && WellTyped(updates)
        && s.reply.volume == GivenUpdate(rows[id], updates)
        && s.run.world == Resized(s.reply.volume, w)
        && Refreshed(hosts, s.reply.volume, s.run.log)
  {
    var s, id := ServeUpdate(updates, hosts, rows, w, budget), StringField(updates, "id");
    if s.reply.Ok? {
      hide ServerRefresh, ClientRefresh, Execute, GivenUpdate, WellTyped, Persist, Refreshed, Resized;
      AcceptedGiven(hosts, rows, updates, w, budget);
      var given := GivenUpdate(rows[id], updates);
      RefreshRuns(hosts, given, w, budget);
    }
  }

  /** What an update is refused for, before anything changes. */
  lemma UpdateRefused(hosts: Hosts, rows: Table, updates: map<string, Value>, w: World, budget: nat)
    ensures var s, id := ServeUpdate(updates, hosts, rows, w, budget), StringField(updates, "id");
      && (s.reply == Error(NotFound) <==> "id" in updates && id !in rows)
      && (s.reply == Error(InvalidArgument) <==> "id" !in updates || (id in rows && !WellTyped(updates)))
      && (s.reply in {Error(NotFound), Error(InvalidArgument)} ==>
            s.rows == rows && s.run.world == w && s.run.log == [])
  {
    hide Execute, ServerRefresh, TargetID, GivenUpdate, Persist;
  }

  /** An accepted update keeps the row it has written, whichever command then fails. */
  lemma UpdateKeepsRow(hosts: Hosts, rows: Table, updates: map<string, Value>, w: World, budget: nat)
    requires "id" in updates && StringField(updates, "id") in rows
    requires Accepted(rows[StringField(updates, "id")], updates) && rows[StringField(updates, "id")].capacityBytes >= 0
    ensures var id := StringField(updates, "id");
      ServeUpdate(updates, hosts, rows, w, budget).rows == rows[id := Amended(rows[id], updates)]
  {
    hide Execute, ServerRefresh, ClientRefresh, Int64OfFloat, Persist;
  }

  /** The answered row agrees with the stored one where the update refreshes the hosts by it. */
  lemma GivenFields(v: Volume, updates: map<string, Value>)
    requires WellTyped(updates) && GivenUpdate(v, updates).capacityBytes >= 0
    ensures var g, u := GivenUpdate(v, updates), Amended(v, updates);
      && g.serverHost == u.serverHost == v.serverHost && g.datasetID == u.datasetID == v.datasetID
      && g.clientHost == v.clientHost && g.status == v.status && g.mode == v.mode && g.id == v.id
      && g.transport.kind == v.transport.kind
      && (g.capacityBytes != 0 ==> u.capacityBytes == g.capacityBytes)
      && (g.options != [] ==> u.options == g.options)
  {
  }

  /**
   * After a successful update of a hosted volume its zvol is as large as its row says, exactly
   * unless the update asked for a capacity of zero while the row has another.
   */
  lemma UpdateResizes(hosts: Hosts, rows: Table, updates: map<string, Value>, w: World, budget: nat)
    ensures var s, id := ServeUpdate(updates, hosts, rows, w, budget), StringField(updates, "id");
      s.reply.Ok? && rows[id].serverHost != "" && At(rows[id].serverHost, rows[id].datasetID) in w.zvols ==>
        var key := At(rows[id].serverHost, rows[id].datasetID);
        && key in s.run.world.zvols
        && (s.run.world == w.(zvols := w.zvols[key := s.rows[id].capacityBytes])
            <==> s.reply.volume.capacityBytes != 0 || s.rows[id].capacityBytes == 0)
  {
    var s, id := ServeUpdate(updates, hosts, rows, w, budget), StringField(updates, "id");
    UpdateRefreshes(hosts, rows, updates, w, budget);
    if s.reply.Ok? {
      AcceptedGiven(hosts, rows, updates, w, budget);
      GivenFields(rows[id], updates);
      ZeroIsKept(rows[id], updates);
      hide ServeUpdate, GivenUpdate, Amended, WellTyped, Grows, SetsProperties;
      var key := At(rows[id].serverHost, rows[id].datasetID);
      if key in w.zvols && s.run.world == w.(zvols := w.zvols[key := s.rows[id].capacityBytes]) {
        assert s.run.world.zvols[key] == s.rows[id].capacityBytes;
      }
    }
  }

  lemma ZeroIsKept(v: Volume, updates: map<string, Value>)
    requires WellTyped(updates) && GivenUpdate(v, updates).capacityBytes >= 0
    ensures GivenUpdate(v, updates).capacityBytes == 0 ==> Amended(v, updates).capacityBytes == v.capacityBytes
  {
  }

  lemma AcceptedGiven(hosts: Hosts, rows: Table, updates: map<string, Value>, w: World, budget: nat)
    requires ServeUpdate(updates, hosts, rows, w, budget).reply.Ok?
    ensures var id := StringField(updates, "id");
      id in rows && WellTyped(updates) && GivenUpdate(rows[id], updates).capacityBytes >= 0
  {
    hide Execute, ServerRefresh, ClientRefresh, GivenUpdate, WellTyped, Persist;
  }

  /**
   * With no command failing, an accepted update of a row of the lifecycle on known hosts succeeds
   * exactly when a connected volume's server is one by its role, and a connected filesystem
   * volume has a device. It panics exactly when that server is none by its role.
   */
  lemma UpdateSucceeds(hosts: Hosts, rows: Table, updates: map<string, Value>, w: World, budget: nat)
    requires "id" in updates && StringField(updates, "id") in rows && WellTyped(updates)
    requires var v := rows[StringField(updates, "id")];
      && GivenUpdate(v, updates).capacityBytes >= 0 && Lifecycle(hosts, v)
      && (v.serverHost != "" ==> Lookup(hosts, v.serverHost).Some?)
      && budget >= 4 + |GivenUpdate(v, updates).options|
    ensures var v := rows[StringField(updates, "id")];
      ServeUpdate(updates, hosts, rows, w, budget).reply.Ok?
      <==> (v.IsConnected() ==>
              && hosts[v.serverHost].role.Server?
              && (v.mode == Filesystem ==> Backing(Resized(GivenUpdate(v, updates), w), v.clientHost,
                                                   TargetOf(hosts, v)).Some?))
    ensures var v := rows[StringField(updates, "id")];
      ServeUpdate(updates, hosts, rows, w, budget).reply == Panic
      <==> v.IsConnected() && hosts[v.serverHost].role.Client?
  {
    var v := rows[StringField(updates, "id")];
    var g := GivenUpdate(v, updates);
    var w1 := Resized(g, w);
    GivenFields(v, updates);
    RefreshTarget(hosts, v, g);
    ServerRuns(g, w, budget);
    hide Lifecycle, ServerRefresh, Execute, WellTyped, GivenUpdate, Persist, Backing, TargetOf, TargetID, Resized,
      OptionScript;
    ExecuteAppend(ServerRefresh(g), ClientRefresh(hosts, g).script, w, budget);
    var r := Execute(ServerRefresh(g), w, budget);
    if ClientRefresh(hosts, g).failure.None? {
      ClientRuns(hosts, g, w1, r.left);
    }
  }

  lemma RefreshTarget(hosts: Hosts, v: Volume, g: Volume)
    requires Lifecycle(hosts, v) && g.id == v.id && g.status == v.status
    requires g.serverHost == v.serverHost && g.clientHost == v.clientHost && g.transport.kind == v.transport.kind
    ensures TargetOf(hosts, g) == TargetOf(hosts, v)
    ensures v.IsConnected() ==>
      && v.clientHost != "" && Lookup(hosts, v.clientHost).Some? && Lookup(hosts, v.serverHost).Some?
      && TargetID(hosts[v.serverHost], g.transport.kind, g.id).Some?
    ensures ClientRefresh(hosts, g).failure ==
      if v.IsConnected() && hosts[v.serverHost].role.Client? then Some(Panic) else None
  {
    hide ClientID, TargetName;
  }

  lemma {:induction false} PlainRuns(script: seq<Command>, w: World, budget: nat)
    requires forall c :: c in script ==> !c.FindDevice? && !c.Deny?
    requires budget >= |script|
    ensures var r := Execute(script, w, budget); r.ok && r.left == budget - |script|
    decreases |script|
  {
    hide Apply;
    if script != [] {
      PlainRuns(script[1..], Apply(script[0], w), budget - 1);
    }
  }

  lemma ServerRuns(v: Volume, w: World, budget: nat)
    requires budget >= 1 + |v.options|
    ensures var r := Execute(ServerRefresh(v), w, budget);
      r.ok && r.world == Resized(v, w) && r.left + 1 + |v.options| >= budget
  {
    ServerPart(v, w);
    PlainRuns(ServerRefresh(v), w, budget);
    ExecuteIsPrefix(ServerRefresh(v), w, budget);
    hide Execute, Replay, Resized;
  }

  lemma RescanIsIdle(host: string, target: string, w: World)
    ensures Apply(Rescan(host, target), w) == w
  {
  }

  lemma ClientRuns(hosts: Hosts, v: Volume, w: World, budget: nat)
    requires ClientRefresh(hosts, v).failure.None? && budget >= 3
    ensures Execute(ClientRefresh(hosts, v).script, w, budget).ok
       <==> (v.IsConnected() && v.clientHost != "" && v.mode == Filesystem ==>
               Backing(w, v.clientHost, TargetOf(hosts, v)).Some?)
  {
    var target := TargetOf(hosts, v);
    var rescan, find, grow :=
      Rescan(v.clientHost, target), FindDevice(v.clientHost, target), ResizeFilesystem(v.clientHost, target);
    hide ClientRefresh, Execute, TargetOf, Backing, Apply, Replay;
    ClientPart(hosts, v, w);
    if !v.IsConnected() || v.clientHost == "" {
      ExecuteEmpty(w, budget);
    } else {
      ExecuteOne(rescan, w, budget);
      if v.mode == Filesystem {
        RescanIsIdle(v.clientHost, target, w);
        assert [rescan, find, grow] == [rescan] + ([find] + [grow]);
        ExecuteAppend([rescan], [find] + [grow], w, budget);
        ExecuteTwo(find, grow, w, budget - 1);
      }
    }
  }
}
