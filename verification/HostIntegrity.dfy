/** No published volume ever names a host that is missing, whatever happens to the host table. */
module HostIntegrity {
  import opened Names
  import opened Structs
  import opened Volumes
  import opened Clusters
  import opened Conversions
  import opened Plans
  import opened VolumeServices
  import opened Lifecycles
  import opened HostSyncs

  /** Some host goes by the name. */
  ghost predicate Named(hosts: HostTable, name: string) {
    exists id :: id in hosts && HostName(id) == name
  }

  /** The hosts as the handlers find them, by name. */
  ghost predicate FoundByName(hosts: HostTable, found: Hosts) {
    forall name :: name in found <==> Named(hosts, name)
  }

  /** The part of a row's lifecycle that does not depend on the hosts. */
  predicate Shaped(v: Volume) {
    INITIAL <= v.status <= MOUNTED && (v.targetPaths != [] ==> v.IsMounted())
  }

  ghost predicate NamesHosts(hosts: HostTable, v: Volume) {
    && (v.IsPublished() ==> Named(hosts, v.serverHost))
    && (v.IsConnected() ==> Named(hosts, v.clientHost))
  }

  ghost predicate Integrity(hosts: HostTable, rows: Table) {
    && Canonical(hosts) && KeyedByID(rows)
    && forall id :: id in rows ==> Shaped(rows[id]) && NamesHosts(hosts, rows[id])
  }

  predicate Needs(v: Volume, name: string) {
    (v.IsPublished() && v.serverHost == name) || (v.IsConnected() && v.clientHost == name)
  }

  /** A volume is published from the host or connected to it. */
  ghost predicate Needed(rows: Table, name: string) {
    exists id :: id in rows && Needs(rows[id], name)
  }

  datatype Registry = Registry(hosts: HostTable, rows: Table)

  /** One step: a volume call, a change of the volume table, or a change of the host table. */
  datatype Deed =
    | Serving(id: string, op: Op, found: Hosts, world: World, budget: nat)
    | Amending(id: string, updates: map<string, Value>)
    | Dropping(id: string)
    | Adding(volume: ApiVolume)
    | SyncingHosts(configured: seq<HostConfig>, unread: set<string>, outcome: HostTable)
    | DeletingHost(id: string, failure: HostFailure)
    | CreatingHost(host: Host)

  /** Requests are valid, and a host sync ends as its method allows, successful or not. */
  ghost predicate Lawful(r: Registry, d: Deed) {
    match d
    case Serving(_, op, found, _, _) => Validated(op) && FoundByName(r.hosts, found)
    case Adding(volume) => volume.targetPaths == []
    case SyncingHosts(configured, unread, outcome) =>
      || outcome == Synced(configured, r.rows, unread, r.hosts)
      || (exists k :: 0 <= k < |configured| && outcome == Merged(configured[..k], r.hosts))
      || PartlySwept(configured, r.rows, unread, Merged(configured, r.hosts), outcome)
    case CreatingHost(host) => host.name == HostName(host.id)
    case Amending(_, _) => true
    case Dropping(_) => true
    case DeletingHost(_, _) => true
  }

  function Does(r: Registry, d: Deed): Registry {
    match d
    case Serving(id, op, found, w, budget) => r.(rows := Serve(op, id, found, r.rows, w, budget).rows)
    case Amending(id, updates) =>
      if id in r.rows then r.(rows := r.rows[id := Amended(r.rows[id], updates)]) else r
    case Dropping(id) =>
      if id in r.rows && !r.rows[id].IsPublished() then r.(rows := r.rows - {id}) else r
    case Adding(volume) =>
      if volume.id in r.rows then r else r.(rows := r.rows[volume.id := FromApi(volume).(status := INITIAL)])
    case SyncingHosts(_, _, outcome) => r.(hosts := outcome)
    case DeletingHost(id, failure) =>
      if id in r.hosts && failure == Nothing && !Referenced(r.rows, r.hosts[id].name)
      then r.(hosts := r.hosts - {id}) else r
    case CreatingHost(host) => if host.id in r.hosts then r else r.(hosts := r.hosts[host.id := host])
  }

  lemma ServingKeeps(hosts: HostTable, v: Volume, op: Op, found: Hosts, w: World, budget: nat)
    requires Shaped(v) && NamesHosts(hosts, v) && Validated(op) && FoundByName(hosts, found)
    ensures var u := Handle(op, found, v, w, budget).volume;
      Shaped(u) && NamesHosts(hosts, u) && u.id == v.id
  {
    var u := Handle(op, found, v, w, budget).volume;
    CallMoves(op, found, v, w, budget);
    CallLooksUp(op, found, v, w, budget);
    hide Handle, Effective, FoundByName, Named, IndexOf;
  }

  lemma CallLooksUp(op: Op, hosts: Hosts, v: Volume, w: World, budget: nat)
    ensures Effective(op, hosts, v, w, budget) ==>
      (op.Publish? ==> op.serverHost in hosts) && (op.Connect? ==> op.clientHost in hosts)
  {
    hide TargetID, ClientID, Execute, PublishScript, StageScript, MountScript;
  }

  lemma {:induction false} MergingKeepsHosts(configured: seq<HostConfig>, hosts: HostTable, id: string)
    requires id in hosts
    ensures id in Merged(configured, hosts)
  {
    if configured != [] {
      MergingKeepsHosts(configured[..|configured| - 1], hosts, id);
    }
  }

  /** The sync would sweep the host of this name and cannot count the volumes that name it. */
  ghost predicate Misread(hosts: HostTable, configured: seq<HostConfig>, unread: set<string>, name: string) {
    exists id :: id in hosts && id in unread && HostName(id) == name && hosts[id].byConfig && !Lists(configured, id)
  }

  /** However a host sync ends, hosts that volumes name are still there, unless their count was misread. */
  lemma SyncKeepsReferenced(r: Registry, configured: seq<HostConfig>, unread: set<string>, outcome: HostTable,
                            name: string)
    requires Canonical(r.hosts) && Lawful(r, SyncingHosts(configured, unread, outcome))
    requires Referenced(r.rows, name) && Named(r.hosts, name) && !Misread(r.hosts, configured, unread, name)
    ensures Named(outcome, name)
  {
    var id :| id in r.hosts && HostName(id) == name;
    MergingKeepsHosts(configured, r.hosts, id);
    MergedIsCanonical(configured, r.hosts);
    MergedByID(configured, r.hosts, id);
    MergedFields(configured, id, RowAt(r.hosts, id));
    LastEntryIsListed(configured, id);
    hide Merged, MergedAt, Referenced, Lists;
    if exists k :: 0 <= k < |configured| && outcome == Merged(configured[..k], r.hosts) {
      var k :| 0 <= k < |configured| && outcome == Merged(configured[..k], r.hosts);
      MergingKeepsHosts(configured[..k], r.hosts, id);
    }
    assert id in outcome;
  }

  lemma NamesDiffer(a: string, b: string)
    ensures HostName(a) == HostName(b) ==> a == b
  {
    assert HostName(a)[6..] == a && HostName(b)[6..] == b;
  }

  /** And a host whose count was misread is gone after a successful sync. */
  lemma MisreadIsLost(r: Registry, configured: seq<HostConfig>, unread: set<string>, name: string)
    requires Canonical(r.hosts) && Misread(r.hosts, configured, unread, name)
    ensures !Named(Synced(configured, r.rows, unread, r.hosts), name)
  {
    var id :| id in r.hosts && id in unread && HostName(id) == name && r.hosts[id].byConfig && !Lists(configured, id);
    SyncLeavesConfigured(configured, r.rows, unread, r.hosts, id);
    SyncKeepsNames(configured, r.rows, unread, r.hosts);
    hide Synced, Lists, Referenced, HostName;
    forall other | HostName(other) == name ensures other == id {
      NamesDiffer(other, id);
    }
  }

  lemma SyncKeepsCanonical(r: Registry, configured: seq<HostConfig>, unread: set<string>, outcome: HostTable)
    requires Canonical(r.hosts) && Lawful(r, SyncingHosts(configured, unread, outcome))
    ensures Canonical(outcome)
  {
    SyncKeepsNames(configured, r.rows, unread, r.hosts);
    MergedIsCanonical(configured, r.hosts);
    hide Merged, Synced, Stale;
    if exists k :: 0 <= k < |configured| && outcome == Merged(configured[..k], r.hosts) {
      var k :| 0 <= k < |configured| && outcome == Merged(configured[..k], r.hosts);
      MergedIsCanonical(configured[..k], r.hosts);
    }
  }

  /** A host table that still has every host the volumes name serves them as well. */
  lemma NamesCarryOver(hosts: HostTable, now: HostTable, rows: Table)
    requires Integrity(hosts, rows) && Canonical(now)
    requires forall name :: Needed(rows, name) && Named(hosts, name) ==> Named(now, name)
    ensures Integrity(now, rows)
  {
    hide Named, Canonical;
    forall id | id in rows ensures NamesHosts(now, rows[id]) {
      var v := rows[id];
      assert NamesHosts(hosts, v);
      assert v.IsPublished() ==> Needed(rows, v.serverHost);
      assert v.IsConnected() ==> Needed(rows, v.clientHost);
    }
  }

  lemma DeletingKeeps(r: Registry, id: string, failure: HostFailure)
    requires Integrity(r.hosts, r.rows)
    ensures Integrity(Does(r, DeletingHost(id, failure)).hosts, r.rows)
  {
    var now := Does(r, DeletingHost(id, failure)).hosts;
    forall name | Needed(r.rows, name) && Named(r.hosts, name) ensures Named(now, name) {
      var host :| host in r.hosts && HostName(host) == name;
      assert host in now;
    }
    hide Referenced, Named;
    NamesCarryOver(r.hosts, now, r.rows);
  }

  lemma CreatingKeeps(r: Registry, host: Host)
    requires Integrity(r.hosts, r.rows) && host.name == HostName(host.id)
    ensures Integrity(Does(r, CreatingHost(host)).hosts, r.rows)
  {
    var now := Does(r, CreatingHost(host)).hosts;
    forall name | Named(r.hosts, name) ensures Named(now, name) {
      var id :| id in r.hosts && HostName(id) == name;
      assert id in now;
    }
    hide Named;
    NamesCarryOver(r.hosts, now, r.rows);
  }

  /** Every host that a volume needs and the sync might sweep is counted. */
  ghost predicate CountsRead(r: Registry, configured: seq<HostConfig>, unread: set<string>) {
    forall name :: Needed(r.rows, name) ==> !Misread(r.hosts, configured, unread, name)
  }

  lemma SyncingKeeps(r: Registry, configured: seq<HostConfig>, unread: set<string>, outcome: HostTable)
    requires Integrity(r.hosts, r.rows) && Lawful(r, SyncingHosts(configured, unread, outcome))
    requires CountsRead(r, configured, unread)
    ensures Integrity(outcome, r.rows)
  {
    hide Lawful, Named, Referenced, Misread;
    SyncKeepsCanonical(r, configured, unread, outcome);
    forall name | Needed(r.rows, name) && Named(r.hosts, name) ensures Named(outcome, name) {
      NeededIsReferenced(r.rows, name);
      SyncKeepsReferenced(r, configured, unread, outcome, name);
    }
    NamesCarryOver(r.hosts, outcome, r.rows);
  }

  lemma NeededIsReferenced(rows: Table, name: string)
    requires Needed(rows, name)
    ensures Referenced(rows, name)
  {
  }

  lemma NeededIsNamed(hosts: HostTable, rows: Table, name: string)
    requires Integrity(hosts, rows) && Needed(rows, name)
    ensures Named(hosts, name)
  {
    hide Named;
  }

  /**
   * A successful host sync keeps every host that volumes need exactly when it read the
   * reference count of each of them it might sweep.
   */
  lemma SyncIsExact(r: Registry, configured: seq<HostConfig>, unread: set<string>)
    requires Integrity(r.hosts, r.rows)
    ensures Integrity(Synced(configured, r.rows, unread, r.hosts), r.rows) <==> CountsRead(r, configured, unread)
  {
    var outcome := Synced(configured, r.rows, unread, r.hosts);
    hide Synced, Named, Misread, Needed, Integrity;
    assert Lawful(r, SyncingHosts(configured, unread, outcome));
    if CountsRead(r, configured, unread) {
      SyncingKeeps(r, configured, unread, outcome);
    } else {
      var name :| Needed(r.rows, name) && Misread(r.hosts, configured, unread, name);
      IntegrityNames(r);
      MisreadIsLost(r, configured, unread, name);
      if Integrity(outcome, r.rows) {
        NeededIsNamed(outcome, r.rows, name);
      }
    }
  }

  lemma IntegrityNames(r: Registry)
    requires Integrity(r.hosts, r.rows)
    ensures Canonical(r.hosts) && KeyedByID(r.rows)
  {
  }

  lemma RowChangeKeeps(r: Registry, id: string, u: Volume)
    requires Integrity(r.hosts, r.rows) && u.id == id && Shaped(u) && NamesHosts(r.hosts, u)
    ensures Integrity(r.hosts, r.rows[id := u])
  {
    hide Named, Canonical;
  }

  /** A host sync reads the counts it needs; nothing is asked of any other step. */
  ghost predicate Careful(r: Registry, d: Deed) {
    d.SyncingHosts? ==> CountsRead(r, d.configured, d.unread)
  }

  lemma DeedKeepsIntegrity(r: Registry, d: Deed)
    requires Integrity(r.hosts, r.rows) && Lawful(r, d) && Careful(r, d)
    ensures var n := Does(r, d); Integrity(n.hosts, n.rows)
  {
    match d
    case Serving(id, op, found, w, budget) =>
      if id in r.rows {
        ServingKeeps(r.hosts, r.rows[id], op, found, w, budget);
        RowChangeKeeps(r, id, Handle(op, found, r.rows[id], w, budget).volume);
      }
    case Amending(id, updates) =>
      if id in r.rows {
        AmendedFields(r.rows[id], updates);
        RowChangeKeeps(r, id, Amended(r.rows[id], updates));
      }
    case Dropping(id) =>
    case Adding(volume) =>
      if volume.id !in r.rows {
        RowChangeKeeps(r, volume.id, FromApi(volume).(status := INITIAL));
      }
    case SyncingHosts(configured, unread, outcome) => SyncingKeeps(r, configured, unread, outcome);
    case DeletingHost(id, failure) => DeletingKeeps(r, id, failure);
    case CreatingHost(host) => CreatingKeeps(r, host);
  }

  function AllDone(r: Registry, deeds: seq<Deed>): Registry
    decreases |deeds|
  {
    if deeds == [] then r else AllDone(Does(r, deeds[0]), deeds[1..])
  }

  ghost predicate AllLawful(r: Registry, deeds: seq<Deed>)
    decreases |deeds|
  {
    deeds == [] || (Lawful(r, deeds[0]) && AllLawful(Does(r, deeds[0]), deeds[1..]))
  }

  ghost predicate AllCareful(r: Registry, deeds: seq<Deed>)
    decreases |deeds|
  {
    deeds == [] || (Careful(r, deeds[0]) && AllCareful(Does(r, deeds[0]), deeds[1..]))
  }

  /**
   * Host syncs, host deletions and creations, and calls on volumes, in any order and with
   * any failures but of the counts that decide: no published volume names a missing host.
   */
  lemma {:induction false} RunKeepsIntegrity(r: Registry, deeds: seq<Deed>)
    requires Integrity(r.hosts, r.rows) && AllLawful(r, deeds) && AllCareful(r, deeds)
    ensures var n := AllDone(r, deeds); Integrity(n.hosts, n.rows)
    decreases |deeds|
  {
    hide Integrity, Lawful, Does, Careful;
    if deeds != [] {
      DeedKeepsIntegrity(r, deeds[0]);
      RunKeepsIntegrity(Does(r, deeds[0]), deeds[1..]);
    }
  }

  // -- A count that fails ---------------------------------------------------------------

  /** A server comes from the configuration, a volume is published from it, the entry is taken out. */
  function Forgetting(entry: HostConfig, volume: ApiVolume, kind: TransportKind, found: Hosts, w: World): seq<Deed> {
    var one := map[entry.id := FromConfig(entry)];
    [SyncingHosts([entry], {}, one)]
    + ([Adding(volume)] + [Serving(volume.id, Publish(kind, HostName(entry.id)), found, w, 3)])
  }

  lemma FirstDeed(r: Registry, d: Deed, rest: seq<Deed>)
    ensures AllDone(r, [d] + rest) == AllDone(Does(r, d), rest)
    ensures AllLawful(r, [d] + rest) <==> Lawful(r, d) && AllLawful(Does(r, d), rest)
    ensures AllCareful(r, [d] + rest) <==> Careful(r, d) && AllCareful(Does(r, d), rest)
  {
    hide Lawful, Careful, Does;
    assert ([d] + rest)[1..] == rest;
  }

  lemma ThreeDeeds(r: Registry, a: Deed, b: Deed, c: Deed)
    ensures var s, deeds := Does(r, a), [a] + ([b] + [c]);
      var t := Does(s, b);
      && AllDone(r, deeds) == Does(t, c)
      && (AllLawful(r, deeds) <==> Lawful(r, a) && Lawful(s, b) && Lawful(t, c))
      && (AllCareful(r, deeds) <==> Careful(r, a) && Careful(s, b) && Careful(t, c))
  {
    hide Lawful, Careful, Does;
    var s := Does(r, a);
    FirstDeed(r, a, [b] + [c]);
    FirstDeed(s, b, [c]);
    assert [c] + [] == [c];
    FirstDeed(Does(s, b), c, []);
  }

  lemma PublishTakesHold(v: Volume, kind: TransportKind, found: Hosts, w: World, server: string)
    requires v.status == INITIAL && server != "" && server in found && found[server].role.Server?
    requires ClientID(found[server], if kind == NvmeofTcp then NvmeofTcp else Iscsi).Some?
    ensures var u := Handle(Publish(kind, server), found, v, w, 3).volume; u.IsPublished() && u.serverHost == server
  {
    var plan := PublishPlan(found, v, w, kind, server);
    assert plan.Act?;
    var target := TargetID(found[server], if kind == NvmeofTcp then NvmeofTcp else Iscsi, v.id).value;
    PublishResult(plan.given, w, target, 3);
    hide Execute, ClientID, TargetName, PublishScript;
  }

  /**
   * From the empty service: when the reference count of the host that has left the
   * configuration fails, the sync succeeds, deletes the host, and the volume published
   * from it names a missing host.
   */
  lemma MisreadCountOrphans(entry: HostConfig, volume: ApiVolume, kind: TransportKind, found: Hosts, w: World)
    requires entry.role.Server? && volume.targetPaths == []
    requires ClientID(FromConfig(entry), if kind == NvmeofTcp then NvmeofTcp else Iscsi).Some?
    requires found == map[HostName(entry.id) := FromConfig(entry)]
    ensures var r, deeds := Registry(map[], map[]), Forgetting(entry, volume, kind, found, w);
      var n := AllDone(r, deeds);
      && Integrity(r.hosts, r.rows) && AllLawful(r, deeds) && AllCareful(r, deeds) && Integrity(n.hosts, n.rows)
      && !Integrity(Synced([], n.rows, {entry.id}, n.hosts), n.rows)
  {
    var r, deeds := Registry(map[], map[]), Forgetting(entry, volume, kind, found, w);
    var n := AllDone(r, deeds);
    ForgettingRuns(entry, volume, kind, found, w);
    ForgettingPublishes(entry, volume, kind, found, w);
    hide AllDone, AllLawful, AllCareful, Forgetting, Synced, FromConfig, ClientID;
    assert Integrity(r.hosts, r.rows);
    RunKeepsIntegrity(r, deeds);
    var server := HostName(entry.id);
    assert Needed(n.rows, server) && Misread(n.hosts, [], {entry.id}, server);
    hide Integrity, Needed, Misread;
    SyncIsExact(n, [], {entry.id});
  }

  lemma ForgettingRuns(entry: HostConfig, volume: ApiVolume, kind: TransportKind, found: Hosts, w: World)
    requires volume.targetPaths == [] && found == map[HostName(entry.id) := FromConfig(entry)]
    ensures var r, deeds := Registry(map[], map[]), Forgetting(entry, volume, kind, found, w);
      AllLawful(r, deeds) && AllCareful(r, deeds)
  {
    var r, one := Registry(map[], map[]), map[entry.id := FromConfig(entry)];
    var first, second := SyncingHosts([entry], {}, one), Adding(volume);
    var third := Serving(volume.id, Publish(kind, HostName(entry.id)), found, w, 3);
    var a := Does(r, first);
    OneEntry(entry);
    OneFound(entry, found);
    ThreeDeeds(r, first, second, third);
    hide Serve, FromApi, Synced, Merged, PartlySwept, FoundByName, HostName, FromConfig, AllLawful, AllCareful, AllDone;
    assert Lawful(r, first) && Careful(r, first);
    assert Lawful(a, second) && Careful(a, second);
    assert Does(a, second).hosts == a.hosts;
    assert Lawful(Does(a, second), third) && Careful(Does(a, second), third);
    hide Does, Lawful, Careful;
  }

  lemma ForgettingPublishes(entry: HostConfig, volume: ApiVolume, kind: TransportKind, found: Hosts, w: World)
    requires entry.role.Server? && found == map[HostName(entry.id) := FromConfig(entry)]
    requires ClientID(FromConfig(entry), if kind == NvmeofTcp then NvmeofTcp else Iscsi).Some?
    ensures var n := AllDone(Registry(map[], map[]), Forgetting(entry, volume, kind, found, w));
      && n.hosts == map[entry.id := FromConfig(entry)] && volume.id in n.rows
      && n.rows[volume.id].IsPublished() && n.rows[volume.id].serverHost == HostName(entry.id)
  {
    var v := FromApi(volume).(status := INITIAL);
    assert v.id == volume.id;
    PublishTakesHold(v, kind, found, w, HostName(entry.id));
    hide FromApi, Handle, ClientID, AllDone;
    ThreeDeeds(Registry(map[], map[]), SyncingHosts([entry], {}, map[entry.id := FromConfig(entry)]), Adding(volume),
               Serving(volume.id, Publish(kind, HostName(entry.id)), found, w, 3));
  }

  lemma OneEntry(entry: HostConfig)
    ensures Synced([entry], map[], {}, map[]) == map[entry.id := FromConfig(entry)]
  {
    assert [entry][..0] == [] && [entry][0].id == entry.id;
    assert Merged([entry][..0], map[]) == map[];
    assert Merged([entry], map[]) == MergeOne(map[], entry);
  }

  lemma OneFound(entry: HostConfig, found: Hosts)
    requires found == map[HostName(entry.id) := FromConfig(entry)]
    ensures FoundByName(map[entry.id := FromConfig(entry)], found)
  {
    var hosts: HostTable := map[entry.id := FromConfig(entry)];
    forall name ensures name in found <==> Named(hosts, name) {
      if name == HostName(entry.id) {
        assert entry.id in hosts;
      }
    }
  }
}
