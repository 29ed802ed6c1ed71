/**
 * The host table: bringing it in line with the configuration (app/main_app.go) and
 * deleting hosts (app/internal/service/service_host.go), with volumes naming hosts.
 */
module HostSyncs {
  import opened Wrappers
  import opened Names
  import opened Volumes
  import opened Conversions
  import opened VolumeServices

  datatype HostConfig = HostConfig(
    id: string,
    role: Role,
    connection: Connection,
    identifiers: seq<string>,
    key: string)

  type HostTable = map<string, Host>

  function HostName(id: string): string {
    "hosts/" + id
  }

  function FromConfig(c: HostConfig): Host {
    Host(c.id, HostName(c.id), c.role, c.connection, c.identifiers, c.key, true)
  }

  /** GORM's `Updates(struct)` on a host. */
  function MergeHost(stored: Host, given: Host): Host {
    Host(stored.id, NonZero(stored.name, given.name), given.role, given.connection,
         if given.identifiers == [] then stored.identifiers else given.identifiers,
         NonZero(stored.key, given.key), stored.byConfig || given.byConfig)
  }

  function MergeOne(hosts: HostTable, c: HostConfig): HostTable {
    hosts[c.id := if c.id in hosts then MergeHost(hosts[c.id], FromConfig(c)) else FromConfig(c)]
  }

  /** The table after the entries of the configuration, in order. */
  function Merged(configured: seq<HostConfig>, hosts: HostTable): HostTable {
    if configured == [] then hosts
    else MergeOne(Merged(configured[..|configured| - 1], hosts), configured[|configured| - 1])
  }

  predicate Lists(configured: seq<HostConfig>, id: string) {
    exists k :: 0 <= k < |configured| && configured[k].id == id
  }

  /** A volume names the host as its server or its client. */
  predicate Referenced(volumes: Table, name: string) {
    exists id :: id in volumes && (volumes[id].serverHost == name || volumes[id].clientHost == name)
  }

  /** What the reference count shows: it reads zero when it fails, since its error is dropped. */
  predicate Counted(volumes: Table, unread: set<string>, h: Host) {
    h.id !in unread && Referenced(volumes, h.name)
  }

  /** A host the configuration once made, no longer lists, and no count shows to be named. */
  predicate Stale(configured: seq<HostConfig>, volumes: Table, unread: set<string>, h: Host) {
    h.byConfig && !Lists(configured, h.id) && !Counted(volumes, unread, h)
  }

  function Swept(configured: seq<HostConfig>, volumes: Table, unread: set<string>, hosts: HostTable): HostTable {
    map id | id in hosts && !Stale(configured, volumes, unread, hosts[id]) :: hosts[id]
  }

  function Synced(configured: seq<HostConfig>, volumes: Table, unread: set<string>, hosts: HostTable): HostTable {
    Swept(configured, volumes, unread, Merged(configured, hosts))
  }

  /** Some stale hosts of a table are gone and nothing else has changed. */
  ghost predicate PartlySwept(configured: seq<HostConfig>, volumes: Table, unread: set<string>, full: HostTable,
                              now: HostTable)
  {
    && (forall id :: id in now ==> id in full && now[id] == full[id])
    && (forall id :: id in full && id !in now ==> Stale(configured, volumes, unread, full[id]))
  }

  /** Hosts go by their IDs, and the API and the configuration name them after those. */
  predicate Canonical(hosts: HostTable) {
    forall id :: id in hosts ==> hosts[id].id == id && hosts[id].name == HostName(id)
  }

  datatype HostReply = Removed | Missing | StillReferenced | Broken

  /** What fails in a deletion: nothing, the reference count, or the delete itself. */
  datatype HostFailure = Nothing | Counting | Deleting

  class HostRegistry {
    var hosts: HostTable

    constructor ()
      ensures hosts == map[]
    {
      hosts := map[];
    }

    /**
     * `SyncHosts`. The budget is the number of writes the database takes before it fails
     * one. On failure the work done so far stays; with enough writes there is none.
     */
    method SyncHosts(configured: seq<HostConfig>, volumes: Table, unread: set<string>, budget: nat) returns (ok: bool)
      requires Canonical(hosts)
      modifies this
      ensures ok ==> hosts == Synced(configured, volumes, unread, old(hosts))
      ensures !ok ==>
        || (exists k :: 0 <= k < |configured| && hosts == Merged(configured[..k], old(hosts)))
        || PartlySwept(configured, volumes, unread, Merged(configured, old(hosts)), hosts)
      ensures budget >= |configured| + |Merged(configured, old(hosts))| ==> ok
    {
      hide Stale, Referenced, Lists, PartlySwept;
      var listed: set<string> := {};
      var left := budget;
      assert forall id :: !Lists(configured[..0], id) by {
        NothingListed(configured[..0]);
      }
      for i := 0 to |configured|
        invariant hosts == Merged(configured[..i], old(hosts))
        invariant budget >= |configured| ==> left == budget - i
        invariant forall id :: id in listed <==> Lists(configured[..i], id)
      {
        var entry := configured[i];
        assert configured[..i + 1][..i] == configured[..i];
        ListsOneMore(configured, i);
        listed := listed + {entry.id};
        if left == 0 {
          return false;
        }
        left := left - 1;
        var host := FromConfig(entry);
        hosts := hosts[entry.id := if entry.id in hosts then MergeHost(hosts[entry.id], host) else host];
      }
      assert configured[..|configured|] == configured;
      MergedIsCanonical(configured, old(hosts));
      ok := SweepStale(configured, listed, volumes, unread, left);
    }

    /** The second half of `SyncHosts`: drop what the configuration no longer lists. */
    method SweepStale(configured: seq<HostConfig>, listed: set<string>, volumes: Table, unread: set<string>,
                      budget: nat)
      returns (ok: bool)
      requires Canonical(hosts) && forall id :: id in listed <==> Lists(configured, id)
      modifies this
      ensures PartlySwept(configured, volumes, unread, old(hosts), hosts)
      ensures ok ==> hosts == Swept(configured, volumes, unread, old(hosts))
      ensures budget >= |old(hosts)| ==> ok
    {
      hide Referenced, Lists, PartlySwept, Swept;
      var left := budget;
      var pending := set id | id in hosts && hosts[id].byConfig;
      FewerMembers(pending, hosts.Keys);
      NothingSweptYet(configured, volumes, unread, hosts);
      while pending != {}
        invariant budget >= |old(hosts)| ==> left >= |pending|
        invariant Canonical(hosts)
        invariant forall id :: id in pending ==> id in hosts && hosts[id].byConfig
        invariant PartlySwept(configured, volumes, unread, old(hosts), hosts)
        invariant forall id :: id in hosts && Stale(configured, volumes, unread, hosts[id]) ==> id in pending
        decreases |pending|
      {
        var id :| id in pending;
        var host := hosts[id];
        pending := pending - {id};
        if id !in listed {
          var count := if host.id in unread then false else Referenced(volumes, host.name);
          if !count {
            if left == 0 {
              return false;
            }
            left := left - 1;
            OneMoreSwept(configured, volumes, unread, old(hosts), hosts, id);
            hosts := hosts - {id};
          }
        }
      }
      AllSwept(configured, volumes, unread, old(hosts), hosts);
      return true;
    }

    /** `DeleteHost`: refused while a volume names the host, and whatever fails is reported. */
    method DeleteHost(id: string, volumes: Table, failure: HostFailure) returns (reply: HostReply)
      modifies this
      ensures reply == (if id !in old(hosts) then Missing
                        else if failure == Counting then Broken
                        else if Referenced(volumes, old(hosts)[id].name) then StillReferenced
                        else if failure == Deleting then Broken else Removed)
      ensures hosts == if reply == Removed then old(hosts) - {id} else old(hosts)
    {
      if id !in hosts {
        return Missing;
      }
      if failure == Counting {
        return Broken;
      }
      if Referenced(volumes, hosts[id].name) {
        return StillReferenced;
      }
      if failure == Deleting {
        return Broken;
      }
      hosts := hosts - {id};
      return Removed;
    }
  }

  lemma {:induction false} FewerMembers(a: set<string>, b: set<string>)
    requires a <= b
    ensures |a| <= |b|
    decreases a
  {
    if a != {} {
      var x :| x in a;
      FewerMembers(a - {x}, b - {x});
    }
  }

  lemma NothingSweptYet(configured: seq<HostConfig>, volumes: Table, unread: set<string>, hosts: HostTable)
    ensures PartlySwept(configured, volumes, unread, hosts, hosts)
  {
  }

  lemma OneMoreSwept(configured: seq<HostConfig>, volumes: Table, unread: set<string>, full: HostTable, now: HostTable,
                     id: string)
    requires PartlySwept(configured, volumes, unread, full, now)
    requires id in now && Stale(configured, volumes, unread, now[id])
    ensures PartlySwept(configured, volumes, unread, full, now - {id})
  {
    hide Stale;
  }

  lemma AllSwept(configured: seq<HostConfig>, volumes: Table, unread: set<string>, full: HostTable, now: HostTable)
    requires PartlySwept(configured, volumes, unread, full, now)
    requires forall id :: id in now ==> !Stale(configured, volumes, unread, now[id])
    ensures now == Swept(configured, volumes, unread, full)
  {
    hide Stale;
  }

  lemma NothingListed(configured: seq<HostConfig>)
    requires configured == []
    ensures forall id :: !Lists(configured, id)
  {
  }

  lemma ListsOneMore(configured: seq<HostConfig>, i: nat)
    requires i < |configured|
    ensures forall id :: Lists(configured[..i + 1], id) <==> Lists(configured[..i], id) || id == configured[i].id
  {
    forall id ensures Lists(configured[..i + 1], id) <==> Lists(configured[..i], id) || id == configured[i].id {
      if Lists(configured[..i], id) {
        var k :| 0 <= k < i && configured[..i][k].id == id;
        assert configured[..i + 1][k].id == id;
      }
      if Lists(configured[..i + 1], id) {
        var k :| 0 <= k < i + 1 && configured[..i + 1][k].id == id;
        assert k < i ==> configured[..i][k].id == id;
      }
      assert configured[..i + 1][i].id == configured[i].id;
    }
  }

  lemma {:induction false} MergedIsCanonical(configured: seq<HostConfig>, hosts: HostTable)
    requires Canonical(hosts)
    ensures Canonical(Merged(configured, hosts))
  {
    if configured != [] {
      MergedIsCanonical(configured[..|configured| - 1], hosts);
    }
  }

  // -- What a successful sync leaves ----------------------------------------------------

  /** One ID's row after the configuration's entries for it, in order. */
  function MergedAt(configured: seq<HostConfig>, id: string, stored: Option<Host>): Option<Host> {
    if configured == [] then stored
    else
      var before := MergedAt(configured[..|configured| - 1], id, stored);
      var entry := configured[|configured| - 1];
      if entry.id != id then before
      else if before.None? then Some(FromConfig(entry))
      else Some(MergeHost(before.value, FromConfig(entry)))
  }

  function RowAt(hosts: HostTable, id: string): Option<Host> {
    if id in hosts then Some(hosts[id]) else None
  }

  lemma {:induction false} MergedByID(configured: seq<HostConfig>, hosts: HostTable, id: string)
    ensures RowAt(Merged(configured, hosts), id) == MergedAt(configured, id, RowAt(hosts, id))
  {
    if configured != [] {
      MergedByID(configured[..|configured| - 1], hosts, id);
    }
  }

  /** The last key the entries of an ID give, if any does. */
  function LastKey(configured: seq<HostConfig>, id: string): Option<string> {
    if configured == [] then None
    else
      var entry := configured[|configured| - 1];
      if entry.id == id && entry.key != "" then Some(entry.key) else LastKey(configured[..|configured| - 1], id)
  }

  function LastIdentifiers(configured: seq<HostConfig>, id: string): Option<seq<string>> {
    if configured == [] then None
    else
      var entry := configured[|configured| - 1];
      if entry.id == id && entry.identifiers != [] then Some(entry.identifiers)
      else LastIdentifiers(configured[..|configured| - 1], id)
  }

  function LastEntry(configured: seq<HostConfig>, id: string): Option<HostConfig> {
    if configured == [] then None
    else if configured[|configured| - 1].id == id then Some(configured[|configured| - 1])
    else LastEntry(configured[..|configured| - 1], id)
  }

  /** What the configuration makes of a host it lists. */
  function Configured(configured: seq<HostConfig>, id: string, stored: Option<Host>): Host
    requires LastEntry(configured, id).Some?
  {
    var last := LastEntry(configured, id).value;
    var key := if stored.Some? then stored.value.key else "";
    var identifiers := if stored.Some? then stored.value.identifiers else [];
    Host(id, HostName(id), last.role, last.connection, GetOr(LastIdentifiers(configured, id), identifiers),
         GetOr(LastKey(configured, id), key), true)
  }

  /** A listed host takes role and connection from its last entry, and the rest from the last that says so. */
  lemma {:induction false} MergedFields(configured: seq<HostConfig>, id: string, stored: Option<Host>)
    requires stored.Some? ==> stored.value.id == id && stored.value.name == HostName(id)
    ensures MergedAt(configured, id, stored)
         == if LastEntry(configured, id).None? then stored else Some(Configured(configured, id, stored))
    ensures LastEntry(configured, id).None? ==>
      LastKey(configured, id).None? && LastIdentifiers(configured, id).None?
  {
    if configured != [] {
      MergedFields(configured[..|configured| - 1], id, stored);
    }
  }

  lemma {:induction false} LastEntryIsListed(configured: seq<HostConfig>, id: string)
    ensures LastEntry(configured, id).Some? <==> Lists(configured, id)
  {
    if configured != [] {
      LastEntryIsListed(configured[..|configured| - 1], id);
      ListsOneMore(configured, |configured| - 1);
      assert configured[..|configured|] == configured;
    } else {
      NothingListed(configured);
    }
  }

  /** Merging the same configuration again changes nothing, even when it lists an ID twice. */
  lemma MergeIsIdempotent(configured: seq<HostConfig>, id: string, stored: Option<Host>)
    requires stored.Some? ==> stored.value.id == id && stored.value.name == HostName(id)
    ensures MergedAt(configured, id, MergedAt(configured, id, stored)) == MergedAt(configured, id, stored)
  {
    var once := MergedAt(configured, id, stored);
    MergedFields(configured, id, stored);
    if LastEntry(configured, id).Some? {
      MergedFields(configured, id, once);
    }
  }

  lemma SyncedByID(configured: seq<HostConfig>, volumes: Table, unread: set<string>, hosts: HostTable, id: string)
    requires Canonical(hosts)
    ensures var merged := MergedAt(configured, id, RowAt(hosts, id));
      RowAt(Synced(configured, volumes, unread, hosts), id)
        == if merged.Some? && Stale(configured, volumes, unread, merged.value) then None else merged
  {
    MergedByID(configured, hosts, id);
    hide Stale, Merged, MergedAt;
  }

  /**
   * After a successful sync the by-config hosts are exactly those configured, and those made
   * by an earlier configuration that a count shows to be named. Configured hosts read as
   * configured; every other host that stays is as it was.
   */
  lemma SyncLeavesConfigured(configured: seq<HostConfig>, volumes: Table, unread: set<string>, hosts: HostTable,
                             id: string)
    requires Canonical(hosts)
    ensures var after := Synced(configured, volumes, unread, hosts);
      var leftover := id in hosts && hosts[id].byConfig && Counted(volumes, unread, hosts[id]);
      && (id in after && after[id].byConfig <==> Lists(configured, id) || leftover)
      && (Lists(configured, id) ==>
            LastEntry(configured, id).Some? && id in after
            && after[id] == Configured(configured, id, RowAt(hosts, id)))
      && (!Lists(configured, id) && id in after ==> id in hosts && after[id] == hosts[id])
      && (!Lists(configured, id) && id in hosts && !hosts[id].byConfig ==> id in after)
  {
    SyncedByID(configured, volumes, unread, hosts, id);
    MergedFields(configured, id, RowAt(hosts, id));
    LastEntryIsListed(configured, id);
    hide Synced, MergedAt, Lists, Referenced;
  }

  lemma SyncKeepsNames(configured: seq<HostConfig>, volumes: Table, unread: set<string>, hosts: HostTable)
    requires Canonical(hosts)
    ensures Canonical(Synced(configured, volumes, unread, hosts))
  {
    MergedIsCanonical(configured, hosts);
    hide Merged, Stale;
  }

  /**
   * A second sync of the same configuration changes nothing, even when it lists an ID twice,
   * exactly when it can count the references to every host that is kept for them alone.
   */
  lemma SyncIsIdempotent(configured: seq<HostConfig>, volumes: Table, unread: set<string>, hosts: HostTable,
                         again: set<string>)
    requires Canonical(hosts)
    ensures var once := Synced(configured, volumes, unread, hosts);
      Synced(configured, volumes, again, once) == once
      <==> forall id :: id in once && id in again && once[id].byConfig ==> Lists(configured, id)
  {
    var once := Synced(configured, volumes, unread, hosts);
    var twice := Synced(configured, volumes, again, once);
    SyncKeepsNames(configured, volumes, unread, hosts);
    hide Synced, MergedAt, Lists;
    forall id ensures RowAt(twice, id) == RowAt(once, id)
                 <==> (id in once && id in again && once[id].byConfig ==> Lists(configured, id))
    {
      SyncedTwiceAt(configured, volumes, unread, hosts, again, id);
    }
    if forall id :: id in once && id in again && once[id].byConfig ==> Lists(configured, id) {
      RowsDecide(twice, once);
    }
  }

  lemma SyncedTwiceAt(configured: seq<HostConfig>, volumes: Table, unread: set<string>, hosts: HostTable,
                      again: set<string>, id: string)
    requires Canonical(hosts)
    ensures var once := Synced(configured, volumes, unread, hosts);
      RowAt(Synced(configured, volumes, again, once), id) == RowAt(once, id)
      <==> (id in once && id in again && once[id].byConfig ==> Lists(configured, id))
  {
    var once := Synced(configured, volumes, unread, hosts);
    SyncKeepsNames(configured, volumes, unread, hosts);
    SyncedByID(configured, volumes, unread, hosts, id);
    SyncedByID(configured, volumes, again, once, id);
    MergeIsIdempotent(configured, id, RowAt(hosts, id));
    MergedFields(configured, id, RowAt(hosts, id));
    MergedFields(configured, id, RowAt(once, id));
    MergedFields(configured, id, None);
    LastEntryIsListed(configured, id);
    hide Synced, MergedAt, Lists, Referenced;
  }

  lemma RowsDecide(a: HostTable, b: HostTable)
    requires forall id :: RowAt(a, id) == RowAt(b, id)
    ensures a == b
  {
    forall id ensures id in a <==> id in b {
      assert RowAt(a, id) == RowAt(b, id);
    }
    forall id | id in a ensures a[id] == b[id] {
      assert RowAt(a, id) == RowAt(b, id);
    }
  }
}
