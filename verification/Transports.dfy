/** Which identifiers and credentials each transport uses, on both hosts. */
module Transports {
  import opened Wrappers
  import opened Names
  import opened Volumes
  import opened Clusters
  import opened Plans
  import opened Lifecycles

  /** The transport a publish gives the volume: NVMe-oF if it was asked for, and iSCSI otherwise. */
  function Concrete(kind: TransportKind): TransportKind {
    if kind == NvmeofTcp then NvmeofTcp else Iscsi
  }

  /** iSCSI names begin with "iqn.", NVMe names with "nqn.". */
  function Prefix(kind: TransportKind): string {
    if kind == NvmeofTcp then "nqn." else "iqn."
  }

  predicate Carries(h: Host, kind: TransportKind) {
    exists k :: 0 <= k < |h.identifiers| && HasPrefix(h.identifiers[k], Prefix(kind))
  }

  /** The identifier is the first of the host's that belongs to the transport. */
  predicate Presents(h: Host, kind: TransportKind, identifier: string) {
    && HasPrefix(identifier, Prefix(kind))
    && exists k :: 0 <= k < |h.identifiers| && h.identifiers[k] == identifier
                   && forall j :: 0 <= j < k ==> !HasPrefix(h.identifiers[j], Prefix(kind))
  }

  lemma {:induction false} FirstIsFirst(ids: seq<string>, prefix: string)
    ensures var r := FirstWithPrefix(ids, prefix);
      && (r.None? ==> forall k :: 0 <= k < |ids| ==> !HasPrefix(ids[k], prefix))
      && (r.Some? ==> HasPrefix(r.value, prefix)
                      && exists k :: 0 <= k < |ids| && ids[k] == r.value
                                     && forall j :: 0 <= j < k ==> !HasPrefix(ids[j], prefix))
    decreases |ids|
  {
    hide HasPrefix;
    if ids != [] {
      if HasPrefix(ids[0], prefix) {
        assert ids[0] == FirstWithPrefix(ids, prefix).value;
      } else {
        FirstIsFirst(ids[1..], prefix);
        var rest := FirstWithPrefix(ids[1..], prefix);
        forall k | 0 <= k < |ids| && rest.None? ensures !HasPrefix(ids[k], prefix) {
          assert k > 0 ==> ids[k] == ids[1..][k - 1];
        }
        if rest.Some? {
          var k :| 0 <= k < |ids[1..]| && ids[1..][k] == rest.value
                   && forall j :: 0 <= j < k ==> !HasPrefix(ids[1..][j], prefix);
          assert ids[k + 1] == rest.value;
          forall j | 0 <= j < k + 1 ensures !HasPrefix(ids[j], prefix) {
            assert j > 0 ==> ids[j] == ids[1..][j - 1];
          }
        }
      }
    }
  }

  /** A host has an identifier for a transport exactly when it carries one, and presents the first. */
  lemma ClientIDPresents(h: Host, kind: TransportKind)
    requires kind != Unspecified
    ensures ClientID(h, kind).Some? <==> Carries(h, kind)
    ensures ClientID(h, kind).Some? ==> Presents(h, kind, ClientID(h, kind).value)
  {
    FirstIsFirst(h.identifiers, Prefix(kind));
    hide HasPrefix, FirstWithPrefix;
  }

  /** Sanitising leaves the prefix of a target name alone. */
  lemma TargetKeepsPrefix(identifier: string, volumeID: string, kind: TransportKind)
    requires HasPrefix(identifier, Prefix(kind))
    ensures HasPrefix(TargetName(identifier, volumeID), Prefix(kind))
  {
    var t := TargetName(identifier, volumeID);
    assert forall i :: 0 <= i < 4 ==> (identifier + ":" + volumeID)[i] == Prefix(kind)[i];
    assert forall i :: 0 <= i < 4 ==> t[i] == Prefix(kind)[i];
  }

  /** The names a row's links go by: the server's target name and the client's identifier. */
  ghost predicate NamesItsLinks(hosts: Hosts, v: Volume) {
    && (v.IsPublished() ==>
          && v.transport.kind != Unspecified && v.serverHost in hosts
          && HasPrefix(TargetOf(hosts, v), Prefix(v.transport.kind))
          && exists identifier :: Presents(hosts[v.serverHost], v.transport.kind, identifier)
                                  && TargetOf(hosts, v) == TargetName(identifier, v.id))
    && (v.IsConnected() ==>
          v.clientHost in hosts && Presents(hosts[v.clientHost], v.transport.kind, InitiatorOf(hosts, v)))
  }

  /** Every row of the lifecycle is exported and attached under the names of its own transport. */
  lemma LifecycleNamesLinks(hosts: Hosts, v: Volume)
    requires Lifecycle(hosts, v)
    ensures NamesItsLinks(hosts, v)
  {
    if v.IsPublished() {
      var server := hosts[v.serverHost];
      assert v.transport.kind != Unspecified;
      ClientIDPresents(server, v.transport.kind);
      TargetKeepsPrefix(ClientID(server, v.transport.kind).value, v.id, v.transport.kind);
      if v.IsConnected() {
        ClientIDPresents(hosts[v.clientHost], v.transport.kind);
      }
    }
    hide TargetName, Presents, ClientID, HasPrefix;
  }

  /** A publish takes the transport that was asked for, and stores what the target is reached by. */
  lemma PublishStores(hosts: Hosts, v: Volume, w: World, kind: TransportKind, server: string, budget: nat)
    requires Lifecycle(hosts, v) && Effective(Publish(kind, server), hosts, v, w, budget)
    ensures var u := Handle(Publish(kind, server), hosts, v, w, budget).volume;
      && u.transport.kind == Concrete(kind) && NamesItsLinks(hosts, u)
      && server in hosts && hosts[server].role.Server?
      && u.transport.Payload()
         == Some(Endpoint(hosts[server].role.endpoint, TargetOf(hosts, u), hosts[server].key, "", ""))
  {
    var u := Handle(Publish(kind, server), hosts, v, w, budget).volume;
    HandleKeepsLifecycle(Publish(kind, server), hosts, v, w, budget);
    LifecycleNamesLinks(hosts, u);
    hide Execute, PublishScript, Lifecycle, NamesItsLinks, ClientID, TargetName;
  }

  /** With no command failing, a publish ends in an internal error exactly when the server has no name for it. */
  lemma PublishFails(hosts: Hosts, v: Volume, w: World, kind: TransportKind, server: string, budget: nat)
    requires budget >= 3
    ensures Handle(Publish(kind, server), hosts, v, w, budget).reply == Error(Internal)
       <==> !v.IsPublished() && Lookup(hosts, server).Some? && !Carries(hosts[server], Concrete(kind))
  {
    var plan := PublishPlan(hosts, v, w, kind, server);
    if Lookup(hosts, server).Some? {
      ClientIDPresents(hosts[server], Concrete(kind));
    }
    if plan.Act? {
      PublishResult(plan.given, w, TargetID(hosts[server], Concrete(kind), v.id).value, budget);
    }
    hide Execute, PublishScript, ClientID, TargetName, Carries, Presents;
  }

  /** A connect adds the client's identifier and key to what the row stores, and nothing else. */
  lemma ConnectStores(hosts: Hosts, v: Volume, w: World, client: string, budget: nat)
    requires Lifecycle(hosts, v) && Effective(Connect(client), hosts, v, w, budget)
    ensures var u := Handle(Connect(client), hosts, v, w, budget).volume;
      && NamesItsLinks(hosts, u) && v.transport.Payload().Some? && client in hosts
      && u.transport.kind == v.transport.kind
      && u.transport.Payload() == Some(v.transport.Payload().value.(initiatorID := InitiatorOf(hosts, u),
                                                                    initiatorPassword := hosts[client].key))
  {
    var u := Handle(Connect(client), hosts, v, w, budget).volume;
    HandleKeepsLifecycle(Connect(client), hosts, v, w, budget);
    LifecycleNamesLinks(hosts, u);
    hide Execute, Lifecycle, NamesItsLinks, ClientID, TargetName;
  }

  /** A disconnect forgets them again. */
  lemma DisconnectForgets(hosts: Hosts, v: Volume, w: World, budget: nat)
    requires Lifecycle(hosts, v) && Effective(Disconnect, hosts, v, w, budget)
    ensures var u := Handle(Disconnect, hosts, v, w, budget).volume;
      && v.transport.Payload().Some?
      && u.transport.Payload() == Some(v.transport.Payload().value.(initiatorID := "", initiatorPassword := ""))
  {
    hide Execute, Lifecycle, ClientID, TargetName;
  }

  /** With no command failing, a connect ends in an internal error exactly when the client has no name for it. */
  lemma ConnectFails(hosts: Hosts, v: Volume, w: World, client: string, budget: nat)
    requires Lifecycle(hosts, v) && v.status == PUBLISHED && v.transport.Payload().Some? && budget >= 2
    ensures Handle(Connect(client), hosts, v, w, budget).reply == Error(Internal)
       <==> Lookup(hosts, client).Some? && !Carries(hosts[client], v.transport.kind)
  {
    var plan := ConnectPlan(hosts, v, client);
    assert v.transport.kind != Unspecified;
    if Lookup(hosts, client).Some? {
      ClientIDPresents(hosts[client], v.transport.kind);
    }
    if plan.Act? {
      ExecuteTwo(plan.script[0], plan.script[1], w, budget);
      assert plan.script == [plan.script[0]] + [plan.script[1]];
    }
    hide Execute, ClientID, TargetName, Carries, Presents;
  }
}
