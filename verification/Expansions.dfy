/** Expanding a volume through CSI: what capacity ends up in the row. */
module Expansions {
  import opened Names
  import opened Structs
  import opened Volumes
  import opened Clusters
  import opened Conversions
  import opened Plans
  import opened VolumeServices
  import opened Lifecycles
  import opened Capacities
  import opened CsiDrivers
  import opened Refreshes

  /** Database rows have positive capacities. */
  predicate Positive(rows: Table) {
    forall id :: id in rows ==> rows[id].capacityBytes > 0
  }

  lemma ExpandUpdatesAreWellTyped(id: string, required: int)
    ensures var u := ExpandUpdates(id, required); WellTyped(u) && "id" in u && StringField(u, "id") == id
  {
  }

  /** The service reads back the integer the double stands for, if an int64 can hold it. */
  lemma GivenCapacity(v: Volume, id: string, required: int)
    requires 0 <= required
    ensures var u := ExpandUpdates(id, required);
      && WellTyped(u)
      && GivenUpdate(v, u).capacityBytes
           == if ToDouble(required) <= MAX_INT64 then ToDouble(required) else -0x8000_0000_0000_0000
  {
    ExpandUpdatesAreWellTyped(id, required);
    hide ToDouble, WellTyped;
    NearestIsNatural(required);
  }

  lemma NearestIsNatural(n: nat)
    ensures ToDouble(n) >= 0 && (ToDouble(n) == 0 ==> n == 0)
  {
    NearestWithinHalf(n);
    if n < SIGNIFICANDS {
      NearestIsExact(n);
    } else {
      UlpIsSmall(n);
    }
  }

  /** A gap between doubles is less than the number itself. */
  lemma UlpIsSmall(n: nat)
    requires n >= SIGNIFICANDS
    ensures Ulp(n) < n
  {
    FullSignificand(n);
    Quotient(n, Ulp(n));
    MulMono(2, n / Ulp(n), Ulp(n));
  }

  lemma UpdateStores(id: string, required: int, hosts: Hosts, rows: Table, w: World, budget: nat)
    requires KeyedByID(rows) && Positive(rows) && id in rows && rows[id].capacityBytes < required
    ensures var s := ServeUpdate(ExpandUpdates(id, required), hosts, rows, w, budget);
      s.reply.Ok? ==>
        && ToDouble(required) <= MAX_INT64 && s.reply.volume.capacityBytes == ToDouble(required)
        && id in s.rows && s.rows == rows[id := s.rows[id]] && s.rows[id].capacityBytes == ToDouble(required)
        && s.rows[id] == rows[id].(capacityBytes := ToDouble(required), transport := Bare(rows[id].transport.kind))
  {
    var updates := ExpandUpdates(id, required);
    ExpandUpdatesAreWellTyped(id, required);
    GivenCapacity(rows[id], id, required);
    NearestIsNatural(required);
    GivenIsCapacity(rows[id], id, required);
    hide ToDouble, WellTyped, Execute, ServerRefresh, ClientRefresh, GivenUpdate, ExpandUpdates;
  }

  /** The update touches the capacity alone, but for the transport payload it cuts. */
  lemma GivenIsCapacity(v: Volume, id: string, required: int)
    requires WellTyped(ExpandUpdates(id, required))
    ensures var g := GivenUpdate(v, ExpandUpdates(id, required));
      g == v.(capacityBytes := g.capacityBytes, transport := Bare(v.transport.kind))
  {
    hide ToDouble, WellTyped, Int64OfFloat;
  }

  /**
   * A successful expansion leaves the row, and reports, the larger of the old capacity
   * and the required one as a double; it cannot succeed when that overflows an int64.
   */
  lemma ExpandStores(id: string, required: int, hosts: Hosts, rows: Table, w: World, budget: nat)
    requires KeyedByID(rows) && Positive(rows)
    ensures var r := Alone(ExpandGet(id, required), hosts, rows, w, budget);
      r.reply.Sized? ==>
        && id in rows && id in r.rows && r.rows == rows[id := r.rows[id]]
        && r.reply.capacityBytes == r.rows[id].capacityBytes
        && r.rows[id].capacityBytes
             == (if rows[id].capacityBytes >= required then rows[id].capacityBytes else ToDouble(required))
        && (rows[id].capacityBytes >= required || ToDouble(required) <= MAX_INT64)
  {
    hide Alone, ServeUpdate, ToDouble, ExpandUpdates;
    var get, update := ExpandGet(id, required), ExpandUpdate(id, required);
    AloneSends(get, hosts, rows, w, budget);
    if id !in rows {
      AloneEnds(Fault(CsiNotFound), hosts, rows, w, budget);
    } else if rows[id].capacityBytes >= required {
      assert rows[id := rows[id]] == rows;
      AloneEnds(Sized(rows[id].capacityBytes), hosts, rows, w, budget);
    } else {
      AloneSends(update, hosts, rows, w, budget);
      UpdateStores(id, required, hosts, rows, w, budget);
      var s := ServeUpdate(ExpandUpdates(id, required), hosts, rows, w, budget);
      AloneEnds(Resume(update, s.reply).reply, hosts, s.rows, s.run.world, s.run.left);
    }
  }

  /**
   * The stored capacity is the larger of old and required exactly when the old one is, or the
   * required one is a double: every capacity up to 2^53, and fewer and fewer above.
   */
  lemma ExpandIsExact(id: string, required: int, hosts: Hosts, rows: Table, w: World, budget: nat)
    requires KeyedByID(rows) && Positive(rows)
    ensures var r := Alone(ExpandGet(id, required), hosts, rows, w, budget);
      r.reply.Sized? ==>
        && id in rows && id in r.rows
        && var before := rows[id].capacityBytes;
        r.rows[id].capacityBytes == (if before >= required then before else required)
        <==> before >= required || IsDouble(required)
  {
    hide Alone, IsDouble, Nearest;
    ExpandStores(id, required, hosts, rows, w, budget);
    if required >= 0 {
      NearestFixesDoubles(required);
    }
  }

  /** It is less than what was required exactly when the required capacity rounds down. */
  lemma ExpandFallsShort(id: string, required: int, hosts: Hosts, rows: Table, w: World, budget: nat)
    requires KeyedByID(rows) && Positive(rows)
    ensures var r := Alone(ExpandGet(id, required), hosts, rows, w, budget);
      r.reply.Sized? ==>
        && id in rows && id in r.rows
        && (r.rows[id].capacityBytes < required <==> rows[id].capacityBytes < required && RoundsDown(required))
  {
    hide Alone, RoundsDown, Nearest;
    ExpandStores(id, required, hosts, rows, w, budget);
    if required >= 0 {
      NearestFallsShort(required);
    }
  }

  /** Above, it is off by at most half the distance between neighbouring doubles, up or down. */
  lemma ExpandIsClose(id: string, required: nat, hosts: Hosts, rows: Table, w: World, budget: nat)
    requires KeyedByID(rows) && Positive(rows)
    ensures var r := Alone(ExpandGet(id, required), hosts, rows, w, budget);
      r.reply.Sized? && id in rows && rows[id].capacityBytes < required ==>
        id in r.rows && 2 * Distance(required, r.rows[id].capacityBytes) <= Ulp(required)
  {
    ExpandStores(id, required, hosts, rows, w, budget);
    NearestWithinHalf(required);
    hide Alone;
  }

  /**
   * An attached volume that was actually expanded has lost its transport payload, and no
   * run of calls and updates detaches it any more.
   */
  lemma ExpandStrandsAttached(id: string, required: int, hosts: Hosts, rows: Table, w: World, budget: nat)
    requires KeyedByID(rows) && Positive(rows) && id in rows && rows[id].capacityBytes < required
    requires Lifecycle(hosts, rows[id]) && rows[id].IsConnected()
    ensures var r := Alone(ExpandGet(id, required), hosts, rows, w, budget);
      r.reply.Sized? ==>
        && id in r.rows
        && forall steps :: AllValidated(steps) ==> After(hosts, r.rows[id], steps).IsConnected()
  {
    hide Alone, ServeUpdate, ToDouble, ExpandUpdates;
    var update := ExpandUpdate(id, required);
    AloneSends(ExpandGet(id, required), hosts, rows, w, budget);
    AloneSends(update, hosts, rows, w, budget);
    UpdateStores(id, required, hosts, rows, w, budget);
    var s := ServeUpdate(ExpandUpdates(id, required), hosts, rows, w, budget);
    AloneEnds(Resume(update, s.reply).reply, hosts, s.rows, s.run.world, s.run.left);
    if s.reply.Ok? {
      var u := s.rows[id];
      CutInOrder(hosts, rows[id], u);
      forall steps | AllValidated(steps) ensures After(hosts, u, steps).IsConnected() {
        CutPayloadIsStuck(hosts, u, steps);
      }
    }
  }

  lemma CutInOrder(hosts: Hosts, v: Volume, u: Volume)
    requires Lifecycle(hosts, v) && v.IsConnected()
    requires u == v.(capacityBytes := u.capacityBytes, transport := Bare(v.transport.kind))
    ensures Lifecycle(hosts, u) && u.IsConnected() && u.transport.Payload().None?
  {
    hide TargetID, ClientID;
  }

  /** After a successful expansion of a hosted volume, its zvol is as large as its row says. */
  lemma ExpandResizes(id: string, required: int, hosts: Hosts, rows: Table, w: World, budget: nat)
    requires KeyedByID(rows) && Positive(rows) && id in rows && rows[id].serverHost != ""
    requires At(rows[id].serverHost, rows[id].datasetID) in w.zvols
    ensures var r, key := Alone(ExpandGet(id, required), hosts, rows, w, budget),
                          At(rows[id].serverHost, rows[id].datasetID);
      r.reply.Sized? ==>
        && id in r.rows
        && r.world == if rows[id].capacityBytes >= required then w
                      else w.(zvols := w.zvols[key := r.rows[id].capacityBytes])
  {
    hide Alone, ServeUpdate, ToDouble, ExpandUpdates;
    var get, update := ExpandGet(id, required), ExpandUpdate(id, required);
    AloneSends(get, hosts, rows, w, budget);
    if rows[id].capacityBytes >= required {
      AloneEnds(Sized(rows[id].capacityBytes), hosts, rows, w, budget);
    } else {
      AloneSends(update, hosts, rows, w, budget);
      UpdateStores(id, required, hosts, rows, w, budget);
      ExpandUpdatesAreWellTyped(id, required);
      UpdateResizes(hosts, rows, ExpandUpdates(id, required), w, budget);
      NearestIsNatural(required);
      var s := ServeUpdate(ExpandUpdates(id, required), hosts, rows, w, budget);
      AloneEnds(Resume(update, s.reply).reply, hosts, s.rows, s.run.world, s.run.left);
    }
  }

  /** The update of a volume that is on no host yet has nothing to refresh. */
  lemma UnhostedUpdateSucceeds(id: string, required: int, hosts: Hosts, rows: Table, w: World, budget: nat)
    requires KeyedByID(rows) && Positive(rows) && id in rows && rows[id].capacityBytes < required
    requires rows[id].serverHost == "" && !rows[id].IsConnected() && ToDouble(required) <= MAX_INT64
    ensures var s := ServeUpdate(ExpandUpdates(id, required), hosts, rows, w, budget);
      s.reply.Ok? && s.reply.volume.capacityBytes == ToDouble(required)
  {
    ExpandUpdatesAreWellTyped(id, required);
    GivenCapacity(rows[id], id, required);
    GivenIsCapacity(rows[id], id, required);
    NearestIsNatural(required);
    ExecuteEmpty(w, budget);
    hide ToDouble, WellTyped, Execute, GivenUpdate, ExpandUpdates, Persist;
  }

  lemma RoundsToSignificands()
    ensures ToDouble(SIGNIFICANDS + 1) == SIGNIFICANDS
  {
    assert Exponent(SIGNIFICANDS + 1) == 1;
    assert Ulp(SIGNIFICANDS + 1) == 2 by {
      assert Pow2(1) == 2 * Pow2(0);
    }
  }

  /** An accepted request for 2^53 + 1 bytes is answered with, and stores, one byte less. */
  lemma ExpandCanFallShort(id: string, hosts: Hosts, rows: Table, w: World, budget: nat)
    requires KeyedByID(rows) && Positive(rows) && id in rows && rows[id].capacityBytes <= SIGNIFICANDS
    requires rows[id].serverHost == "" && !rows[id].IsConnected()
    ensures var r := Alone(ExpandGet(id, SIGNIFICANDS + 1), hosts, rows, w, budget);
      r.reply == Sized(SIGNIFICANDS) && id in r.rows && r.rows[id].capacityBytes == SIGNIFICANDS
  {
    hide Alone, ServeUpdate, ToDouble, ExpandUpdates;
    var required := SIGNIFICANDS + 1;
    var get, update := ExpandGet(id, required), ExpandUpdate(id, required);
    RoundsToSignificands();
    AloneSends(get, hosts, rows, w, budget);
    AloneSends(update, hosts, rows, w, budget);
    UnhostedUpdateSucceeds(id, required, hosts, rows, w, budget);
    var s := ServeUpdate(ExpandUpdates(id, required), hosts, rows, w, budget);
    AloneEnds(Resume(update, s.reply).reply, hosts, s.rows, s.run.world, s.run.left);
    ExpandStores(id, required, hosts, rows, w, budget);
  }
}
