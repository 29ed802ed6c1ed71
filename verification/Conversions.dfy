/**
 * The API form of a volume, its conversion to and from the row, and the field update
 * (app/internal/converter and `applyVolumeUpdate` in app/internal/service/service_volume.go).
 */
module Conversions {
  import opened Wrappers
  import opened Names
  import opened Structs
  import opened Volumes

  /** Optional scalars are pointers in the API; a transport is only its type there. */
  datatype ApiVolume = ApiVolume(
    id: string,
    name: string,
    datasetID: string,
    options: seq<VolumeOption>,
    sparse: Option<bool>,
    mode: Mode,
    capacityBytes: int,
    status: int,
    serverHost: Option<string>,
    clientHost: Option<string>,
    transport: Option<TransportKind>,
    stagingPath: Option<string>,
    targetPaths: seq<string>,
    metadata: Option<map<string, Value>>)

  function GetOr<T>(o: Option<T>, default: T): T {
    match o
    case Some(x) => x
    case None => default
  }

  /** The generated list conversions copy element by element. */
  method CopyList<T>(source: seq<T>) returns (list: seq<T>)
    ensures list == source
  {
    list := [];
    for i := 0 to |source|
      invariant list == source[..i]
    {
      list := list + [source[i]];
    }
  }

  function ToApi(v: Volume): ApiVolume {
    ApiVolume(v.id, v.name, v.datasetID, v.options, Some(v.sparse), v.mode, v.capacityBytes, v.status,
              Some(v.serverHost), Some(v.clientHost), Some(v.transport.kind), Some(v.stagingPath),
              v.targetPaths, Some(v.metadata))
  }

  /** A missing struct becomes the empty JSON object. */
  function FromApi(a: ApiVolume): Volume {
    Volume(a.id, a.name, a.datasetID, a.options, GetOr(a.sparse, false), a.mode, a.capacityBytes, a.status,
           GetOr(a.serverHost, ""), GetOr(a.clientHost, ""), Bare(GetOr(a.transport, Unspecified)),
           GetOr(a.stagingPath, ""), a.targetPaths, GetOr(a.metadata, map[]))
  }

  method FromDBToAPI(source: Volume) returns (volume: ApiVolume)
    ensures volume == ToApi(source)
  {
    var options := CopyList(source.options);
    var paths := CopyList(source.targetPaths);
    volume := ApiVolume(
      source.id, source.name, source.datasetID, options, Some(source.sparse), source.mode,
      source.capacityBytes, source.status, Some(source.serverHost), Some(source.clientHost),
      Some(source.transport.kind), Some(source.stagingPath), paths, Some(source.metadata));
  }

  method FromAPIToDB(source: ApiVolume) returns (volume: Volume)
    ensures volume == FromApi(source)
  {
    var options := CopyList(source.options);
    var paths := CopyList(source.targetPaths);
    volume := Volume(
      source.id, source.name, source.datasetID, options, GetOr(source.sparse, false), source.mode,
      source.capacityBytes, source.status, GetOr(source.serverHost, ""), GetOr(source.clientHost, ""),
      Bare(GetOr(source.transport, Unspecified)), GetOr(source.stagingPath, ""), paths,
      GetOr(source.metadata, map[]));
  }

  /** The API form shows the row: field for field, the transport by its type. */
  predicate Shows(a: ApiVolume, v: Volume) {
    && a.id == v.id && a.name == v.name && a.datasetID == v.datasetID && a.options == v.options
    && a.sparse == Some(v.sparse) && a.mode == v.mode && a.capacityBytes == v.capacityBytes && a.status == v.status
    && a.serverHost == Some(v.serverHost) && a.clientHost == Some(v.clientHost)
    && a.transport == Some(v.transport.kind) && a.stagingPath == Some(v.stagingPath)
    && a.targetPaths == v.targetPaths && a.metadata == Some(v.metadata)
  }

  /** A row is shown by its API form alone, and a form that shows a row is read as that row without its payload. */
  lemma FormsShow(a: ApiVolume, v: Volume)
    ensures Shows(a, v) <==> a == ToApi(v)
    ensures Shows(a, v) ==> FromApi(a) == v.(transport := Bare(v.transport.kind))
  {
  }

  /** A field the form leaves out is read as a zero value, which GORM skips except for transport and metadata. */
  lemma MissingIsZero(a: ApiVolume, stored: Volume)
    ensures FromApi(ToApi(FromApi(a))) == FromApi(a)
    ensures var given, row := FromApi(a), Persist(stored, FromApi(a));
      && (a.sparse.None? ==> row.sparse == stored.sparse)
      && (a.serverHost.None? ==> given.serverHost == "" && row.serverHost == stored.serverHost)
      && (a.clientHost.None? ==> given.clientHost == "" && row.clientHost == stored.clientHost)
      && (a.stagingPath.None? ==> given.stagingPath == "" && row.stagingPath == stored.stagingPath)
      && (a.transport.None? ==> row.transport == Bare(Unspecified))
      && (a.metadata.None? ==> row.metadata == map[])
  {
  }

  /** Converting a row to the API and back loses exactly the transport payload. */
  lemma RoundTripCutsPayload(v: Volume)
    ensures FromApi(ToApi(v)) == v.(transport := Bare(v.transport.kind))
    ensures FromApi(ToApi(v)) == v <==> v.transport.iscsi.None? && v.transport.nvmeof.None?
  {
  }

  // -- applyVolumeUpdate ----------------------------------------------------------------

  /** Go's float-to-integer conversion truncates; out of range it yields the least int64 (amd64). */
  function Int64OfFloat(x: real): int {
    var t := if x >= 0.0 then x.Floor else -((-x).Floor);
    if -0x8000_0000_0000_0000 <= t <= 0x7fff_ffff_ffff_ffff then t else -0x8000_0000_0000_0000
  }

  /** Towards zero, and within int64. */
  lemma FloatsTruncate(x: real)
    ensures var n := Int64OfFloat(x);
      if -9223372036854775809.0 < x < 9223372036854775808.0
      then (x >= 0.0 ==> n as real <= x < n as real + 1.0) && (x <= 0.0 ==> n as real - 1.0 < x <= n as real)
      else n == -0x8000_0000_0000_0000
  {
  }

  predicate AllStructs(values: seq<Value>) {
    forall i :: 0 <= i < |values| ==> values[i].StructValue?
  }

  function OptionOf(value: Value): VolumeOption
    requires value.StructValue?
  {
    VolumeOption(StringField(value.fields, "key"), StringField(value.fields, "value"))
  }

  function OptionsOf(values: seq<Value>): seq<VolumeOption>
    requires AllStructs(values)
  {
    seq(|values|, i requires 0 <= i < |values| => OptionOf(values[i]))
  }

  predicate WellTypedField(key: string, value: Value) {
    match key
    case "struct" => value.StructValue?
    case "capacity_bytes" => value.NumberValue?
    case "options" => value.ListValue? && AllStructs(value.values)
    case _ => true
  }

  /** Every field the update knows has its expected type. */
  predicate WellTyped(updates: map<string, Value>) {
    forall key :: key in updates ==> WellTypedField(key, updates[key])
  }

  /** The volume with the mutable fields an update names, and nothing else, replaced. */
  function Updated(a: ApiVolume, updates: map<string, Value>): ApiVolume
    requires WellTyped(updates)
  {
    a.(metadata := if "struct" in updates then Some(updates["struct"].fields) else a.metadata,
       capacityBytes := if "capacity_bytes" in updates then Int64OfFloat(updates["capacity_bytes"].number)
                        else a.capacityBytes,
       options := if "options" in updates then OptionsOf(updates["options"].values) else a.options)
  }

  method ParseOptions(values: seq<Value>) returns (options: Option<seq<VolumeOption>>)
    ensures options == if AllStructs(values) then Some(OptionsOf(values)) else None
  {
    var parsed := [];
    for i := 0 to |values|
      invariant AllStructs(values[..i]) && parsed == OptionsOf(values[..i])
    {
      if !values[i].StructValue? {
        return None;
      }
      parsed := parsed + [OptionOf(values[i])];
    }
    assert values[..|values|] == values;
    return Some(parsed);
  }

  /**
   * The update loop visits the fields in an arbitrary order, as a Go map range does.
   * Whether it succeeds, and what it yields then, does not depend on that order.
   */
  method ApplyVolumeUpdate(existing: ApiVolume, updates: map<string, Value>)
    returns (volume: ApiVolume, ok: bool)
    ensures ok <==> WellTyped(updates)
    ensures ok ==> volume == Updated(existing, updates)
  {
    volume, ok := existing, true;
    var rest := updates.Keys;
    while rest != {}
      invariant rest <= updates.Keys
      invariant forall key :: key in updates && key !in rest ==> WellTypedField(key, updates[key])
      invariant volume.metadata ==
        if "struct" in updates && "struct" !in rest then Some(updates["struct"].fields) else existing.metadata
      invariant volume.capacityBytes ==
        if "capacity_bytes" in updates && "capacity_bytes" !in rest
        then Int64OfFloat(updates["capacity_bytes"].number) else existing.capacityBytes
      invariant volume.options ==
        if "options" in updates && "options" !in rest
        then OptionsOf(updates["options"].values) else existing.options
      invariant volume == existing.(metadata := volume.metadata, capacityBytes := volume.capacityBytes,
                                    options := volume.options)
      decreases rest
    {
      var key :| key in rest;
      var value := updates[key];
      rest := rest - {key};
      if key == "struct" {
        if !value.StructValue? {
          return volume, false;
        }
        volume := volume.(metadata := Some(value.fields));
      } else if key == "capacity_bytes" {
        if !value.NumberValue? {
          return volume, false;
        }
        volume := volume.(capacityBytes := Int64OfFloat(value.number));
      } else if key == "options" {
        if !value.ListValue? {
          return volume, false;
        }
        var options := ParseOptions(value.values);
        if options.None? {
          return volume, false;
        }
        volume := volume.(options := options.value);
      }
    }
  }
}
