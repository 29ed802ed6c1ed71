/** The volume row (app/internal/database/volume.go) and how GORM writes it back. */
module Volumes {
  import opened Wrappers
  import opened Names
  import opened Structs

  datatype Mode = NoMode | Block | Filesystem

  datatype VolumeOption = VolumeOption(key: string, value: string)

  /** Status codes, ordered as the source's enumeration is. */
  const UNSPECIFIED := 0
  const INITIAL := 1
  const PUBLISHED := 2
  const CONNECTED := 3
  const STAGED := 4
  const MOUNTED := 5

  /** The transport payload. iSCSI and NVMe-oF payloads have the same five fields. */
  datatype Endpoint = Endpoint(
    targetAddress: string,
    targetID: string,
    targetPassword: string,
    initiatorID: string,
    initiatorPassword: string)

  datatype Transport = Transport(kind: TransportKind, iscsi: Option<Endpoint>, nvmeof: Option<Endpoint>)
  {
    /** The payload the handlers dereference for the row's own transport type. */
    function Payload(): Option<Endpoint> {
      match kind
      case Iscsi => iscsi
      case NvmeofTcp => nvmeof
      case Unspecified => None
    }

    function WithPayload(e: Endpoint): Transport {
      match kind
      case Iscsi => this.(iscsi := Some(e))
      case NvmeofTcp => this.(nvmeof := Some(e))
      case Unspecified => this
    }
  }

  /** A transport that carries only its type, as the API's transport enumeration does. */
  function Bare(kind: TransportKind): Transport {
    Transport(kind, None, None)
  }

  datatype Volume = Volume(
    id: string,
    name: string,
    datasetID: string,
    options: seq<VolumeOption>,
    sparse: bool,
    mode: Mode,
    capacityBytes: int,
    status: int,
    serverHost: string,
    clientHost: string,
    transport: Transport,
    stagingPath: string,
    targetPaths: seq<string>,
    metadata: map<string, Value>)
  {
    predicate IsPublished() { status >= PUBLISHED }
    predicate IsConnected() { status >= CONNECTED }
    predicate IsStaged() { status >= STAGED }
    predicate IsMounted() { status >= MOUNTED }
  }

  function NonZero(stored: string, given: string): string {
    if given == "" then stored else given
  }

  /**
   * GORM's `Updates(struct)`: only fields that are not the zero value are written.
   * `TargetPaths` is always written: its slice is nil only for a row that has no
   * path stored either. An options list read back or converted when empty is nil.
   */
  function Persist(stored: Volume, given: Volume): (row: Volume)
    ensures row.id == stored.id
  {
    Volume(
      stored.id,
      NonZero(stored.name, given.name),
      NonZero(stored.datasetID, given.datasetID),
      if given.options == [] then stored.options else given.options,
      stored.sparse || given.sparse,
      if given.mode == NoMode then stored.mode else given.mode,
      if given.capacityBytes == 0 then stored.capacityBytes else given.capacityBytes,
      if given.status == UNSPECIFIED then stored.status else given.status,
      NonZero(stored.serverHost, given.serverHost),
      NonZero(stored.clientHost, given.clientHost),
      given.transport,
      NonZero(stored.stagingPath, given.stagingPath),
      given.targetPaths,
      given.metadata)
  }

  /** The update that gives nothing but what is always written. */
  function Blank(v: Volume): Volume {
    Volume("", "", "", [], false, NoMode, 0, UNSPECIFIED, "", "", v.transport, "", v.targetPaths, v.metadata)
  }

  /** The update leaves out no field that GORM would skip. */
  predicate Complete(given: Volume) {
    && given.name != "" && given.datasetID != "" && given.options != [] && given.sparse && given.mode != NoMode
    && given.capacityBytes != 0 && given.status != UNSPECIFIED
    && given.serverHost != "" && given.clientHost != "" && given.stagingPath != ""
  }

  /** Giving nothing changes nothing, giving every field changes them all, and giving it again nothing more. */
  lemma PersistMerges(stored: Volume, given: Volume)
    ensures Persist(stored, Blank(stored)) == stored
    ensures Complete(given) ==> Persist(stored, given) == given.(id := stored.id)
    ensures Persist(Persist(stored, given), given) == Persist(stored, given)
  {
  }

  predicate NoDuplicates<T(==)>(s: seq<T>) {
    forall i, j :: 0 <= i < j < |s| ==> s[i] != s[j]
  }

  /** `indexOf`: the first position of a value, or -1. */
  function IndexOf(s: seq<string>, x: string): (r: int)
    ensures -1 <= r < |s|
    ensures r >= 0 ==> s[r] == x && x !in s[..r]
    ensures r == -1 <==> x !in s
  {
    if s == [] then -1
    else if s[0] == x then 0
    else
      var rest := IndexOf(s[1..], x);
      if rest == -1 then -1 else
        assert s[..rest + 1] == [s[0]] + s[1..][..rest];
        rest + 1
  }

  function Without(s: seq<string>, index: nat): seq<string>
    requires index < |s|
  {
    s[..index] + s[index + 1..]
  }

  /** Splicing out a listed path removes it, and only it, from a duplicate-free list. */
  lemma WithoutIsRemoval(s: seq<string>, x: string)
    requires NoDuplicates(s) && x in s
    ensures var r := Without(s, IndexOf(s, x)); NoDuplicates(r) && |r| == |s| - 1 && x !in r
    ensures forall y :: y in Without(s, IndexOf(s, x)) <==> y in s && y != x
  {
    var k := IndexOf(s, x);
    var r := Without(s, k);
    forall y ensures y in r <==> y in s && y != x {
      if y in s && y != x {
        var i :| 0 <= i < |s| && s[i] == y;
        assert if i < k then r[i] == y else r[i - 1] == y;
      }
    }
  }

  /** The rest of a duplicate-free list is duplicate-free and does not hold its first element. */
  lemma TailAvoidsHead(s: seq<string>)
    requires NoDuplicates(s) && s != []
    ensures NoDuplicates(s[1..]) && forall x :: x in s[1..] ==> x in s && x != s[0]
  {
    forall x | x in s[1..] ensures x in s && x != s[0] {
      var i :| 0 <= i < |s[1..]| && s[1..][i] == x;
      assert x == s[i + 1];
    }
  }
}
