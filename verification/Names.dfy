/** Hosts and the target names they give to volumes (app/internal/database/host.go). */
module Names {
  import opened Wrappers

  datatype Role = Server(endpoint: string) | Client

  datatype Connection =
    | Local(runAsRoot: bool)
    | Remote(address: string, port: int, username: string, password: string, runAsRoot: bool)

  datatype Host = Host(
    id: string,
    name: string,
    role: Role,
    connection: Connection,
    identifiers: seq<string>,
    key: string,
    byConfig: bool)

  datatype TransportKind = Unspecified | Iscsi | NvmeofTcp

  predicate HasPrefix(s: string, prefix: string) {
    prefix <= s
  }

  /** The first identifier that starts with the prefix. */
  function FirstWithPrefix(ids: seq<string>, prefix: string): Option<string> {
    if ids == [] then None
    else if HasPrefix(ids[0], prefix) then Some(ids[0])
    else FirstWithPrefix(ids[1..], prefix)
  }

  /** The search loop shared by `Host.IQN` and `Host.NQN`. */
  method FindIdentifier(ids: seq<string>, prefix: string) returns (r: Option<string>)
    ensures r == FirstWithPrefix(ids, prefix)
    ensures r.Some? ==> exists k :: 0 <= k < |ids| && ids[k] == r.value && HasPrefix(r.value, prefix)
                                 && forall j :: 0 <= j < k ==> !HasPrefix(ids[j], prefix)
    ensures r.None? ==> forall k :: 0 <= k < |ids| ==> !HasPrefix(ids[k], prefix)
  {
    for i := 0 to |ids|
      invariant forall j :: 0 <= j < i ==> !HasPrefix(ids[j], prefix)
      invariant FirstWithPrefix(ids, prefix) == FirstWithPrefix(ids[i..], prefix)
    {
      if HasPrefix(ids[i], prefix) {
        return Some(ids[i]);
      }
    }
    return None;
  }

  function IQN(h: Host): Option<string> {
    FirstWithPrefix(h.identifiers, "iqn.")
  }

  function NQN(h: Host): Option<string> {
    FirstWithPrefix(h.identifiers, "nqn.")
  }

  /** `getClientID`: the identifier a host presents over a transport. */
  function ClientID(h: Host, kind: TransportKind): Option<string> {
    match kind
    case Iscsi => IQN(h)
    case NvmeofTcp => NQN(h)
    case Unspecified => None
  }

  /** `getTargetID`: the sanitised target name a server host gives to a volume. */
  function TargetID(h: Host, kind: TransportKind, volumeID: string): Option<string> {
    match ClientID(h, kind)
    case Some(identifier) => Some(TargetName(identifier, volumeID))
    case None => None
  }

  function TargetName(identifier: string, volumeID: string): string {
    Sanitize(identifier + ":" + volumeID)
  }

  function LowerChar(c: char): char {
    if 'A' <= c <= 'Z' then (c as int + 32) as char else c
  }

  function ToLower(s: string): string {
    seq(|s|, i requires 0 <= i < |s| => LowerChar(s[i]))
  }

  function Dashed(s: string): string {
    seq(|s|, i requires 0 <= i < |s| => if s[i] == '_' then '-' else s[i])
  }

  function Sanitize(s: string): string {
    Dashed(ToLower(s))
  }

  /** The part of a target name after its last colon. */
  function VolumePart(t: string): string {
    if t == "" || t[|t| - 1] == ':' then ""
    else VolumePart(t[..|t| - 1]) + [t[|t| - 1]]
  }

  /** The part of a target name before its last colon. */
  function HostPart(t: string): string {
    if t == "" then ""
    else if t[|t| - 1] == ':' then t[..|t| - 1]
    else HostPart(t[..|t| - 1])
  }

  predicate ColonFree(s: string) {
    ':' !in s
  }

  /** A target name belongs to a volume when it ends in the volume's sanitised ID. */
  predicate Owns(volumeID: string, target: string) {
    VolumePart(target) == Sanitize(volumeID)
  }

  lemma SanitizeIdempotent(s: string)
    ensures Sanitize(Sanitize(s)) == Sanitize(s)
  {
    assert forall i :: 0 <= i < |s| ==> Sanitize(s)[i] != '_' && !('A' <= Sanitize(s)[i] <= 'Z');
  }

  /** Sanitising lowers ASCII letters, turns underscores into dashes, and leaves the rest alone. */
  lemma SanitizedChars(s: string, i: nat)
    requires i < |s|
    ensures |Sanitize(s)| == |s| && !('A' <= Sanitize(s)[i] <= 'Z') && Sanitize(s)[i] != '_'
    ensures Sanitize(s)[i] == if s[i] == '_' then '-'
                              else if 'A' <= s[i] <= 'Z' then (s[i] as int - 'A' as int + 'a' as int) as char
                              else s[i]
  {
  }

  lemma SanitizeDistributes(identifier: string, volumeID: string)
    ensures TargetName(identifier, volumeID) == Sanitize(identifier) + ":" + Sanitize(volumeID)
  {
  }

  lemma SanitizeColonFree(s: string)
    requires ColonFree(s)
    ensures ColonFree(Sanitize(s))
  {
    assert forall i :: 0 <= i < |s| ==> s[i] != ':' && Sanitize(s)[i] != ':';
  }

  lemma {:induction false} SplitAtLastColon(a: string, b: string)
    requires ColonFree(b)
    ensures VolumePart(a + ":" + b) == b && HostPart(a + ":" + b) == a
  {
    var t := a + ":" + b;
    if b == "" {
      assert t[..|t| - 1] == a;
    } else {
      var init, last := b[..|b| - 1], b[|b| - 1];
      assert last in b;
      assert t[..|t| - 1] == a + ":" + init && init + [last] == b;
      SplitAtLastColon(a, init);
    }
  }

  /** Every target name a host can give to a volume is owned by that volume. */
  lemma TargetNameOwned(identifier: string, volumeID: string)
    requires ColonFree(volumeID)
    ensures Owns(volumeID, TargetName(identifier, volumeID))
  {
    SanitizeDistributes(identifier, volumeID);
    SanitizeColonFree(volumeID);
    SplitAtLastColon(Sanitize(identifier), Sanitize(volumeID));
  }

  /** Two names collide exactly when both sanitised parts agree. */
  lemma TargetNameCollision(i1: string, v1: string, i2: string, v2: string)
    requires ColonFree(v1) && ColonFree(v2)
    ensures TargetName(i1, v1) == TargetName(i2, v2)
       <==> Sanitize(i1) == Sanitize(i2) && Sanitize(v1) == Sanitize(v2)
  {
    SanitizeDistributes(i1, v1);
    SanitizeDistributes(i2, v2);
    SanitizeColonFree(v1);
    SanitizeColonFree(v2);
    SplitAtLastColon(Sanitize(i1), Sanitize(v1));
    SplitAtLastColon(Sanitize(i2), Sanitize(v2));
  }

  /** Volume IDs whose suffix needs no sanitising never collide, on any pair of hosts. */
  lemma CleanSuffixesNeverCollide(i1: string, x1: string, i2: string, x2: string)
    requires ColonFree(x1) && ColonFree(x2)
    requires Sanitize(x1) == x1 && Sanitize(x2) == x2 && x1 != x2
    ensures TargetName(i1, "vol_" + x1) != TargetName(i2, "vol_" + x2)
  {
    var p := "vol_";
    assert ColonFree(p + x1) && ColonFree(p + x2);
    TargetNameCollision(i1, p + x1, i2, p + x2);
    assert Sanitize(p + x1)[4..] == x1 && Sanitize(p + x2)[4..] == x2;
  }

  /** Outside that class distinct valid IDs do collide. */
  lemma UnderscoreAndDashCollide(identifier: string)
    ensures "vol_a_b" != "vol_a-b"
    ensures TargetName(identifier, "vol_a_b") == TargetName(identifier, "vol_a-b")
  {
    TargetNameCollision(identifier, "vol_a_b", identifier, "vol_a-b");
    var l, r := Sanitize("vol_a_b"), Sanitize("vol_a-b");
    assert l == "vol-a-b" == r;
  }
}
