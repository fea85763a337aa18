/**
The bytes that an enrollment request signs (tako-network/src/enrollment.rs): fixed-size
fields, three optional ones and two with a length prefix.
*/
module Enrollment {
  import opened Results
  import opened Bytes

  const NETWORK_ID_BYTES: nat := 16
  const REQUEST_ID_BYTES: nat := 16
  const DEVICE_ID_BYTES: nat := 32
  const WG_KEY_BYTES: nat := 32
  const MAX_NAME_BYTES: nat := 63

  datatype Kind = Laptop | Server

  /** The signed fields. The SSH key is its wire encoding. */
  datatype Signed = Signed(
    version: nat,
    networkId: Option<seq<Byte>>,
    kind: Kind,
    requestId: seq<Byte>,
    deviceId: Option<seq<Byte>>,
    expiresAt: Option<nat>,
    name: seq<Byte>,
    wgKey: seq<Byte>,
    sshKey: seq<Byte>)

  /** The sizes that the field types guarantee. */
  predicate WellTyped(r: Signed) {
    && r.version < Pow256(4)
    && (r.networkId.Some? ==> |r.networkId.value| == NETWORK_ID_BYTES)
    && |r.requestId| == REQUEST_ID_BYTES
    && (r.deviceId.Some? ==> |r.deviceId.value| == DEVICE_ID_BYTES)
    && (r.expiresAt.Some? ==> r.expiresAt.value < Pow256(8))
    && |r.name| <= MAX_NAME_BYTES
    && |r.wgKey| == WG_KEY_BYTES
  }

  /** `tako-network-enrollment` and a zero byte. */
  const DOMAIN: seq<Byte> :=
    [116, 97, 107, 111, 45, 110, 101, 116, 119, 111, 114, 107, 45, 101, 110, 114, 111, 108, 108, 109, 101, 110, 116, 0]

  function Tag(kind: Kind): Byte { if kind.Laptop? then 0 else 1 }

  function Optional(field: Option<seq<Byte>>): seq<Byte> { if field.Some? then [1] + field.value else [0] }

  function Expiry(at: Option<nat>): Option<seq<Byte>> { if at.Some? then Some(ToBytes(at.value, 8)) else None }

  /** `append_field`: the length as an unsigned 32-bit number, which may wrap, and the bytes. */
  function Prefixed(field: seq<Byte>): seq<Byte> { ToBytes(|field|, 4) + field }

  // The encoding from each field to the end.
  function FromKey(r: Signed): seq<Byte> { r.wgKey + Prefixed(r.sshKey) }
  function FromName(r: Signed): seq<Byte> { Prefixed(r.name) + FromKey(r) }
  function FromExpiry(r: Signed): seq<Byte> { Optional(Expiry(r.expiresAt)) + FromName(r) }
  function FromDevice(r: Signed): seq<Byte> { Optional(r.deviceId) + FromExpiry(r) }
  function FromRequest(r: Signed): seq<Byte> { r.requestId + FromDevice(r) }
  function FromKind(r: Signed): seq<Byte> { [Tag(r.kind)] + FromRequest(r) }
  function FromNetwork(r: Signed): seq<Byte> { Optional(r.networkId) + FromKind(r) }
  function FromVersion(r: Signed): seq<Byte> { ToBytes(r.version, 4) + FromNetwork(r) }
  function Canonical(r: Signed): seq<Byte> { DOMAIN + FromVersion(r) }

  method AppendField(bytes: seq<Byte>, field: seq<Byte>) returns (r: seq<Byte>)
    ensures r == bytes + Prefixed(field)
  {
    r := bytes + ToBytes(|field|, 4);
    r := r + field;
  }

  method AppendOptional(bytes: seq<Byte>, field: Option<seq<Byte>>) returns (r: seq<Byte>)
    ensures r == bytes + Optional(field)
  {
    if field.Some? {
      r := bytes + [1];
      r := r + field.value;
    } else {
      r := bytes + [0];
    }
  }

  lemma Regroup(a: seq<Byte>, b: seq<Byte>, c: seq<Byte>)
    ensures (a + b) + c == a + (b + c)
  {}

  /** `canonical_bytes`, appended field by field. */
  method CanonicalBytes(r: Signed) returns (bytes: seq<Byte>)
    ensures bytes == Canonical(r)
  {
    bytes := DOMAIN;
    Regroup(bytes, ToBytes(r.version, 4), FromNetwork(r));
    bytes := bytes + ToBytes(r.version, 4);
    Regroup(bytes, Optional(r.networkId), FromKind(r));
    bytes := AppendOptional(bytes, r.networkId);
    Regroup(bytes, [Tag(r.kind)], FromRequest(r));
    bytes := bytes + [Tag(r.kind)];
    Regroup(bytes, r.requestId, FromDevice(r));
    bytes := bytes + r.requestId;
    Regroup(bytes, Optional(r.deviceId), FromExpiry(r));
    bytes := AppendOptional(bytes, r.deviceId);
    Regroup(bytes, Optional(Expiry(r.expiresAt)), FromName(r));
    bytes := AppendOptional(bytes, Expiry(r.expiresAt));
    Regroup(bytes, Prefixed(r.name), FromKey(r));
    bytes := AppendField(bytes, r.name);
    Regroup(bytes, r.wgKey, Prefixed(r.sshKey));
    bytes := bytes + r.wgKey;
    bytes := AppendField(bytes, r.sshKey);
  }

  // ----- Unambiguous framing -----

  lemma SameStart(a: seq<Byte>, b: seq<Byte>, x: seq<Byte>, y: seq<Byte>)
    requires |a| == |b| && a + x == b + y
    ensures a == b && x == y
  {
    assert a == (a + x)[..|a|] && b == (b + y)[..|b|];
    assert x == (a + x)[|a|..] && y == (b + y)[|b|..];
  }

  /** An optional field of a fixed size can be told apart from what follows. */
  lemma SameOptional(a: Option<seq<Byte>>, b: Option<seq<Byte>>, x: seq<Byte>, y: seq<Byte>, size: nat)
    requires a.Some? ==> |a.value| == size
    requires b.Some? ==> |b.value| == size
    requires Optional(a) + x == Optional(b) + y
    ensures a == b && x == y
  {
    assert (Optional(a) + x)[0] == (Optional(b) + y)[0];
    SameStart(Optional(a), Optional(b), x, y);
    if a.Some? {
      assert a.value == Optional(a)[1..] && b.value == Optional(b)[1..];
    }
  }

  /** So can a field with a length prefix that does not wrap. */
  lemma SamePrefixed(a: seq<Byte>, b: seq<Byte>, x: seq<Byte>, y: seq<Byte>)
    requires |a| < Pow256(4) && |b| < Pow256(4) && Prefixed(a) + x == Prefixed(b) + y
    ensures a == b && x == y
  {
    Regroup(ToBytes(|a|, 4), a, x);
    Regroup(ToBytes(|b|, 4), b, y);
    SameStart(ToBytes(|a|, 4), ToBytes(|b|, 4), a + x, b + y);
    BytesInjective(|a|, |b|, 4);
    SameStart(a, b, x, y);
  }

  lemma SameKeys(a: Signed, b: Signed)
    requires WellTyped(a) && WellTyped(b) && FromKey(a) == FromKey(b)
    ensures a.wgKey == b.wgKey && a.sshKey == b.sshKey
  {
    SameStart(a.wgKey, b.wgKey, Prefixed(a.sshKey), Prefixed(b.sshKey));
    SameStart(ToBytes(|a.sshKey|, 4), ToBytes(|b.sshKey|, 4), a.sshKey, b.sshKey);
  }

  lemma SameExpiry(a: Option<nat>, b: Option<nat>, x: seq<Byte>, y: seq<Byte>)
    requires a.Some? ==> a.value < Pow256(8)
    requires b.Some? ==> b.value < Pow256(8)
    requires Optional(Expiry(a)) + x == Optional(Expiry(b)) + y
    ensures a == b && x == y
  {
    SameOptional(Expiry(a), Expiry(b), x, y, 8);
    if a.Some? { BytesInjective(a.value, b.value, 8); }
  }

  lemma SameFromDevice(a: Signed, b: Signed)
    requires WellTyped(a) && WellTyped(b) && FromDevice(a) == FromDevice(b)
    ensures a.deviceId == b.deviceId && a.expiresAt == b.expiresAt && a.name == b.name && a.wgKey == b.wgKey && a.sshKey == b.sshKey
  {
    SmallPowers();
    SameOptional(a.deviceId, b.deviceId, FromExpiry(a), FromExpiry(b), DEVICE_ID_BYTES);
    SameExpiry(a.expiresAt, b.expiresAt, FromName(a), FromName(b));
    SamePrefixed(a.name, b.name, FromKey(a), FromKey(b));
    SameKeys(a, b);
  }

  /** Two requests with the same signed bytes have the same signed fields. */
  lemma CanonicalIsInjective(a: Signed, b: Signed)
    requires WellTyped(a) && WellTyped(b) && Canonical(a) == Canonical(b)
    ensures a == b
  {
    SameStart(DOMAIN, DOMAIN, FromVersion(a), FromVersion(b));
    SameStart(ToBytes(a.version, 4), ToBytes(b.version, 4), FromNetwork(a), FromNetwork(b));
    BytesInjective(a.version, b.version, 4);
    SameOptional(a.networkId, b.networkId, FromKind(a), FromKind(b), NETWORK_ID_BYTES);
    SameStart([Tag(a.kind)], [Tag(b.kind)], FromRequest(a), FromRequest(b));
    assert [Tag(a.kind)][0] == [Tag(b.kind)][0];
    SameStart(a.requestId, b.requestId, FromDevice(a), FromDevice(b));
    SameFromDevice(a, b);
  }
}
