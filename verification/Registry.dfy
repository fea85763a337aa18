/**
The membership registry: records, admission rules and snapshot validation
(tako-network/src/registry.rs).

Hashes, signatures and certificate checks are the fields of `Primitives`. Every
statement holds for any choice of them, so nothing here relies on a hash being
injective.
*/
module Registry {
  import opened Results

  type NetworkId = string
  type DeviceId = string
  type RevocationId = string
  type BootId = string
  type Fingerprint = string
  type WgKey = string
  type SshKey = string
  type Address = string

  datatype DeviceKind = LaptopDevice | ServerDevice

  datatype Error =
    | Invalid
    | Conflict
    | PermissionDenied
    | NotEffective(device: DeviceId)
    | UnknownRevocation

  datatype Request = Request(
    version: nat,
    networkId: Option<NetworkId>,
    kind: DeviceKind,
    requestId: string,
    deviceId: Option<DeviceId>,
    name: string,
    wgKey: WgKey,
    sshKey: SshKey,
    expiresAt: Option<nat>,
    proof: string)

  datatype Permissions = Permissions(
    networkAdmin: bool,
    serverAdmin: bool,
    sshUser: Option<string>,
    deployments: set<string>)

  datatype MemberKind = Laptop | Server(info: string)

  datatype Member = Member(
    networkId: NetworkId,
    deviceId: DeviceId,
    request: Request,
    kind: MemberKind,
    permissions: Permissions,
    approvedBy: Option<DeviceId>,
    independentAdmin: bool,
    wgVerified: bool,
    createdAt: nat,
    expiresAt: Option<nat>)

  datatype Revocation = Revocation(
    id: RevocationId,
    target: DeviceId,
    wgFingerprint: Fingerprint,
    sshFingerprint: Fingerprint,
    capturedServers: set<DeviceId>,
    author: DeviceId,
    createdAt: nat)

  datatype Ack = Ack(revocation: RevocationId, server: DeviceId, boot: BootId)

  datatype Descriptor = Descriptor(id: NetworkId, initialAdmin: DeviceId)

  datatype Snapshot = Snapshot(
    network: Descriptor,
    members: seq<Member>,
    revocations: seq<Revocation>,
    acks: seq<Ack>)

  /** The library functions the registry calls, as parameters. */
  datatype Primitives = Primitives(
    wgFingerprint: WgKey -> Fingerprint,
    sshFingerprint: SshKey -> Fingerprint,
    address: (NetworkId, WgKey) -> Address,
    deviceIdFromKeys: (NetworkId, DeviceKind, SshKey, WgKey) -> DeviceId,
    signatureValid: Request -> bool,
    serverInfoValid: string -> bool)

  const ENROLLMENT_VERSION := 1
  const MAX_DEPLOYMENT_SCOPES := 1024

  // ----- One record -----

  predicate PermissionsValid(p: Permissions) {
    && (p.sshUser in {Some("tako"), Some("root")} ==> p.networkAdmin && p.serverAdmin)
    && |p.deployments| <= MAX_DEPLOYMENT_SCOPES
  }

  /** `Permissions::can_delegate`: what an administrator may hand on. */
  predicate CanDelegate(parent: Permissions, child: Permissions) {
    && parent.networkAdmin
    && (!child.serverAdmin || parent.serverAdmin)
    && (child.sshUser.None? || parent.serverAdmin || child.sshUser == parent.sshUser)
    && (parent.serverAdmin || child.deployments <= parent.deployments)
  }

  /** `device_id_for`: fails when the request names another network. */
  function DeviceIdFor(c: Primitives, request: Request, network: NetworkId): Option<DeviceId> {
    if request.networkId.Some? && request.networkId.value != network then None
    else Some(c.deviceIdFromKeys(network, request.kind, request.sshKey, request.wgKey))
  }

  predicate RequestVerified(c: Primitives, request: Request) {
    && request.version == ENROLLMENT_VERSION
    && (match (request.networkId, request.deviceId)
        case (Some(network), Some(id)) => DeviceIdFor(c, request, network) == Some(id)
        case (None, None) => true
        case _ => false)
    && c.signatureValid(request)
  }

  function KindOf(kind: MemberKind): DeviceKind {
    if kind.Laptop? then LaptopDevice else ServerDevice
  }

  predicate Precedes(createdAt: nat, expiry: Option<nat>) {
    expiry.Some? ==> createdAt < expiry.value
  }

  predicate MemberValid(c: Primitives, m: Member) {
    && PermissionsValid(m.permissions)
    && RequestVerified(c, m.request)
    && DeviceIdFor(c, m.request, m.networkId) == Some(m.deviceId)
    && KindOf(m.kind) == m.request.kind
    && Precedes(m.createdAt, m.expiresAt)
    && Precedes(m.createdAt, m.request.expiresAt)
    && (m.independentAdmin ==> m.permissions.networkAdmin && m.permissions.serverAdmin)
    && m.approvedBy != Some(m.deviceId)
    && (m.independentAdmin ==> m.approvedBy.None?)
    && (m.kind.Server? ==> c.serverInfoValid(m.kind.info))
  }

  predicate Live(m: Member, now: nat) {
    m.createdAt <= now && (m.expiresAt.Some? ==> now < m.expiresAt.value)
  }

  predicate DelegatedBy(m: Member, parent: Member) {
    && parent.createdAt <= m.createdAt
    && CanDelegate(parent.permissions, m.permissions)
    && (m.kind.Server? ==> parent.permissions.serverAdmin)
    && (parent.expiresAt.Some? ==> m.expiresAt.Some? && m.expiresAt.value <= parent.expiresAt.value)
  }

  // ----- Denials -----

  predicate DeniedBy(c: Primitives, denial: Revocation, m: Member) {
    || denial.target == m.deviceId
    || denial.wgFingerprint == c.wgFingerprint(m.request.wgKey)
    || denial.sshFingerprint == c.sshFingerprint(m.request.sshKey)
  }

  predicate Denied(c: Primitives, revocations: seq<Revocation>, m: Member) {
    exists denial | denial in revocations :: DeniedBy(c, denial, m)
  }

  // ----- Snapshots -----

  /** A verified member that no denial covers holds its keys and its address. */
  predicate Binds(c: Primitives, s: Snapshot, m: Member) {
    m.wgVerified && !Denied(c, s.revocations, m)
  }

  predicate SharesBinding(c: Primitives, network: NetworkId, m: Member, other: Member) {
    || m.request.wgKey == other.request.wgKey
    || m.request.sshKey == other.request.sshKey
    || c.address(network, m.request.wgKey) == c.address(network, other.request.wgKey)
  }

  /** Two records can stand in one registry. */
  predicate Compatible(c: Primitives, s: Snapshot, m: Member, other: Member) {
    && (m.wgVerified && other.wgVerified && m.deviceId == other.deviceId ==> m == other)
    && (Binds(c, s, m) && Binds(c, s, other) && SharesBinding(c, s.network.id, m, other)
        ==> m.deviceId == other.deviceId)
  }

  /** Acceptable records that never contradict each other: no mention of an order. */
  ghost predicate MembersValid(c: Primitives, s: Snapshot, members: seq<Member>) {
    && (forall m | m in members :: MemberValid(c, m) && m.networkId == s.network.id)
    && (forall m, other | m in members && other in members :: Compatible(c, s, m, other))
  }

  ghost predicate RevocationsValid(revocations: seq<Revocation>) {
    forall r, q | r in revocations && q in revocations :: r.id == q.id ==> r == q
  }

  ghost predicate Valid(c: Primitives, s: Snapshot) {
    MembersValid(c, s, s.members) && RevocationsValid(s.revocations)
  }

  /** One scan with four lookup maps decides the pairwise conditions of `Valid`. */
  method Validate(c: Primitives, s: Snapshot) returns (r: Result<(), Error>)
    ensures r.Ok? <==> Valid(c, s)
  {
    r := ValidateMembers(c, s);
    if r.Err? {
      return;
    }
    var seen: map<RevocationId, Revocation> := map[];
    for i := 0 to |s.revocations|
      invariant RevocationsValid(s.revocations[..i])
      invariant forall k | 0 <= k < i :: s.revocations[k].id in seen && seen[s.revocations[k].id] == s.revocations[k]
      invariant forall id | id in seen :: seen[id] in s.revocations[..i] && seen[id].id == id
    {
      var revocation := s.revocations[i];
      if revocation.id in seen && seen[revocation.id] != revocation {
        assert seen[revocation.id] in s.revocations;
        return Err(Conflict);
      }
      seen := seen[revocation.id := revocation];
      assert s.revocations[..i + 1] == s.revocations[..i] + [revocation];
    }
    assert s.revocations[..|s.revocations|] == s.revocations;
  }

  /** What the scan has seen: each verified record under its ID, each binding under its key. */
  datatype Scan = Scan(
    records: map<DeviceId, Member>,
    wgKeys: map<WgKey, DeviceId>,
    sshKeys: map<SshKey, DeviceId>,
    addresses: map<Address, DeviceId>)

  ghost predicate Recorded(done: seq<Member>, records: map<DeviceId, Member>) {
    && (forall m | m in done && m.wgVerified :: m.deviceId in records && records[m.deviceId] == m)
    && (forall id | id in records :: records[id] in done && records[id].wgVerified && records[id].deviceId == id)
  }

  ghost predicate Owned(
    c: Primitives, s: Snapshot, records: map<DeviceId, Member>, owners: map<string, DeviceId>, key: Member -> string)
  {
    && (forall id | id in records && Binds(c, s, records[id]) :: key(records[id]) in owners && owners[key(records[id])] == id)
    && (forall k | k in owners ::
          owners[k] in records && Binds(c, s, records[owners[k]]) && key(records[owners[k]]) == k)
  }

  function WgKeyOf(m: Member): WgKey { m.request.wgKey }

  function SshKeyOf(m: Member): SshKey { m.request.sshKey }

  function AddressOf(c: Primitives, s: Snapshot): Member -> Address {
    (m: Member) => c.address(s.network.id, m.request.wgKey)
  }

  ghost predicate Indexed(c: Primitives, s: Snapshot, done: seq<Member>, scan: Scan) {
    && Recorded(done, scan.records)
    && Owned(c, s, scan.records, scan.wgKeys, WgKeyOf)
    && Owned(c, s, scan.records, scan.sshKeys, SshKeyOf)
    && Owned(c, s, scan.records, scan.addresses, AddressOf(c, s))
  }

  lemma CompatibleWithScanned(c: Primitives, s: Snapshot, done: seq<Member>, scan: Scan, m: Member, other: Member)
    requires Indexed(c, s, done, scan) && other in done
    requires m.wgVerified && m.deviceId in scan.records ==> scan.records[m.deviceId] == m
    requires Binds(c, s, m) ==>
               && (WgKeyOf(m) in scan.wgKeys ==> scan.wgKeys[WgKeyOf(m)] == m.deviceId)
               && (SshKeyOf(m) in scan.sshKeys ==> scan.sshKeys[SshKeyOf(m)] == m.deviceId)
               && (AddressOf(c, s)(m) in scan.addresses ==> scan.addresses[AddressOf(c, s)(m)] == m.deviceId)
    ensures Compatible(c, s, m, other) && Compatible(c, s, other, m)
  {
    if Binds(c, s, other) {
      assert scan.records[other.deviceId] == other;
    }
  }

  lemma ExtendValid(c: Primitives, s: Snapshot, done: seq<Member>, m: Member)
    requires MembersValid(c, s, done) && MemberValid(c, m) && m.networkId == s.network.id
    requires forall other | other in done :: Compatible(c, s, m, other) && Compatible(c, s, other, m)
    ensures MembersValid(c, s, done + [m])
  {
    assert Compatible(c, s, m, m);
  }

  lemma OwnerClash(c: Primitives, s: Snapshot, done: seq<Member>, scan: Scan, m: Member, owner: DeviceId)
    requires Recorded(done, scan.records) && owner in scan.records && owner != m.deviceId
    requires Binds(c, s, m) && Binds(c, s, scan.records[owner])
    requires SharesBinding(c, s.network.id, m, scan.records[owner])
    requires m in s.members && forall e | e in done :: e in s.members
    ensures !MembersValid(c, s, s.members)
  {
    assert !Compatible(c, s, m, scan.records[owner]);
  }

  /** The checks on one member, against the maps built so far. */
  method ScanMember(c: Primitives, s: Snapshot, ghost done: seq<Member>, scan: Scan, m: Member)
    returns (r: Result<Scan, Error>)
    requires MembersValid(c, s, done) && Indexed(c, s, done, scan)
    requires m in s.members && forall e | e in done :: e in s.members
    ensures r.Err? ==> !MembersValid(c, s, s.members)
    ensures r.Ok? ==> MembersValid(c, s, done + [m]) && Indexed(c, s, done + [m], r.value)
  {
    if !MemberValid(c, m) || m.networkId != s.network.id {
      return Err(Invalid);
    }
    if m.wgVerified {
      if m.deviceId in scan.records && scan.records[m.deviceId] != m {
        assert !Compatible(c, s, scan.records[m.deviceId], m);
        return Err(Conflict);
      }
      if !Denied(c, s.revocations, m) {
        if WgKeyOf(m) in scan.wgKeys && scan.wgKeys[WgKeyOf(m)] != m.deviceId {
          OwnerClash(c, s, done, scan, m, scan.wgKeys[WgKeyOf(m)]);
          return Err(Conflict);
        }
        if SshKeyOf(m) in scan.sshKeys && scan.sshKeys[SshKeyOf(m)] != m.deviceId {
          OwnerClash(c, s, done, scan, m, scan.sshKeys[SshKeyOf(m)]);
          return Err(Conflict);
        }
        var address := AddressOf(c, s)(m);
        if address in scan.addresses && scan.addresses[address] != m.deviceId {
          OwnerClash(c, s, done, scan, m, scan.addresses[address]);
          return Err(Conflict);
        }
      }
    }
    forall other | other in done
      ensures Compatible(c, s, m, other) && Compatible(c, s, other, m)
    {
      CompatibleWithScanned(c, s, done, scan, m, other);
    }
    ExtendValid(c, s, done, m);
    r := Ok(Extend(c, s, scan, m));
    ExtendIndexed(c, s, done, scan, m);
  }

  function Extend(c: Primitives, s: Snapshot, scan: Scan, m: Member): Scan {
    if !m.wgVerified then scan
    else
      var recorded := scan.(records := scan.records[m.deviceId := m]);
      if Denied(c, s.revocations, m) then recorded
      else recorded.(
           wgKeys := scan.wgKeys[WgKeyOf(m) := m.deviceId],
           sshKeys := scan.sshKeys[SshKeyOf(m) := m.deviceId],
           addresses := scan.addresses[AddressOf(c, s)(m) := m.deviceId])
  }

  lemma ExtendOwned(
    c: Primitives, s: Snapshot, records: map<DeviceId, Member>, owners: map<string, DeviceId>, key: Member -> string, m: Member)
    requires Owned(c, s, records, owners, key)
    requires m.deviceId in records ==> records[m.deviceId] == m
    ensures Binds(c, s, m) && (key(m) in owners ==> owners[key(m)] == m.deviceId)
            ==> Owned(c, s, records[m.deviceId := m], owners[key(m) := m.deviceId], key)
    ensures !Binds(c, s, m) ==> Owned(c, s, records[m.deviceId := m], owners, key)
  {}

  lemma ExtendRecorded(done: seq<Member>, records: map<DeviceId, Member>, m: Member)
    requires Recorded(done, records)
    requires m.wgVerified && m.deviceId in records ==> records[m.deviceId] == m
    ensures Recorded(done + [m], if m.wgVerified then records[m.deviceId := m] else records)
  {}

  lemma ExtendIndexed(c: Primitives, s: Snapshot, done: seq<Member>, scan: Scan, m: Member)
    requires Indexed(c, s, done, scan)
    requires m.wgVerified && m.deviceId in scan.records ==> scan.records[m.deviceId] == m
    requires Binds(c, s, m) ==>
               && (WgKeyOf(m) in scan.wgKeys ==> scan.wgKeys[WgKeyOf(m)] == m.deviceId)
               && (SshKeyOf(m) in scan.sshKeys ==> scan.sshKeys[SshKeyOf(m)] == m.deviceId)
               && (AddressOf(c, s)(m) in scan.addresses ==> scan.addresses[AddressOf(c, s)(m)] == m.deviceId)
    ensures Indexed(c, s, done + [m], Extend(c, s, scan, m))
  {
    ExtendRecorded(done, scan.records, m);
    if m.wgVerified {
      ExtendOwned(c, s, scan.records, scan.wgKeys, WgKeyOf, m);
      ExtendOwned(c, s, scan.records, scan.sshKeys, SshKeyOf, m);
      ExtendOwned(c, s, scan.records, scan.addresses, AddressOf(c, s), m);
    }
  }

  method ValidateMembers(c: Primitives, s: Snapshot) returns (r: Result<(), Error>)
    ensures r.Ok? <==> MembersValid(c, s, s.members)
  {
    var scan := Scan(map[], map[], map[], map[]);
    for i := 0 to |s.members|
      invariant MembersValid(c, s, s.members[..i]) && Indexed(c, s, s.members[..i], scan)
    {
      var next := ScanMember(c, s, s.members[..i], scan, s.members[i]);
      if next.Err? {
        return Err(next.error);
      }
      scan := next.value;
      assert s.members[..i + 1] == s.members[..i] + [s.members[i]];
    }
    assert s.members[..|s.members|] == s.members;
    r := Ok(());
  }
}
