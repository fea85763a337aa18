/**
Append-only runs of the registry: approvals, planned revocations and
acknowledgements (tako-network/src/registry.rs).
*/
module RegistryRuns {
  import opened Results
  import opened Registry
  import opened EffectiveMembers
  import opened RegistryLaws

  datatype VerifiedEnrollment = VerifiedEnrollment(networkId: NetworkId, deviceId: DeviceId, request: Request)

  datatype Approval = Approval(
    kind: MemberKind,
    permissions: Permissions,
    approvedBy: Option<DeviceId>,
    independentAdmin: bool,
    createdAt: nat,
    expiresAt: Option<nat>)

  function NewMember(v: VerifiedEnrollment, a: Approval): Member {
    Member(v.networkId, v.deviceId, v.request, a.kind, a.permissions, a.approvedBy, a.independentAdmin, true,
           a.createdAt, a.expiresAt)
  }

  function WithMember(s: Snapshot, m: Member): Snapshot { s.(members := s.members + [m]) }

  function WithRevocation(s: Snapshot, r: Revocation): Snapshot { s.(revocations := s.revocations + [r]) }

  // ----- Approval -----

  /** Who may admit `m`: a local operator for an independent root, the empty registry, or an effective parent. */
  ghost predicate Authorized(c: Primitives, s: Snapshot, m: Member, localOperator: bool) {
    match m.approvedBy
    case None =>
      || (localOperator && m.independentAdmin)
      || (m.deviceId == s.network.initialAdmin && m.permissions.networkAdmin && s.members == [])
    case Some(_) => exists parent :: Admitted(c, s, m.createdAt, parent) && Approves(parent, m)
  }

  predicate Clash(c: Primitives, existing: Member, m: Member) {
    && existing.wgVerified
    && (|| existing.deviceId == m.deviceId
        || existing.request.wgKey == m.request.wgKey
        || existing.request.sshKey == m.request.sshKey
        || c.address(existing.networkId, existing.request.wgKey) == c.address(m.networkId, m.request.wgKey))
  }

  /** The first record that clashes with `m`, if any, is `m` itself. */
  ghost predicate FirstClashIsSame(c: Primitives, members: seq<Member>, m: Member) {
    exists k: nat :: NoClashBefore(c, members, m, k) && (k < |members| ==> members[k] == m)
  }

  ghost predicate NoClashBefore(c: Primitives, members: seq<Member>, m: Member, k: nat) {
    k <= |members| && forall j | 0 <= j < k :: !Clash(c, members[j], m)
  }

  ghost predicate Approvable(c: Primitives, s: Snapshot, m: Member, localOperator: bool) {
    && Valid(c, s)
    && m.wgVerified
    && MemberValid(c, m)
    && m.networkId == s.network.id
    && !Denied(c, s.revocations, m)
    && (m.independentAdmin ==> localOperator)
    && Authorized(c, s, m, localOperator)
    && FirstClashIsSame(c, s.members, m)
  }

  method Approve(c: Primitives, s: Snapshot, v: VerifiedEnrollment, a: Approval, localOperator: bool)
    returns (r: Result<Member, Error>)
    ensures r.Ok? <==> Approvable(c, s, NewMember(v, a), localOperator)
    ensures r.Ok? ==> r.value == NewMember(v, a)
  {
    var effective := Evaluate(c, s, a.createdAt);
    if effective.Err? {
      return Err(effective.error);
    }
    var m := NewMember(v, a);
    if !MemberValid(c, m) || m.networkId != s.network.id {
      return Err(Invalid);
    }
    if Denied(c, s.revocations, m) || (m.independentAdmin && !localOperator) {
      return Err(PermissionDenied);
    }
    match m.approvedBy {
      case None =>
        if !(localOperator && m.independentAdmin)
           && (m.deviceId != s.network.initialAdmin || !m.permissions.networkAdmin || s.members != [])
        {
          return Err(PermissionDenied);
        }
      case Some(parent) =>
        if parent !in effective.value {
          return Err(NotEffective(parent));
        }
        if !DelegatedBy(m, effective.value[parent]) {
          return Err(PermissionDenied);
        }
        assert Approves(effective.value[parent], m);
    }
    var free := CheckBindings(c, s.members, m);
    if !free {
      return Err(Conflict);
    }
    r := Ok(m);
  }

  /** The loop over existing records: the first one that clashes decides. */
  method CheckBindings(c: Primitives, members: seq<Member>, m: Member) returns (free: bool)
    requires m.wgVerified
    ensures free <==> FirstClashIsSame(c, members, m)
  {
    for i := 0 to |members|
      invariant forall j | 0 <= j < i :: !Clash(c, members[j], m)
    {
      if Clash(c, members[i], m) {
        assert NoClashBefore(c, members, m, i) && Clash(c, m, m);
        return members[i].deviceId == m.deviceId && members[i] == m;
      }
    }
    assert NoClashBefore(c, members, m, |members|);
    free := true;
  }

  /** Appending an approved member keeps the registry valid, admits it at once and loses nobody. */
  lemma ApprovalExtends(c: Primitives, s: Snapshot, m: Member, localOperator: bool)
    requires Approvable(c, s, m, localOperator)
    ensures Valid(c, WithMember(s, m))
    ensures Admitted(c, WithMember(s, m), m.createdAt, m)
    ensures forall now, other | Admitted(c, s, now, other) :: Admitted(c, WithMember(s, m), now, other)
  {
    var t := WithMember(s, m);
    if m in s.members {
      SameRecordsSameValidity(c, s, t);
    } else {
      ApprovalStaysValid(c, s, m);
    }
    forall now, other | Admitted(c, s, now, other)
      ensures Admitted(c, t, now, other)
    {
      AdmittedGrows(c, s, t, now, other);
    }
    AdmittedUnfold(c, t, m.createdAt, m);
    if m.approvedBy.Some? {
      var parent :| Admitted(c, s, m.createdAt, parent) && Approves(parent, m);
      AdmittedGrows(c, s, t, m.createdAt, parent);
    }
  }

  lemma NoClashCompatible(c: Primitives, s: Snapshot, m: Member, other: Member)
    requires !Clash(c, other, m) && m.networkId == other.networkId == s.network.id
    ensures Compatible(c, s, m, other) && Compatible(c, s, other, m)
  {}

  lemma ApprovalStaysValid(c: Primitives, s: Snapshot, m: Member)
    requires Valid(c, s) && MemberValid(c, m) && m.networkId == s.network.id
    requires FirstClashIsSame(c, s.members, m) && m !in s.members
    ensures Valid(c, WithMember(s, m))
  {
    var k: nat :| NoClashBefore(c, s.members, m, k) && (k < |s.members| ==> s.members[k] == m);
    assert k == |s.members|;
    forall other | other in s.members
      ensures Compatible(c, s, m, other) && Compatible(c, s, other, m)
    {
      NoClashCompatible(c, s, m, other);
    }
    ExtendValid(c, s, s.members, m);
    var t := WithMember(s, m);
    forall x, y | x in t.members && y in t.members
      ensures Compatible(c, t, x, y)
    {
      assert Compatible(c, s, x, y);
    }
  }

  /** With a different clashing record stored first, the same set of records refuses what it accepted. */
  lemma ClashFirstRefuses(c: Primitives, s: Snapshot, m: Member, other: Member, localOperator: bool)
    requires Approvable(c, s, m, localOperator)
    requires other in s.members && other != m && Clash(c, other, m)
    ensures var t := s.(members := [other] + s.members);
            SameRecords(s, t) && Valid(c, t) && !Approvable(c, t, m, localOperator)
  {
    var t := s.(members := [other] + s.members);
    assert t.members[0] == other;
    SameRecordsSameValidity(c, s, t);
  }

  lemma {:induction false} FirstOwnRecord(c: Primitives, members: seq<Member>, m: Member, from: nat)
    requires NoClashBefore(c, members, m, from) && forall other | other in members && other != m :: !Clash(c, other, m)
    ensures FirstClashIsSame(c, members, m)
    decreases |members| - from
  {
    if from < |members| && members[from] != m {
      FirstOwnRecord(c, members, m, from + 1);
    }
  }

  lemma SameRecordsAuthorize(c: Primitives, s: Snapshot, t: Snapshot, m: Member, localOperator: bool)
    requires SameRecords(s, t) && Authorized(c, s, m, localOperator)
    ensures Authorized(c, t, m, localOperator)
  {
    if m.approvedBy.Some? {
      var parent :| Admitted(c, s, m.createdAt, parent) && Approves(parent, m);
      AdmittedGrows(c, s, t, m.createdAt, parent);
    } else {
      EmptyOrMember(t.members);
    }
  }

  lemma EmptyOrMember(members: seq<Member>)
    ensures members == [] || members[0] in members
  {}

  lemma OtherOrderApproves(c: Primitives, s: Snapshot, t: Snapshot, m: Member, localOperator: bool)
    requires Approvable(c, s, m, localOperator) && SameRecords(s, t)
    requires forall other | other in t.members && other != m :: !Clash(c, other, m)
    ensures Approvable(c, t, m, localOperator)
  {
    SameRecordsSameValidity(c, s, t);
    SameRecordsAuthorize(c, s, t, m, localOperator);
    FirstOwnRecord(c, t.members, m, 0);
  }

  /** Approval, unlike evaluation, reads the records in order: it ignores the order exactly when no other record clashes. */
  lemma ApprovalIgnoresOrder(c: Primitives, s: Snapshot, m: Member, localOperator: bool)
    requires Approvable(c, s, m, localOperator)
    ensures (forall t | SameRecords(s, t) :: Approvable(c, t, m, localOperator)) <==>
            !exists other :: other in s.members && other != m && Clash(c, other, m)
  {
    if exists other :: other in s.members && other != m && Clash(c, other, m) {
      var other :| other in s.members && other != m && Clash(c, other, m);
      ClashFirstRefuses(c, s, m, other, localOperator);
    } else {
      forall t | SameRecords(s, t)
        ensures Approvable(c, t, m, localOperator)
      {
        OtherOrderApproves(c, s, t, m, localOperator);
      }
    }
  }

  // ----- Revocation -----

  function ServerIds(s: Snapshot): set<DeviceId> {
    set m | m in s.members && m.wgVerified && m.kind.Server? :: m.deviceId
  }

  /** `author` administers at `now` and may revoke the verified record `target`. */
  ghost predicate MayRevoke(c: Primitives, s: Snapshot, author: DeviceId, target: Member, now: nat) {
    && target in s.members && target.wgVerified
    && exists admin ::
         && Admitted(c, s, now, admin) && admin.deviceId == author
         && admin.permissions.networkAdmin
         && (target.kind.Server? ==> admin.permissions.serverAdmin)
  }

  function Denial(c: Primitives, s: Snapshot, id: RevocationId, author: DeviceId, target: Member, now: nat): Revocation {
    Revocation(id, target.deviceId, c.wgFingerprint(target.request.wgKey), c.sshFingerprint(target.request.sshKey),
               ServerIds(s), author, now)
  }

  predicate FreshId(s: Snapshot, r: Revocation) {
    forall previous | previous in s.revocations :: previous.id == r.id ==> previous == r
  }

  /** `r` is a denial that an effective administrator may record. */
  ghost predicate Plannable(c: Primitives, s: Snapshot, r: Revocation) {
    && Valid(c, s)
    && FreshId(s, r)
    && exists target :: MayRevoke(c, s, r.author, target, r.createdAt)
                        && r == Denial(c, s, r.id, r.author, target, r.createdAt)
  }

  method PlanRevocation(c: Primitives, s: Snapshot, id: RevocationId, author: DeviceId, target: DeviceId, now: nat)
    returns (r: Result<Revocation, Error>)
    ensures r.Ok? ==> Plannable(c, s, r.value)
    ensures r.Ok? ==> r.value.id == id && r.value.author == author && r.value.target == target && r.value.createdAt == now
    ensures r.Err? ==> forall q: Revocation | q.id == id && q.author == author && q.target == target && q.createdAt == now ::
                         !Plannable(c, s, q)
  {
    var m := AuthorizeRevocation(c, s, author, target, now);
    if m.Err? {
      return Err(m.error);
    }
    var revocation := Denial(c, s, id, author, m.value, now);
    if !FreshId(s, revocation) {
      return Err(Conflict);
    }
    r := Ok(revocation);
  }

  /** The checks before a denial is built: an effective administrator and a verified target. */
  method AuthorizeRevocation(c: Primitives, s: Snapshot, author: DeviceId, target: DeviceId, now: nat)
    returns (r: Result<Member, Error>)
    ensures r.Ok? ==> Valid(c, s) && r.value.deviceId == target && MayRevoke(c, s, author, r.value, now)
    ensures Valid(c, s) ==> forall m: Member | m.deviceId == target && MayRevoke(c, s, author, m, now) :: r == Ok(m)
  {
    var effective := Evaluate(c, s, now);
    if effective.Err? {
      return Err(effective.error);
    }
    if author !in effective.value {
      return Err(NotEffective(author));
    }
    var admin := effective.value[author];
    if !admin.permissions.networkAdmin {
      return Err(PermissionDenied);
    }
    var found := FindVerified(s.members, target);
    if found.None? {
      return Err(NotEffective(target));
    }
    assert forall other | other in s.members :: Compatible(c, s, found.value, other);
    if found.value.kind.Server? && !admin.permissions.serverAdmin {
      return Err(PermissionDenied);
    }
    r := Ok(found.value);
  }

  method FindVerified(members: seq<Member>, id: DeviceId) returns (found: Option<Member>)
    ensures found.Some? ==> found.value in members && found.value.wgVerified && found.value.deviceId == id
    ensures found.None? ==> forall m | m in members && m.wgVerified :: m.deviceId != id
  {
    for i := 0 to |members|
      invariant forall k | 0 <= k < i && members[k].wgVerified :: members[k].deviceId != id
    {
      if members[i].wgVerified && members[i].deviceId == id {
        return Some(members[i]);
      }
    }
    found := None;
  }

  // ----- Later snapshots -----

  /** `t` holds every record of `s`, whoever appended the others. */
  ghost predicate Extends(s: Snapshot, t: Snapshot) {
    && s.network == t.network
    && (forall m | m in s.members :: m in t.members)
    && (forall r | r in s.revocations :: r in t.revocations)
  }

  /** A member has one approval chain, whatever is appended later and whenever it is read. */
  lemma {:induction false} ChainUnique(
    c: Primitives, s: Snapshot, now: nat, chain: seq<Member>, t: Snapshot, later: nat, other: seq<Member>)
    requires Extends(s, t) && Valid(c, t)
    requires IsChain(c, s, now, chain) && IsChain(c, t, later, other) && chain[0] == other[0]
    ensures chain == other
    decreases |chain|
  {
    if |chain| > 1 && |other| > 1 {
      assert Approves(chain[1], chain[0]) && Approves(other[1], other[0]);
      assert Candidate(c, s, now, chain[1]) && Candidate(c, t, later, other[1]);
      assert Compatible(c, t, chain[1], other[1]);
      ChainTail(c, s, now, chain);
      ChainTail(c, t, later, other);
      ChainUnique(c, s, now, chain[1..], t, later, other[1..]);
      assert chain == [chain[0]] + chain[1..] && other == [other[0]] + other[1..];
    } else {
      assert |chain| > 1 ==> Approves(chain[1], chain[0]);
      assert |other| > 1 ==> Approves(other[1], other[0]);
    }
  }

  /** The member itself or somebody above it has been denied. */
  ghost predicate CutOff(c: Primitives, revocations: seq<Revocation>, chain: seq<Member>) {
    exists i | 0 <= i < |chain| :: Denied(c, revocations, chain[i])
  }

  /**
  A member stays effective for its own interval in every later valid snapshot,
  until a denial covers it or one of its ancestors. Then it is gone for good.
  */
  lemma MembershipPersistsUntilCutOff(
    c: Primitives, s: Snapshot, now: nat, chain: seq<Member>, t: Snapshot, later: nat)
    requires IsChain(c, s, now, chain) && Extends(s, t) && Valid(c, t)
    ensures Admitted(c, t, later, chain[0]) <==> Live(chain[0], later) && !CutOff(c, t.revocations, chain)
  {
    if Admitted(c, t, later, chain[0]) {
      var other :| IsChain(c, t, later, other) && other[0] == chain[0];
      ChainUnique(c, s, now, chain, t, later, other);
      assert forall i | 0 <= i < |chain| :: Candidate(c, t, later, chain[i]);
    }
    if Live(chain[0], later) && !CutOff(c, t.revocations, chain) {
      forall i | 0 <= i < |chain|
        ensures Candidate(c, t, later, chain[i])
      {
        assert Candidate(c, s, now, chain[i]);
        AncestorsOutlive(c, s, now, later, chain, i);
      }
      assert IsChain(c, t, later, chain);
    }
  }

  lemma RevocationStaysValid(c: Primitives, s: Snapshot, r: Revocation)
    requires Valid(c, s) && FreshId(s, r)
    ensures Valid(c, WithRevocation(s, r)) && Extends(s, WithRevocation(s, r))
  {
    var t := WithRevocation(s, r);
    forall x, y | x in t.members && y in t.members
      ensures Compatible(c, t, x, y)
    {
      assert Compatible(c, s, x, y);
    }
  }

  /** Appending a planned revocation removes exactly the denied members with their subtrees, and admits nobody. */
  lemma RevocationCutsSubtrees(c: Primitives, s: Snapshot, r: Revocation, now: nat, chain: seq<Member>)
    requires Plannable(c, s, r) && IsChain(c, s, now, chain)
    ensures Admitted(c, WithRevocation(s, r), now, chain[0]) <==> forall i | 0 <= i < |chain| :: !DeniedBy(c, r, chain[i])
    ensures forall m | Admitted(c, WithRevocation(s, r), now, m) :: Admitted(c, s, now, m)
  {
    var t := WithRevocation(s, r);
    RevocationStaysValid(c, s, r);
    MembershipPersistsUntilCutOff(c, s, now, chain, t, now);
    forall i | 0 <= i < |chain|
      ensures Denied(c, t.revocations, chain[i]) <==> DeniedBy(c, r, chain[i])
    {
      assert Candidate(c, s, now, chain[i]);
      assert r in t.revocations;
    }
    assert Live(chain[0], now) by {
      assert Candidate(c, s, now, chain[0]);
    }
    forall m | Admitted(c, t, now, m)
      ensures Admitted(c, s, now, m)
    {
      AdmittedGrows(c, t, s, now, m);
    }
  }

  // ----- Two orders of the same records -----

  /** Primitives under which the keys of two devices have one address. */
  function CollidingPrimitives(): Primitives {
    SamplePrimitives().(address := (n, k) => if k == "a" then "x" else "y")
  }

  // A root, the member to approve, and the other device.
  function SampleRoot(): Member { SampleMember("r", "a", Laptop, Permissions(true, false, None, {}), None) }
  function SampleChild(): Member { SampleMember("m", "b", Laptop, Permissions(false, false, None, {}), Some("r")) }
  function SampleOther(): Member { SampleMember("o", "c", Laptop, Permissions(false, false, None, {}), Some("r")) }

  function SampleSnapshot(members: seq<Member>, revocations: seq<Revocation>): Snapshot {
    Snapshot(Descriptor("net", "r"), members, revocations, [])
  }

  function SampleDenial(): Revocation { Revocation("d", "o", "c", "o", {}, "r", 0) }

  lemma SampleRootIsAdmitted(members: seq<Member>, revocations: seq<Revocation>)
    requires members != [] && members[0] == SampleRoot() && !Denied(CollidingPrimitives(), revocations, SampleRoot())
    ensures Admitted(CollidingPrimitives(), SampleSnapshot(members, revocations), 0, SampleRoot())
  {
    var s := SampleSnapshot(members, revocations);
    assert SampleRoot() in s.members;
    assert IsChain(CollidingPrimitives(), s, 0, [SampleRoot()]) && [SampleRoot()][0] == SampleRoot();
  }

  lemma SampleRecordsAreValid()
    ensures Valid(CollidingPrimitives(), SampleSnapshot([SampleRoot()], []))
    ensures Valid(CollidingPrimitives(), SampleSnapshot([SampleRoot(), SampleOther()], []))
  {}

  function MergedInOrder(): Snapshot { SampleSnapshot([SampleRoot(), SampleChild(), SampleOther()], [SampleDenial()]) }

  function MergedOutOfOrder(): Snapshot { SampleSnapshot([SampleRoot(), SampleOther(), SampleChild()], [SampleDenial()]) }

  lemma SamplesAreCompatible(x: Member, y: Member)
    requires x in {SampleRoot(), SampleChild(), SampleOther()} && y in {SampleRoot(), SampleChild(), SampleOther()}
    ensures MemberValid(CollidingPrimitives(), x) && Compatible(CollidingPrimitives(), MergedInOrder(), x, y)
  {
    assert SampleDenial() in MergedInOrder().revocations;
  }

  lemma SampleMergeIsValid()
    ensures Valid(CollidingPrimitives(), MergedInOrder())
  {
    forall x, y | x in MergedInOrder().members && y in MergedInOrder().members
      ensures MemberValid(CollidingPrimitives(), x) && Compatible(CollidingPrimitives(), MergedInOrder(), x, y)
    {
      SamplesAreCompatible(x, y);
    }
  }

  lemma SampleDenialIsPlanned()
    ensures Plannable(CollidingPrimitives(), SampleSnapshot([SampleRoot(), SampleOther()], []), SampleDenial())
  {
    var c, s := CollidingPrimitives(), SampleSnapshot([SampleRoot(), SampleOther()], []);
    SampleRecordsAreValid();
    SampleRootIsAdmitted(s.members, []);
    assert SampleOther() in s.members && MayRevoke(c, s, "r", SampleOther(), 0);
    assert ServerIds(s) == {};
    assert SampleDenial() == Denial(c, s, "d", "r", SampleOther(), 0);
  }

  lemma SamplesAreApproved()
    ensures Approves(SampleRoot(), SampleChild()) && Approves(SampleRoot(), SampleOther())
  {}

  lemma SampleIsApprovable(members: seq<Member>, revocations: seq<Revocation>)
    requires Valid(CollidingPrimitives(), SampleSnapshot(members, revocations))
    requires members != [] && members[0] == SampleRoot() && (|members| > 1 ==> members[1] == SampleChild())
    requires revocations == [] || revocations == [SampleDenial()]
    ensures Approvable(CollidingPrimitives(), SampleSnapshot(members, revocations), SampleChild(), false)
  {
    SampleRootIsAdmitted(members, revocations);
    SamplesAreApproved();
    assert NoClashBefore(CollidingPrimitives(), members, SampleChild(), 1);
  }

  lemma OtherIsApprovable()
    ensures Approvable(CollidingPrimitives(), SampleSnapshot([SampleRoot()], []), SampleOther(), false)
  {
    SampleRecordsAreValid();
    SampleRootIsAdmitted([SampleRoot()], []);
    SamplesAreApproved();
    assert NoClashBefore(CollidingPrimitives(), [SampleRoot()], SampleOther(), 1);
  }

  /** One replica approves a member, another one admits and then revokes a device whose key has the same address. */
  lemma ReplicasAct()
    ensures Approvable(CollidingPrimitives(), SampleSnapshot([SampleRoot()], []), SampleChild(), false)
    ensures Approvable(CollidingPrimitives(), SampleSnapshot([SampleRoot()], []), SampleOther(), false)
    ensures Plannable(CollidingPrimitives(), SampleSnapshot([SampleRoot(), SampleOther()], []), SampleDenial())
  {
    SampleRecordsAreValid();
    SampleIsApprovable([SampleRoot()], []);
    OtherIsApprovable();
    SampleDenialIsPlanned();
  }

  lemma SecondClashes(c: Primitives, members: seq<Member>, m: Member)
    requires |members| > 1 && members[0] != m && members[1] != m && Clash(c, members[1], m)
    ensures !FirstClashIsSame(c, members, m)
  {}

  /** Their merged records are valid. In one order they still approve the member, in the other they refuse it. */
  lemma ApprovalDependsOnOrder()
    ensures SameRecords(MergedInOrder(), MergedOutOfOrder())
    ensures Valid(CollidingPrimitives(), MergedInOrder()) && Valid(CollidingPrimitives(), MergedOutOfOrder())
    ensures Approvable(CollidingPrimitives(), MergedInOrder(), SampleChild(), false)
    ensures !Approvable(CollidingPrimitives(), MergedOutOfOrder(), SampleChild(), false)
  {
    SampleMergeIsValid();
    SampleIsApprovable(MergedInOrder().members, MergedInOrder().revocations);
    OtherOrderIsValid();
    SecondClashes(CollidingPrimitives(), MergedOutOfOrder().members, SampleChild());
  }

  lemma OtherOrderIsValid()
    ensures SameRecords(MergedInOrder(), MergedOutOfOrder()) && Valid(CollidingPrimitives(), MergedOutOfOrder())
  {
    SampleMergeIsValid();
    SameRecordsSameValidity(CollidingPrimitives(), MergedInOrder(), MergedOutOfOrder());
  }

  // ----- Whole runs -----

  /** One append: an approved member, a planned revocation, or an acknowledgement. */
  ghost predicate Step(c: Primitives, s: Snapshot, t: Snapshot) {
    || (exists m, localOperator :: Approvable(c, s, m, localOperator) && t == WithMember(s, m))
    || (exists r :: Plannable(c, s, r) && t == WithRevocation(s, r))
    || (exists ack :: t == s.(acks := s.acks + [ack]))
  }

  ghost predicate IsRun(c: Primitives, run: seq<Snapshot>) {
    && run != []
    && Valid(c, run[0])
    && forall i {:trigger StepAt(c, run, i)} | 0 < i < |run| :: StepAt(c, run, i)
  }

  ghost predicate StepAt(c: Primitives, run: seq<Snapshot>, i: int)
    requires 0 < i < |run|
  {
    Step(c, run[i - 1], run[i])
  }

  lemma StepKeepsValid(c: Primitives, s: Snapshot, t: Snapshot)
    requires Valid(c, s) && Step(c, s, t)
    ensures Valid(c, t) && Extends(s, t)
  {
    if exists m, localOperator :: Approvable(c, s, m, localOperator) && t == WithMember(s, m) {
      var m, localOperator :| Approvable(c, s, m, localOperator) && t == WithMember(s, m);
      ApprovalExtends(c, s, m, localOperator);
    } else if exists r :: Plannable(c, s, r) && t == WithRevocation(s, r) {
      var r :| Plannable(c, s, r) && t == WithRevocation(s, r);
      RevocationStaysValid(c, s, r);
    } else {
      SameRecordsSameValidity(c, s, t);
    }
  }

  lemma ExtendsThen(a: Snapshot, b: Snapshot, c: Snapshot)
    requires Extends(a, b) && Extends(b, c)
    ensures Extends(a, c)
  {}

  lemma NextState(c: Primitives, run: seq<Snapshot>, j: nat)
    requires IsRun(c, run) && j + 1 < |run| && Valid(c, run[j])
    ensures Valid(c, run[j + 1]) && Extends(run[j], run[j + 1])
  {
    assert StepAt(c, run, j + 1);
    StepKeepsValid(c, run[j], run[j + 1]);
  }

  /** Every state of a run is valid and extends every earlier one. */
  lemma {:induction false} RunStaysValid(c: Primitives, run: seq<Snapshot>, i: nat, j: nat)
    requires IsRun(c, run) && i <= j < |run|
    ensures Valid(c, run[j]) && Extends(run[i], run[j])
    decreases j
  {
    if i < j {
      RunStaysValid(c, run, i, j - 1);
      NextState(c, run, j - 1);
      ExtendsThen(run[i], run[j - 1], run[j]);
    } else if j > 0 {
      RunStaysValid(c, run, j - 1, j - 1);
      NextState(c, run, j - 1);
    }
  }

  /** The whole history of a member: effective from its admission on, in its interval, until it is cut off. */
  lemma RunDecidesMembership(c: Primitives, run: seq<Snapshot>, i: nat, now: nat, chain: seq<Member>, j: nat, later: nat)
    requires IsRun(c, run) && i <= j < |run| && IsChain(c, run[i], now, chain)
    ensures Admitted(c, run[j], later, chain[0]) <==>
            Live(chain[0], later) && !CutOff(c, run[j].revocations, chain)
  {
    RunStaysValid(c, run, i, j);
    MembershipPersistsUntilCutOff(c, run[i], now, chain, run[j], later);
  }

  /** Once a denial covers a member or an ancestor of it, no later state of any run has the member again. */
  lemma DeniedForever(
    c: Primitives, run: seq<Snapshot>, i: nat, now: nat, chain: seq<Member>, k: nat, denial: Revocation, at: nat, j: nat, later: nat)
    requires IsRun(c, run) && i <= j < |run| && at <= j && IsChain(c, run[i], now, chain)
    requires denial in run[at].revocations && k < |chain| && DeniedBy(c, denial, chain[k])
    ensures !Admitted(c, run[j], later, chain[0])
  {
    RunStaysValid(c, run, at, j);
    assert Denied(c, run[j].revocations, chain[k]);
    RunDecidesMembership(c, run, i, now, chain, j, later);
  }

  // ----- Revocation progress -----

  datatype Progress = Progress(applied: set<DeviceId>, pending: set<DeviceId>)

  predicate Enforced(s: Snapshot, id: RevocationId, boots: map<DeviceId, BootId>, server: DeviceId) {
    server in boots && Ack(id, server, boots[server]) in s.acks
  }

  /** Applied and pending servers for one denial, from current boots and stored acknowledgements. */
  ghost predicate IsProgress(s: Snapshot, r: Revocation, boots: map<DeviceId, BootId>, p: Progress) {
    && p.applied + p.pending == r.capturedServers + ServerIds(s)
    && p.applied !! p.pending
    && forall server | server in r.capturedServers + ServerIds(s) :: server in p.applied <==> Enforced(s, r.id, boots, server)
  }

  method RevocationProgress(c: Primitives, s: Snapshot, id: RevocationId, boots: map<DeviceId, BootId>)
    returns (p: Result<Progress, Error>)
    ensures p.Ok? <==> Valid(c, s) && exists r | r in s.revocations :: r.id == id
    ensures p.Ok? ==> forall r | r in s.revocations && r.id == id :: IsProgress(s, r, boots, p.value)
  {
    var valid := Validate(c, s);
    if valid.Err? {
      return Err(valid.error);
    }
    for i := 0 to |s.revocations|
      invariant forall k | 0 <= k < i :: s.revocations[k].id != id
    {
      if s.revocations[i].id == id {
        var required := s.revocations[i].capturedServers + ServerIds(s);
        var applied := set server | server in required && Enforced(s, id, boots, server);
        return Ok(Progress(applied, required - applied));
      }
    }
    p := Err(UnknownRevocation);
  }

  /** Losing acknowledgements moves servers from applied to pending and invents nothing. */
  lemma LostAcksOnlyDelay(
    s: Snapshot, acks: seq<Ack>, r: Revocation, boots: map<DeviceId, BootId>, full: Progress, lossy: Progress)
    requires forall ack | ack in acks :: ack in s.acks
    requires IsProgress(s, r, boots, full) && IsProgress(s.(acks := acks), r, boots, lossy)
    ensures lossy.applied <= full.applied
    ensures full.pending <= lossy.pending
    ensures lossy.applied + lossy.pending == full.applied + full.pending
  {
    assert ServerIds(s) == ServerIds(s.(acks := acks));
    forall server | server in lossy.applied
      ensures server in full.applied
    {
      assert Enforced(s, r.id, boots, server);
    }
  }
}
