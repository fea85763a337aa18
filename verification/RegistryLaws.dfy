/**
What the registry promises over whole chains and replicas: convergence, growth,
attenuation of rights and lifetimes (tako-network/src/registry.rs).
*/
module RegistryLaws {
  import opened Results
  import opened Registry
  import opened EffectiveMembers

  // ----- Replicas -----

  /** The same records, in any order and with any duplication. */
  ghost predicate SameRecords(s: Snapshot, t: Snapshot) {
    && s.network == t.network
    && (forall m :: m in s.members <==> m in t.members)
    && (forall r :: r in s.revocations <==> r in t.revocations)
  }

  /** `t` knows every member of `s`, and `s` every denial of `t`. */
  ghost predicate Grows(s: Snapshot, t: Snapshot) {
    && s.network == t.network
    && (forall m | m in s.members :: m in t.members)
    && (forall r | r in t.revocations :: r in s.revocations)
  }

  lemma AdmittedGrows(c: Primitives, s: Snapshot, t: Snapshot, now: nat, m: Member)
    requires Grows(s, t) && Admitted(c, s, now, m)
    ensures Admitted(c, t, now, m)
  {
    var chain :| IsChain(c, s, now, chain) && chain[0] == m;
    forall i | 0 <= i < |chain|
      ensures Candidate(c, t, now, chain[i])
    {
      assert Candidate(c, s, now, chain[i]);
    }
    assert IsChain(c, t, now, chain);
  }

  /** Among valid snapshots the effective map grows with members and shrinks with denials. */
  lemma EffectiveMapGrows(
    c: Primitives, s: Snapshot, t: Snapshot, now: nat, before: map<DeviceId, Member>, after: map<DeviceId, Member>)
    requires Grows(s, t)
    requires IsEffectiveMap(c, s, now, before) && IsEffectiveMap(c, t, now, after)
    ensures forall id | id in before :: id in after && after[id] == before[id]
  {
    forall id | id in before
      ensures id in after && after[id] == before[id]
    {
      AdmittedGrows(c, s, t, now, before[id]);
    }
  }

  lemma SameRecordsSameValidity(c: Primitives, s: Snapshot, t: Snapshot)
    requires SameRecords(s, t) && Valid(c, s)
    ensures Valid(c, t)
  {
    forall m | m in t.members
      ensures Denied(c, s.revocations, m) == Denied(c, t.revocations, m)
    {}
    forall m, other | m in t.members && other in t.members
      ensures Compatible(c, t, m, other)
    {
      assert Compatible(c, s, m, other);
    }
  }

  /** Two replicas with the same records both reject, or return the same effective map. */
  lemma Convergence(c: Primitives, s: Snapshot, t: Snapshot, now: nat, effective: map<DeviceId, Member>)
    requires SameRecords(s, t)
    ensures Valid(c, s) <==> Valid(c, t)
    ensures IsEffectiveMap(c, s, now, effective) <==> IsEffectiveMap(c, t, now, effective)
  {
    if Valid(c, s) { SameRecordsSameValidity(c, s, t); }
    if Valid(c, t) { SameRecordsSameValidity(c, t, s); }
    forall m
      ensures Admitted(c, s, now, m) <==> Admitted(c, t, now, m)
    {
      if Admitted(c, s, now, m) { AdmittedGrows(c, s, t, now, m); }
      if Admitted(c, t, now, m) { AdmittedGrows(c, t, s, now, m); }
    }
  }

  /** The two calls a pair of replicas makes, side by side. */
  method EvaluateReplicas(c: Primitives, s: Snapshot, t: Snapshot, now: nat)
    returns (here: Result<map<DeviceId, Member>, Error>, there: Result<map<DeviceId, Member>, Error>)
    requires SameRecords(s, t)
    ensures here.Ok? <==> there.Ok?
    ensures here.Ok? ==> here.value == there.value
  {
    here := Evaluate(c, s, now);
    there := Evaluate(c, t, now);
    Convergence(c, s, t, now, map[]);
    if here.Ok? {
      Convergence(c, s, t, now, here.value);
      EffectiveMapUnique(c, t, now, here.value, there.value);
    }
  }

  // ----- Attenuation along a chain -----

  lemma AncestorsAdminister(c: Primitives, s: Snapshot, now: nat, chain: seq<Member>, i: nat)
    requires IsChain(c, s, now, chain) && 0 < i < |chain|
    ensures chain[i].permissions.networkAdmin
  {
    assert Approves(chain[i], chain[i - 1]);
  }

  /** No more than what `root` holds, when `root` is not a server administrator. */
  predicate Within(root: Member, m: Member) {
    && m.kind.Laptop?
    && !m.permissions.serverAdmin
    && m.permissions.deployments <= root.permissions.deployments
    && (m.permissions.sshUser.None? || m.permissions.sshUser == root.permissions.sshUser)
  }

  /** Below a root without server_admin nobody gains anything the root does not hold. */
  lemma {:induction false} TreeStaysWithinRoot(c: Primitives, s: Snapshot, now: nat, chain: seq<Member>, i: nat)
    requires IsChain(c, s, now, chain) && i + 1 < |chain|
    requires !chain[|chain| - 1].permissions.serverAdmin
    ensures Within(chain[|chain| - 1], chain[i])
    decreases |chain| - i
  {
    assert Approves(chain[i + 1], chain[i]);
    if i + 2 < |chain| {
      TreeStaysWithinRoot(c, s, now, chain, i + 1);
    }
  }

  /** The root itself escapes the rule on servers, and nobody else does. */
  lemma TreeHoldsServerOnlyAtRoot(c: Primitives, s: Snapshot, now: nat, chain: seq<Member>)
    requires IsChain(c, s, now, chain) && !chain[|chain| - 1].permissions.serverAdmin
    ensures (exists i | 0 <= i < |chain| :: chain[i].kind.Server?) <==> chain[|chain| - 1].kind.Server?
  {
    forall i | 0 <= i < |chain| - 1
      ensures chain[i].kind.Laptop?
    {
      TreeStaysWithinRoot(c, s, now, chain, i);
    }
  }

  /** Primitives under which the records below are acceptable. */
  function SamplePrimitives(): Primitives {
    Primitives(k => k, k => k, (n, k) => k, (n, kind, ssh, wg) => ssh, r => true, i => true)
  }

  function SampleMember(ssh: string, wg: string, kind: MemberKind, permissions: Permissions, approvedBy: Option<DeviceId>): Member {
    Member("net", ssh, Request(ENROLLMENT_VERSION, None, KindOf(kind), "request", None, "name", wg, ssh, None, "proof"),
           kind, permissions, approvedBy, false, true, 0, None)
  }

  /** A server without server_admin can be the descriptor's initial admin. */
  lemma RootWithoutServerAdminMayBeServer()
    ensures var c := SamplePrimitives();
            var root := SampleMember("root-device", "wg", Server("info"), Permissions(true, false, None, {}), None);
            var s := Snapshot(Descriptor("net", "root-device"), [root], [], []);
            Valid(c, s) && Admitted(c, s, 0, root) && root.kind.Server? && !root.permissions.serverAdmin
  {
    var c := SamplePrimitives();
    var root := SampleMember("root-device", "wg", Server("info"), Permissions(true, false, None, {}), None);
    var s := Snapshot(Descriptor("net", "root-device"), [root], [], []);
    assert Compatible(c, s, root, root);
    assert IsChain(c, s, 0, [root]) && [root][0] == root;
  }

  // ----- Lifetimes -----

  lemma {:induction false} AncestorsOutlive(c: Primitives, s: Snapshot, now: nat, later: nat, chain: seq<Member>, i: nat)
    requires IsChain(c, s, now, chain) && i < |chain| && Live(chain[0], later)
    ensures Live(chain[i], later)
  {
    if i > 0 {
      AncestorsOutlive(c, s, now, later, chain, i - 1);
      assert Approves(chain[i], chain[i - 1]);
    }
  }

  /** In a fixed snapshot a member is effective at no time, or exactly throughout its own interval. */
  lemma EffectiveForOwnInterval(c: Primitives, s: Snapshot, m: Member, now: nat, later: nat)
    requires Admitted(c, s, now, m)
    ensures Admitted(c, s, later, m) <==> Live(m, later)
  {
    var chain :| IsChain(c, s, now, chain) && chain[0] == m;
    if Live(m, later) {
      forall i | 0 <= i < |chain|
        ensures Candidate(c, s, later, chain[i])
      {
        assert Candidate(c, s, now, chain[i]);
        AncestorsOutlive(c, s, now, later, chain, i);
      }
      assert IsChain(c, s, later, chain);
    } else {
      AdmittedUnfold(c, s, later, m);
    }
  }
}
