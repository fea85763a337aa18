/**
Who is a member now: the fixpoint loop of `RegistrySnapshot::effective_members`
against the approval chains it stands for (tako-network/src/registry.rs).
*/
module EffectiveMembers {
  import opened Results
  import opened Registry

  // ----- Approval chains -----

  /** A record that counts at `now`: verified, live and not denied. */
  predicate Candidate(c: Primitives, s: Snapshot, now: nat, m: Member) {
    m in s.members && m.wgVerified && Live(m, now) && !Denied(c, s.revocations, m)
  }

  predicate IsRoot(s: Snapshot, m: Member) {
    m.approvedBy.None? && (m.independentAdmin || (m.deviceId == s.network.initialAdmin && m.permissions.networkAdmin))
  }

  predicate Approves(parent: Member, m: Member) {
    m.approvedBy == Some(parent.deviceId) && DelegatedBy(m, parent)
  }

  /** From a member to a root, every record a candidate and each approved by the next. */
  ghost predicate IsChain(c: Primitives, s: Snapshot, now: nat, chain: seq<Member>) {
    && chain != []
    && (forall i | 0 <= i < |chain| :: Candidate(c, s, now, chain[i]))
    && (forall i | 0 < i < |chain| :: Approves(chain[i], chain[i - 1]))
    && IsRoot(s, chain[|chain| - 1])
  }

  ghost predicate Admitted(c: Primitives, s: Snapshot, now: nat, m: Member) {
    exists chain :: IsChain(c, s, now, chain) && chain[0] == m
  }

  lemma ChainTail(c: Primitives, s: Snapshot, now: nat, chain: seq<Member>)
    requires IsChain(c, s, now, chain) && |chain| > 1
    ensures IsChain(c, s, now, chain[1..]) && Admitted(c, s, now, chain[1])
  {
    var tail := chain[1..];
    assert forall i | 0 < i < |tail| :: Approves(chain[i + 1], chain[i]);
    assert tail[0] == chain[1];
  }

  lemma ChainCons(c: Primitives, s: Snapshot, now: nat, m: Member, chain: seq<Member>)
    requires IsChain(c, s, now, chain) && Candidate(c, s, now, m) && Approves(chain[0], m)
    ensures IsChain(c, s, now, [m] + chain) && Admitted(c, s, now, m)
  {
    var longer := [m] + chain;
    forall i | 0 < i < |longer|
      ensures Approves(longer[i], longer[i - 1])
    {
      assert longer[i] == chain[i - 1];
      assert i > 1 ==> longer[i - 1] == chain[i - 2];
    }
    assert longer[0] == m;
  }

  /** The local rule of the loop characterises admission: a root, or approved by someone admitted. */
  lemma AdmittedUnfold(c: Primitives, s: Snapshot, now: nat, m: Member)
    ensures Admitted(c, s, now, m) <==>
            Candidate(c, s, now, m) &&
            (IsRoot(s, m) || exists parent :: Admitted(c, s, now, parent) && Approves(parent, m))
  {
    if Admitted(c, s, now, m) {
      var chain :| IsChain(c, s, now, chain) && chain[0] == m;
      if |chain| > 1 {
        ChainTail(c, s, now, chain);
        assert Approves(chain[1], chain[0]);
      }
    }
    if Candidate(c, s, now, m) && IsRoot(s, m) {
      assert IsChain(c, s, now, [m]) && [m][0] == m;
    }
    if Candidate(c, s, now, m) && exists parent :: Admitted(c, s, now, parent) && Approves(parent, m) {
      var parent :| Admitted(c, s, now, parent) && Approves(parent, m);
      var chain :| IsChain(c, s, now, chain) && chain[0] == parent;
      ChainCons(c, s, now, m, chain);
    }
  }

  // ----- The fixpoint loop -----

  /** The map that the loop must return: the admitted members under their device IDs. */
  ghost predicate IsEffectiveMap(c: Primitives, s: Snapshot, now: nat, effective: map<DeviceId, Member>) {
    && (forall id | id in effective :: effective[id].deviceId == id && Admitted(c, s, now, effective[id]))
    && (forall m :: Admitted(c, s, now, m) ==> m.deviceId in effective && effective[m.deviceId] == m)
  }

  lemma EffectiveMapUnique(c: Primitives, s: Snapshot, now: nat, a: map<DeviceId, Member>, b: map<DeviceId, Member>)
    requires IsEffectiveMap(c, s, now, a) && IsEffectiveMap(c, s, now, b)
    ensures a == b
  {
    assert forall id | id in a :: a[id].deviceId == id;
    assert forall id | id in b :: b[id].deviceId == id;
    assert a.Keys == b.Keys;
  }

  predicate Ready(s: Snapshot, effective: map<DeviceId, Member>, m: Member) {
    match m.approvedBy
    case None => m.independentAdmin || (m.deviceId == s.network.initialAdmin && m.permissions.networkAdmin)
    case Some(parent) => parent in effective && DelegatedBy(m, effective[parent])
  }

  /** Each candidate is in exactly one of the two maps, under its own ID. */
  ghost predicate Split(
    c: Primitives, s: Snapshot, now: nat, pending: map<DeviceId, Member>, effective: map<DeviceId, Member>)
  {
    && pending.Keys !! effective.Keys
    && (forall id | id in pending :: pending[id].deviceId == id && Candidate(c, s, now, pending[id]))
    && (forall id | id in effective :: effective[id].deviceId == id && Candidate(c, s, now, effective[id]))
    && (forall m | Candidate(c, s, now, m) ::
          || (m.deviceId in pending && pending[m.deviceId] == m)
          || (m.deviceId in effective && effective[m.deviceId] == m))
  }

  /** Once nothing pending is ready, every chain lies inside the map. */
  lemma {:induction false} ChainInsideFixpoint(
    c: Primitives, s: Snapshot, now: nat, pending: map<DeviceId, Member>, effective: map<DeviceId, Member>, chain: seq<Member>)
    requires Split(c, s, now, pending, effective)
    requires forall id | id in pending :: !Ready(s, effective, pending[id])
    requires IsChain(c, s, now, chain)
    ensures chain[0].deviceId in effective && effective[chain[0].deviceId] == chain[0]
    decreases |chain|
  {
    assert Candidate(c, s, now, chain[0]);
    if |chain| > 1 {
      ChainTail(c, s, now, chain);
      ChainInsideFixpoint(c, s, now, pending, effective, chain[1..]);
      assert Approves(chain[1], chain[0]);
    }
  }

  method CollectCandidates(c: Primitives, s: Snapshot, now: nat) returns (pending: map<DeviceId, Member>)
    requires Valid(c, s)
    ensures Split(c, s, now, pending, map[])
  {
    pending := map[];
    for i := 0 to |s.members|
      invariant forall id | id in pending :: pending[id].deviceId == id && Candidate(c, s, now, pending[id])
      invariant forall m | m in s.members[..i] && Candidate(c, s, now, m) ::
                  m.deviceId in pending && pending[m.deviceId] == m
    {
      var m := s.members[i];
      assert s.members[..i + 1] == s.members[..i] + [m];
      if m.wgVerified && Live(m, now) && !Denied(c, s.revocations, m) {
        assert forall other | other in s.members :: Compatible(c, s, m, other);
        pending := pending[m.deviceId := m];
      }
    }
    assert s.members[..|s.members|] == s.members;
  }

  /** A ready record is admitted, if everything already in the map is. */
  lemma ReadyIsAdmitted(c: Primitives, s: Snapshot, now: nat, effective: map<DeviceId, Member>, m: Member)
    requires Candidate(c, s, now, m) && Ready(s, effective, m)
    requires forall id | id in effective :: effective[id].deviceId == id && Admitted(c, s, now, effective[id])
    ensures Admitted(c, s, now, m)
  {
    AdmittedUnfold(c, s, now, m);
    if m.approvedBy.Some? {
      assert Approves(effective[m.approvedBy.value], m);
    }
  }

  lemma SplitAfterMove(
    c: Primitives, s: Snapshot, now: nat, pending: map<DeviceId, Member>, effective: map<DeviceId, Member>,
    ready: map<DeviceId, Member>)
    requires Split(c, s, now, pending, effective)
    requires forall id | id in ready :: id in pending && ready[id] == pending[id]
    ensures Split(c, s, now, pending - ready.Keys, effective + ready)
  {}

  /** Rounds of the loop until nothing pending is ready. */
  method Fixpoint(c: Primitives, s: Snapshot, now: nat, candidates: map<DeviceId, Member>)
    returns (effective: map<DeviceId, Member>, ghost left: map<DeviceId, Member>)
    requires Split(c, s, now, candidates, map[])
    ensures Split(c, s, now, left, effective)
    ensures forall id | id in effective :: Admitted(c, s, now, effective[id])
    ensures forall id | id in left :: !Ready(s, effective, left[id])
  {
    var pending := candidates;
    effective := map[];
    while true
      invariant Split(c, s, now, pending, effective)
      invariant forall id | id in effective :: Admitted(c, s, now, effective[id])
      decreases |pending.Keys|
    {
      var ready := map id | id in pending && Ready(s, effective, pending[id]) :: pending[id];
      if ready.Keys == {} {
        assert forall id | id in pending :: id !in ready.Keys;
        left := pending;
        return;
      }
      forall id | id in ready
        ensures Admitted(c, s, now, ready[id])
      {
        ReadyIsAdmitted(c, s, now, effective, ready[id]);
      }
      SplitAfterMove(c, s, now, pending, effective, ready);
      SmallerSet((pending - ready.Keys).Keys, pending.Keys);
      pending := pending - ready.Keys;
      effective := effective + ready;
    }
  }

  /** `effective_members`: rejects exactly the invalid snapshots, else returns exactly the admitted members. */
  method Evaluate(c: Primitives, s: Snapshot, now: nat) returns (r: Result<map<DeviceId, Member>, Error>)
    ensures r.Ok? <==> Valid(c, s)
    ensures r.Ok? ==> IsEffectiveMap(c, s, now, r.value)
  {
    var valid := Validate(c, s);
    if valid.Err? {
      return Err(valid.error);
    }
    var pending := CollectCandidates(c, s, now);
    var effective, left := Fixpoint(c, s, now, pending);
    forall m | Admitted(c, s, now, m)
      ensures m.deviceId in effective && effective[m.deviceId] == m
    {
      var chain :| IsChain(c, s, now, chain) && chain[0] == m;
      ChainInsideFixpoint(c, s, now, left, effective, chain);
    }
    r := Ok(effective);
  }

  lemma SmallerSet<T>(a: set<T>, b: set<T>)
    requires a < b
    ensures |a| < |b|
  {
    assert b == a + (b - a);
    assert b - a != {};
  }

  // ----- Cycles and missing ancestors -----

  /** Verified records whose approvals run in a circle. */
  ghost predicate IsCycle(s: Snapshot, cycle: seq<Member>) {
    && cycle != []
    && (forall i | 0 <= i < |cycle| :: cycle[i] in s.members && cycle[i].wgVerified)
    && (forall i | 0 <= i < |cycle| :: cycle[i].approvedBy == Some(cycle[(i + 1) % |cycle|].deviceId))
  }

  lemma {:induction false} CycleNeverAdmitted(c: Primitives, s: Snapshot, now: nat, cycle: seq<Member>, k: nat, chain: seq<Member>)
    requires Valid(c, s) && IsCycle(s, cycle) && k < |cycle|
    requires IsChain(c, s, now, chain)
    ensures chain[0] != cycle[k]
    decreases |chain|
  {
    if chain[0] == cycle[k] {
      var next := (k + 1) % |cycle|;
      ChainTail(c, s, now, chain);
      assert Approves(chain[1], chain[0]) && Candidate(c, s, now, chain[1]);
      assert Compatible(c, s, chain[1], cycle[next]);
      CycleNeverAdmitted(c, s, now, cycle, next, chain[1..]);
      assert false;
    }
  }

  /** No member of an approval circle, and nobody whose approver is not admitted, is ever effective. */
  lemma NoCycleNoOrphan(c: Primitives, s: Snapshot, now: nat, m: Member)
    requires Valid(c, s) && m in s.members
    requires (exists cycle, k :: IsCycle(s, cycle) && 0 <= k < |cycle| && cycle[k] == m)
             || (m.approvedBy.Some? &&
                 forall parent | Admitted(c, s, now, parent) :: parent.deviceId != m.approvedBy.value)
    ensures !Admitted(c, s, now, m)
  {
    if Admitted(c, s, now, m) {
      var chain :| IsChain(c, s, now, chain) && chain[0] == m;
      if exists cycle, k :: IsCycle(s, cycle) && 0 <= k < |cycle| && cycle[k] == m {
        var cycle, k :| IsCycle(s, cycle) && 0 <= k < |cycle| && cycle[k] == m;
        CycleNeverAdmitted(c, s, now, cycle, k, chain);
      } else {
        AdmittedUnfold(c, s, now, m);
      }
    }
  }
}
