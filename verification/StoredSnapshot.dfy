/**
From a scan to a snapshot (tako-network/src/corrosion.rs): `finish`, and which
acknowledgements it keeps.
*/
module StoredSnapshot {
  import opened Results
  import opened Registry
  import opened Projection
  import opened PagedScan

  // ----- Sizes do not depend on the order -----

  function SumSizes(c: Codec, acks: seq<Ack>): nat {
    if acks == [] then 0 else SumSizes(c, acks[..|acks| - 1]) + c.ackSize(acks[|acks| - 1])
  }

  lemma {:induction false} SizeIsSum(c: Codec, acks: seq<Ack>)
    ensures AcksSize(c, acks) == SumSizes(c, acks) + if acks == [] then 0 else |acks| - 1
  {
    if acks != [] { SizeIsSum(c, acks[..|acks| - 1]); }
  }

  function Omit(acks: seq<Ack>, i: nat): seq<Ack>
    requires i < |acks|
  {
    acks[..i] + acks[i + 1..]
  }

  lemma {:induction false} SumOmit(c: Codec, acks: seq<Ack>, i: nat)
    requires i < |acks|
    ensures SumSizes(c, acks) == SumSizes(c, Omit(acks, i)) + c.ackSize(acks[i])
    decreases |acks|
  {
    var init := acks[..|acks| - 1];
    if i == |init| {
      assert Omit(acks, i) == init;
    } else {
      SumOmit(c, init, i);
      assert Omit(acks, i)[..|acks| - 2] == Omit(init, i);
    }
  }

  lemma OmitCounts(acks: seq<Ack>, i: nat)
    requires i < |acks|
    ensures multiset(acks) == multiset(Omit(acks, i)) + multiset{acks[i]}
  {
    assert acks == acks[..i] + [acks[i]] + acks[i + 1..];
  }

  lemma {:induction false} SumOfMultiset(c: Codec, a: seq<Ack>, b: seq<Ack>)
    requires multiset(a) == multiset(b)
    ensures SumSizes(c, a) == SumSizes(c, b)
    decreases |a|
  {
    assert |a| == |multiset(a)| == |b|;
    if a != [] {
      var last := a[|a| - 1];
      assert last in multiset(b);
      var i :| 0 <= i < |b| && b[i] == last;
      OmitCounts(a, |a| - 1);
      OmitCounts(b, i);
      assert Omit(a, |a| - 1) == a[..|a| - 1];
      assert multiset(a[..|a| - 1]) == multiset(a) - multiset{last};
      assert multiset(Omit(b, i)) == multiset(b) - multiset{last};
      SumOmit(c, b, i);
      SumOfMultiset(c, a[..|a| - 1], Omit(b, i));
    }
  }

  ghost predicate NoRepeats(acks: seq<Ack>) { forall i, j | 0 <= i < j < |acks| :: acks[i] != acks[j] }

  lemma {:induction false} CountOnce(acks: seq<Ack>, ack: Ack)
    requires NoRepeats(acks)
    ensures multiset(acks)[ack] == if ack in acks then 1 else 0
  {
    if acks != [] {
      var init, last := acks[..|acks| - 1], acks[|acks| - 1];
      CountOnce(init, ack);
      assert acks == init + [last];
    }
  }

  lemma SameMembers(a: seq<Ack>, b: seq<Ack>)
    requires NoRepeats(a) && NoRepeats(b) && forall ack | ack in a :: ack in b
    ensures |a| <= |b|
    ensures (forall ack | ack in b :: ack in a) ==> multiset(a) == multiset(b)
  {
    forall ack
      ensures multiset(a)[ack] <= multiset(b)[ack] && ((ack in b ==> ack in a) ==> multiset(a)[ack] == multiset(b)[ack])
    {
      CountOnce(a, ack);
      CountOnce(b, ack);
    }
    assert multiset(b) == multiset(a) + (multiset(b) - multiset(a));
  }

  // ----- From rows to a snapshot -----

  /** The stored acknowledgements, in some order. */
  method AckValues(acks: map<(RevocationId, DeviceId), Ack>) returns (values: seq<Ack>)
    requires forall key | key in acks :: AckKey(acks[key]) == key
    ensures |values| == |acks| && NoRepeats(values)
    ensures forall ack :: ack in values <==> AckKey(ack) in acks && acks[AckKey(ack)] == ack
  {
    values := [];
    var left := acks.Keys;
    while left != {}
      invariant left <= acks.Keys && |values| + |left| == |acks| && NoRepeats(values)
      invariant forall ack :: ack in values <==> AckKey(ack) in acks && acks[AckKey(ack)] == ack && AckKey(ack) !in left
      decreases |left|
    {
      var key :| key in left;
      values, left := values + [acks[key]], left - {key};
    }
  }

  /** Members and denials of the rows, without acknowledgements. */
  function Bare(c: Codec, pinned: Descriptor, rows: seq<Row>): Snapshot {
    Snapshot(pinned, MembersOf(c, rows), RevocationsOf(c, rows), [])
  }

  /** Exactly the latest acknowledgements, each once. */
  ghost predicate AllLatest(c: Codec, rows: seq<Row>, acks: seq<Ack>) {
    NoRepeats(acks) && forall ack :: ack in acks <==> IsLatest(c, rows, ack)
  }

  /**
  The snapshot holds the stored records: all members and denials, and latest
  acknowledgements. If all of these fit, none is missing.
  */
  ghost predicate Represents(c: Codec, pinned: Descriptor, rows: seq<Row>, s: Snapshot) {
    && s.(acks := []) == Bare(c, pinned, rows)
    && (forall ack | ack in s.acks :: IsLatest(c, rows, ack))
    && (forall all | AllLatest(c, rows, all) && Fits(c, s.(acks := all)) :: AllLatest(c, rows, s.acks))
  }

  /** When `finish` succeeds: the network row is there, and members and denials fit and are valid. */
  ghost predicate Finishes(c: Codec, prim: Primitives, pinned: Descriptor, rows: seq<Row>) {
    HasNetwork(rows) && Fits(c, Bare(c, pinned, rows)) && Valid(prim, Bare(c, pinned, rows))
  }

  lemma ValidIgnoresAcks(prim: Primitives, s: Snapshot, acks: seq<Ack>)
    ensures Valid(prim, s.(acks := acks)) <==> Valid(prim, s)
  {
    var t := s.(acks := acks);
    assert forall m, other :: Compatible(prim, t, m, other) == Compatible(prim, s, m, other);
  }

  lemma LatestIsUnique(c: Codec, rows: seq<Row>, a: Ack, b: Ack)
    requires IsLatest(c, rows, a) && IsLatest(c, rows, b) && AckKey(a) == AckKey(b)
    ensures a == b
  {
    var i :| LatestAt(c, rows, i, a);
    var j :| LatestAt(c, rows, j, b);
  }

  /** If all latest acknowledgements fit, the projected ones are all of them and fit too. */
  lemma AllFitTogether(
    c: Codec, rows: seq<Row>, s: Snapshot, acks: map<(RevocationId, DeviceId), Ack>, values: seq<Ack>, all: seq<Ack>)
    requires AcksFrom(c, rows, acks) && |values| == |acks| && NoRepeats(values)
    requires forall ack :: ack in values <==> AckKey(ack) in acks && acks[AckKey(ack)] == ack
    requires AllLatest(c, rows, all) && Fits(c, s.(acks := all))
    ensures AllLatest(c, rows, values) && Fits(c, s.(acks := values))
  {
    SameMembers(values, all);
    forall ack | IsLatest(c, rows, ack)
      ensures ack in values
    {
      LatestIsUnique(c, rows, ack, acks[AckKey(ack)]);
    }
    assert multiset(values) == multiset(all);
    SizeIsSum(c, values);
    SizeIsSum(c, all);
    SumOfMultiset(c, values, all);
    assert |values| == |multiset(values)| == |all|;
  }

  /** `finish` succeeds exactly under its condition, and then represents the rows. */
  method Finish(c: Codec, prim: Primitives, p: Projected, ghost pinned: Descriptor, ghost rows: seq<Row>)
    returns (r: Result<Snapshot, ScanError>)
    requires Sorted(rows) && PushAll(c, Fresh(pinned), rows) == Ok(p)
    ensures r.Ok? <==> Finishes(c, prim, pinned, rows)
    ensures r.Ok? ==> Represents(c, pinned, rows, r.value) && Fits(c, r.value) && Valid(prim, r.value)
    ensures r.Err? ==> (r.error.MissingNetwork? <==> !HasNetwork(rows))
  {
    ProjectionContents(c, pinned, rows);
    LatestAcksAreKept(c, rows);
    if !p.networkSeen {
      return Err(MissingNetwork);
    }
    var acks := AckValues(p.acks);
    var s := Snapshot(p.network, p.members, p.revocations, acks);
    r := BoundProjection(c, s);
    if r.Err? {
      return;
    }
    RepresentsRows(c, pinned, rows, p, s, r.value);
    ValidIgnoresAcks(prim, r.value, []);
    var valid := Validate(prim, r.value);
    if valid.Err? {
      r := Err(InvalidSnapshot);
    }
  }

  lemma RepresentsRows(c: Codec, pinned: Descriptor, rows: seq<Row>, p: Projected, s: Snapshot, bounded: Snapshot)
    requires AcksFrom(c, rows, p.acks) && |s.acks| == |p.acks| && NoRepeats(s.acks)
    requires forall ack :: ack in s.acks <==> AckKey(ack) in p.acks && p.acks[AckKey(ack)] == ack
    requires s.(acks := []) == Bare(c, pinned, rows) && bounded == s.(acks := bounded.acks)
    requires Subsequence(bounded.acks, s.acks) && (Fits(c, s) ==> bounded == s)
    ensures Represents(c, pinned, rows, bounded)
  {
    forall ack | ack in bounded.acks
      ensures ack in s.acks
    {
      SubsequenceMember(bounded.acks, s.acks, ack);
    }
    forall all | AllLatest(c, rows, all) && Fits(c, bounded.(acks := all))
      ensures AllLatest(c, rows, bounded.acks)
    {
      assert bounded.(acks := all) == s.(acks := all);
      AllFitTogether(c, rows, s, p.acks, s.acks, all);
      assert s.(acks := s.acks) == s;
    }
  }

  /**
  The snapshot that a scan yields is the plain set of stored records. A reliable store whose
  rows fit alone yields it exactly when the rows project and finish.
  */
  method ReadSnapshot(db: Corrosion, c: Codec, prim: Primitives, pinned: Descriptor) returns (r: Result<Snapshot, ScanError>)
    requires Sorted(db.table) && db.fits([])
    ensures r.Ok? ==> Represents(c, pinned, Scanned(db.table), r.value) && Fits(c, r.value) && Valid(prim, r.value)
    ensures db.reliable && (forall row | row in db.table :: db.fits([row])) ==>
              (r.Ok? <==> PushAll(c, Fresh(pinned), Scanned(db.table)).Ok? && Finishes(c, prim, pinned, Scanned(db.table)))
  {
    var projection := ReadRows(db, c, pinned);
    if projection.Err? {
      return Err(projection.error);
    }
    ScannedIsSorted(db.table);
    r := Finish(c, prim, projection.value.State(), pinned, Scanned(db.table));
  }

  lemma ScannedIsSorted(table: seq<Row>)
    requires Sorted(table)
    ensures Sorted(Scanned(table))
  {
    if Scanned(table) != table {
      SortedPart(table, 1, |table|);
      assert table[1..] == table[1..|table|];
    }
  }
}
