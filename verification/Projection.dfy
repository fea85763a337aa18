/**
The registry as stored rows (tako-network/src/corrosion.rs): projecting rows onto a
snapshot one by one, and bounding the evidence in it.
*/
module Projection {
  import opened Results
  import opened Registry
  import RegistryRuns

  const MAX_REGISTRY_ROWS: nat := 10_000
  const MAX_REGISTRY_BYTES: nat := 16_777_216
  const MAX_RECORD_BYTES: nat := 131_072
  const MAX_REVOCATION_BYTES: nat := 671_024

  // ----- Keys -----

  datatype Key = Key(kind: string, id: string, digest: string)
  datatype Row = Row(key: Key, payload: string)

  /** Lexicographic order of text. */
  predicate TextBefore(a: string, b: string) {
    b != [] && (a == [] || a[0] < b[0] || (a[0] == b[0] && TextBefore(a[1..], b[1..])))
  }

  predicate KeyBefore(a: Key, b: Key) {
    || TextBefore(a.kind, b.kind)
    || (a.kind == b.kind && (TextBefore(a.id, b.id) || (a.id == b.id && TextBefore(a.digest, b.digest))))
  }

  lemma {:induction false} TextAsymmetric(a: string, b: string)
    ensures !(TextBefore(a, b) && TextBefore(b, a))
  {
    if a != [] && b != [] { TextAsymmetric(a[1..], b[1..]); }
  }

  lemma KeyAsymmetric(a: Key, b: Key)
    ensures !(KeyBefore(a, b) && KeyBefore(b, a))
  {
    TextAsymmetric(a.kind, b.kind);
    TextAsymmetric(a.id, b.id);
    TextAsymmetric(a.digest, b.digest);
  }

  predicate SameRecord(a: Key, b: Key) { a.kind == b.kind && a.id == b.id }

  /** Rows of one record are neighbours. */
  lemma SameRecordBetween(a: Key, b: Key, c: Key)
    requires KeyBefore(a, b) && KeyBefore(b, c) && SameRecord(a, c)
    ensures SameRecord(b, c)
  {
    TextAsymmetric(a.kind, b.kind);
    TextAsymmetric(a.id, b.id);
  }

  /** A table lists its rows in key order, and no key twice. */
  ghost predicate Sorted(rows: seq<Row>) {
    forall i, j {:trigger RowBefore(rows, i, j)} | 0 <= i < j < |rows| :: RowBefore(rows, i, j)
  }

  predicate RowBefore(rows: seq<Row>, i: int, j: int)
    requires 0 <= i < |rows| && 0 <= j < |rows|
  {
    KeyBefore(rows[i].key, rows[j].key)
  }

  /** Part of a sorted table is sorted. */
  lemma SortedPart(rows: seq<Row>, from: nat, to: nat)
    requires Sorted(rows) && from <= to <= |rows|
    ensures Sorted(rows[from..to])
  {
    var part := rows[from..to];
    forall i, j | 0 <= i < j < |part|
      ensures RowBefore(part, i, j)
    {
      assert RowBefore(rows, from + i, from + j);
    }
  }

  // ----- Projecting one row -----

  datatype ScanError =
    | Transport
    | ResponseTooLarge
    | RecordTooLarge
    | DigestMismatch
    | RecordConflict
    | NetworkConflict
    | Malformed
    | WrongId
    | UnknownKind
    | ProjectionTooLarge
    | MissingNetwork
    | InvalidSnapshot

  /** Decoding, hashing and encoded sizes, as parameters. */
  datatype Codec = Codec(
    digest: string -> string,
    length: string -> nat,
    network: string -> Option<Descriptor>,
    member: string -> Option<Member>,
    revocation: string -> Option<Revocation>,
    ack: string -> Option<Ack>,
    ackId: Ack -> string,
    networkSize: Descriptor -> nat,
    memberSize: Member -> nat,
    revocationSize: Revocation -> nat,
    ackSize: Ack -> nat,
    baseSize: Snapshot -> nat)

  datatype Projected = Projected(
    network: Descriptor,
    members: seq<Member>,
    revocations: seq<Revocation>,
    acks: map<(RevocationId, DeviceId), Ack>,
    last: Option<Key>,
    bytes: nat,
    networkSeen: bool)

  function Fresh(pinned: Descriptor): Projected { Projected(pinned, [], [], map[], None, 0, false) }

  function RecordLimit(kind: string): nat { if kind == "revocation" then MAX_REVOCATION_BYTES else MAX_RECORD_BYTES }

  function PayloadError(c: Codec, row: Row): Option<ScanError> {
    if c.length(row.payload) > RecordLimit(row.key.kind) then Some(RecordTooLarge)
    else if row.key.digest != c.digest(row.payload) then Some(DigestMismatch)
    else None
  }

  function WithinLimits(p: Projected): Result<Projected, ScanError> {
    if p.bytes > MAX_REGISTRY_BYTES || |p.members| + |p.revocations| + 1 > MAX_REGISTRY_ROWS then Err(ProjectionTooLarge)
    else Ok(p)
  }

  function AckKey(ack: Ack): (RevocationId, DeviceId) { (ack.revocation, ack.server) }

  function AddNetwork(c: Codec, p: Projected, row: Row): Result<Projected, ScanError> {
    var network := c.network(row.payload);
    if network.None? then Err(Malformed)
    else if row.key.id != "network" || network.value != p.network then Err(NetworkConflict)
    else if c.networkSize(network.value) > MAX_REGISTRY_BYTES then Err(ProjectionTooLarge)
    else WithinLimits(p.(bytes := p.bytes + c.networkSize(network.value), networkSeen := true))
  }

  function AddMember(c: Codec, p: Projected, row: Row): Result<Projected, ScanError> {
    var member := c.member(row.payload);
    if member.None? then Err(Malformed)
    else if member.value.deviceId != row.key.id then Err(WrongId)
    else if c.memberSize(member.value) > MAX_REGISTRY_BYTES then Err(ProjectionTooLarge)
    else WithinLimits(p.(bytes := p.bytes + c.memberSize(member.value), members := p.members + [member.value]))
  }

  function AddRevocation(c: Codec, p: Projected, row: Row): Result<Projected, ScanError> {
    var revocation := c.revocation(row.payload);
    if revocation.None? then Err(Malformed)
    else if revocation.value.id != row.key.id then Err(WrongId)
    else if c.revocationSize(revocation.value) > MAX_REGISTRY_BYTES then Err(ProjectionTooLarge)
    else
      WithinLimits(p.(bytes := p.bytes + c.revocationSize(revocation.value), revocations := p.revocations + [revocation.value]))
  }

  function AddAck(c: Codec, p: Projected, row: Row): Result<Projected, ScanError> {
    var ack := c.ack(row.payload);
    if ack.None? then Err(Malformed)
    else if c.ackId(ack.value) != row.key.id then Err(WrongId)
    else
      var key := AckKey(ack.value);
      WithinLimits(if |p.acks| < MAX_REGISTRY_ROWS || key in p.acks then p.(acks := p.acks[key := ack.value]) else p)
  }

  /** What `push` does to the projection. */
  function PushRow(c: Codec, p: Projected, row: Row): Result<Projected, ScanError> {
    var bad := PayloadError(c, row);
    if bad.Some? then Err(bad.value)
    else if p.last.Some? && SameRecord(p.last.value, row.key) then
      if p.last.value.digest != row.key.digest then Err(RecordConflict) else Ok(p)
    else
      var q := p.(last := Some(row.key));
      if row.key.kind == "network" then AddNetwork(c, q, row)
      else if row.key.kind == "member" then AddMember(c, q, row)
      else if row.key.kind == "revocation" then AddRevocation(c, q, row)
      else if row.key.kind == "ack" then AddAck(c, q, row)
      else Err(UnknownKind)
  }

  /** All rows in turn, up to the first error. */
  function PushAll(c: Codec, p: Projected, rows: seq<Row>): Result<Projected, ScanError>
    decreases |rows|
  {
    if rows == [] then Ok(p)
    else
      var q := PushAll(c, p, rows[..|rows| - 1]);
      if q.Err? then q else PushRow(c, q.value, rows[|rows| - 1])
  }

  lemma {:induction false} PushAllAppend(c: Codec, p: Projected, a: seq<Row>, b: seq<Row>)
    ensures PushAll(c, p, a + b) ==
            var q := PushAll(c, p, a); if q.Err? then q else PushAll(c, q.value, b)
    decreases |b|
  {
    if b == [] {
      assert a + b == a;
    } else {
      PushAllAppend(c, p, a, b[..|b| - 1]);
      assert (a + b)[..|a + b| - 1] == a + b[..|b| - 1];
    }
  }

  // ----- What a successful projection says about the rows -----

  lemma {:induction false} LastIsRemembered(c: Codec, pinned: Descriptor, rows: seq<Row>)
    requires PushAll(c, Fresh(pinned), rows).Ok?
    ensures PushAll(c, Fresh(pinned), rows).value.last == if rows == [] then None else Some(rows[|rows| - 1].key)
  {
    if rows != [] { LastIsRemembered(c, pinned, rows[..|rows| - 1]); }
  }

  lemma LaterIsAnother(c: Codec, p: Projected, last: Key, row: Row)
    requires p.last == Some(last) && KeyBefore(last, row.key) && PushRow(c, p, row).Ok?
    ensures !SameRecord(last, row.key)
  {
    KeyAsymmetric(last, row.key);
  }

  /** The last row of a successful projection is another record than the one before it. */
  lemma LastIsAnother(c: Codec, pinned: Descriptor, rows: seq<Row>)
    requires |rows| >= 2 && PushAll(c, Fresh(pinned), rows).Ok? && RowBefore(rows, |rows| - 2, |rows| - 1)
    ensures !SameRecord(rows[|rows| - 2].key, rows[|rows| - 1].key)
  {
    var init := rows[..|rows| - 1];
    LastIsRemembered(c, pinned, init);
    LaterIsAnother(c, PushAll(c, Fresh(pinned), init).value, init[|init| - 1].key, rows[|rows| - 1]);
  }

  lemma {:induction false} PrefixIsOk(c: Codec, pinned: Descriptor, rows: seq<Row>, n: nat)
    requires PushAll(c, Fresh(pinned), rows).Ok? && n <= |rows|
    ensures PushAll(c, Fresh(pinned), rows[..n]).Ok?
    decreases |rows|
  {
    if n == |rows| {
      assert rows[..n] == rows;
    } else {
      PrefixIsOk(c, pinned, rows[..|rows| - 1], n);
      assert rows[..|rows| - 1][..n] == rows[..n];
    }
  }

  lemma NeighboursDiffer(c: Codec, pinned: Descriptor, rows: seq<Row>, i: nat)
    requires Sorted(rows) && PushAll(c, Fresh(pinned), rows).Ok? && i + 1 < |rows|
    ensures !SameRecord(rows[i].key, rows[i + 1].key)
  {
    var part := rows[..i + 2];
    PrefixIsOk(c, pinned, rows, i + 2);
    assert RowBefore(rows, i, i + 1);
    assert RowBefore(part, i, i + 1);
    LastIsAnother(c, pinned, part);
  }

  /** So the last row is not taken for a repetition. */
  lemma NextIsAnother(c: Codec, pinned: Descriptor, rows: seq<Row>)
    requires Sorted(rows) && rows != [] && PushAll(c, Fresh(pinned), rows).Ok?
    ensures var last := PushAll(c, Fresh(pinned), rows[..|rows| - 1]).value.last;
            !(last.Some? && SameRecord(last.value, rows[|rows| - 1].key))
  {
    LastIsRemembered(c, pinned, rows[..|rows| - 1]);
    if |rows| > 1 { NeighboursDiffer(c, pinned, rows, |rows| - 2); }
  }

  lemma ApartFromNeighbour(rows: seq<Row>, i: nat, j: nat)
    requires Sorted(rows) && i < j < |rows| && !SameRecord(rows[j - 1].key, rows[j].key)
    ensures !SameRecord(rows[i].key, rows[j].key)
  {
    if i < j - 1 && SameRecord(rows[i].key, rows[j].key) {
      assert RowBefore(rows, i, j - 1) && RowBefore(rows, j - 1, j);
      SameRecordBetween(rows[i].key, rows[j - 1].key, rows[j].key);
    }
  }

  /** Comparing neighbours finds every pair: a projection that succeeds has one row for each record. */
  lemma OneRowPerRecord(c: Codec, pinned: Descriptor, rows: seq<Row>, i: nat, j: nat)
    requires Sorted(rows) && PushAll(c, Fresh(pinned), rows).Ok? && i < j < |rows|
    ensures !SameRecord(rows[i].key, rows[j].key)
  {
    NeighboursDiffer(c, pinned, rows, j - 1);
    ApartFromNeighbour(rows, i, j);
  }

  lemma ConflictWithLast(c: Codec, p: Projected, row: Row)
    requires PushRow(c, p, row) == Err(RecordConflict)
    ensures p.last.Some? && SameRecord(p.last.value, row.key) && p.last.value.digest != row.key.digest
  {}

  lemma ConflictAtEnd(c: Codec, pinned: Descriptor, rows: seq<Row>)
    requires rows != [] && PushAll(c, Fresh(pinned), rows) == Err(RecordConflict)
    requires PushAll(c, Fresh(pinned), rows[..|rows| - 1]).Ok?
    ensures |rows| >= 2 && SameRecord(rows[|rows| - 2].key, rows[|rows| - 1].key)
    ensures rows[|rows| - 2].key.digest != rows[|rows| - 1].key.digest
  {
    var init := rows[..|rows| - 1];
    LastIsRemembered(c, pinned, init);
    ConflictWithLast(c, PushAll(c, Fresh(pinned), init).value, rows[|rows| - 1]);
  }

  /** And a conflict is reported only for two versions of one record. */
  lemma {:induction false} ConflictHasTwoVersions(c: Codec, pinned: Descriptor, rows: seq<Row>) returns (i: nat)
    requires PushAll(c, Fresh(pinned), rows) == Err(RecordConflict)
    ensures i + 1 < |rows| && SameRecord(rows[i].key, rows[i + 1].key) && rows[i].key.digest != rows[i + 1].key.digest
    decreases |rows|
  {
    if PushAll(c, Fresh(pinned), rows[..|rows| - 1]).Err? {
      i := ConflictHasTwoVersions(c, pinned, rows[..|rows| - 1]);
    } else {
      ConflictAtEnd(c, pinned, rows);
      i := |rows| - 2;
    }
  }

  function MembersOf(c: Codec, rows: seq<Row>): seq<Member> {
    if rows == [] then []
    else
      var rest, last := MembersOf(c, rows[..|rows| - 1]), rows[|rows| - 1];
      rest + MemberOf(c, last)
  }

  function RevocationsOf(c: Codec, rows: seq<Row>): seq<Revocation> {
    if rows == [] then []
    else
      var rest, last := RevocationsOf(c, rows[..|rows| - 1]), rows[|rows| - 1];
      rest + RevocationOf(c, last)
  }

  function AckOf(c: Codec, row: Row): Option<Ack> { if row.key.kind == "ack" then c.ack(row.payload) else None }

  /** No later row acknowledges the same revocation for the same server. */
  ghost predicate LatestAt(c: Codec, rows: seq<Row>, i: int, ack: Ack) {
    && 0 <= i < |rows| && AckOf(c, rows[i]) == Some(ack)
    && forall j | i < j < |rows| && AckOf(c, rows[j]).Some? :: AckKey(AckOf(c, rows[j]).value) != AckKey(ack)
  }

  /** Stored, and the last one of its revocation and server in key order. */
  ghost predicate IsLatest(c: Codec, rows: seq<Row>, ack: Ack) { exists i :: LatestAt(c, rows, i, ack) }

  predicate HasNetwork(rows: seq<Row>) { exists row | row in rows :: row.key.kind == "network" }

  function MemberOf(c: Codec, row: Row): seq<Member> {
    if row.key.kind == "member" && c.member(row.payload).Some? then [c.member(row.payload).value] else []
  }

  function RevocationOf(c: Codec, row: Row): seq<Revocation> {
    if row.key.kind == "revocation" && c.revocation(row.payload).Some? then [c.revocation(row.payload).value] else []
  }

  /** One more row: its acknowledgement replaces its predecessor, or joins while there is room. */
  function KeepOne(acks: map<(RevocationId, DeviceId), Ack>, ack: Option<Ack>): map<(RevocationId, DeviceId), Ack> {
    if ack.Some? && (|acks| < MAX_REGISTRY_ROWS || AckKey(ack.value) in acks) then acks[AckKey(ack.value) := ack.value] else acks
  }

  function KeptAcks(c: Codec, rows: seq<Row>): map<(RevocationId, DeviceId), Ack> {
    if rows == [] then map[] else KeepOne(KeptAcks(c, rows[..|rows| - 1]), AckOf(c, rows[|rows| - 1]))
  }

  /** The decoded members and denials of all rows, in key order, and acknowledgements as above. */
  ghost predicate Holds(c: Codec, pinned: Descriptor, rows: seq<Row>, p: Projected) {
    && p.network == pinned && p.members == MembersOf(c, rows) && p.revocations == RevocationsOf(c, rows)
    && p.acks == KeptAcks(c, rows) && (p.networkSeen <==> HasNetwork(rows))
    && (rows != [] ==> p.bytes <= MAX_REGISTRY_BYTES && |p.members| + |p.revocations| + 1 <= MAX_REGISTRY_ROWS)
  }

  lemma PushedContents(c: Codec, p: Projected, row: Row)
    requires PushRow(c, p, row).Ok? && !(p.last.Some? && SameRecord(p.last.value, row.key))
    ensures var q := PushRow(c, p, row).value;
            && q.network == p.network && q.members == p.members + MemberOf(c, row)
            && q.revocations == p.revocations + RevocationOf(c, row) && q.acks == KeepOne(p.acks, AckOf(c, row))
            && (q.networkSeen <==> p.networkSeen || row.key.kind == "network")
            && q.bytes <= MAX_REGISTRY_BYTES && |q.members| + |q.revocations| + 1 <= MAX_REGISTRY_ROWS
  {}

  lemma HoldsNext(c: Codec, pinned: Descriptor, rows: seq<Row>, row: Row, p: Projected)
    requires Holds(c, pinned, rows, p) && PushRow(c, p, row).Ok? && !(p.last.Some? && SameRecord(p.last.value, row.key))
    ensures Holds(c, pinned, rows + [row], PushRow(c, p, row).value)
  {
    PushedContents(c, p, row);
    NetworkAppend(rows, row);
    assert (rows + [row])[..|rows|] == rows;
  }

  lemma {:induction false} ProjectionContents(c: Codec, pinned: Descriptor, rows: seq<Row>)
    requires Sorted(rows) && PushAll(c, Fresh(pinned), rows).Ok?
    ensures Holds(c, pinned, rows, PushAll(c, Fresh(pinned), rows).value)
  {
    if rows != [] {
      var init, last := rows[..|rows| - 1], rows[|rows| - 1];
      SortedPart(rows, 0, |rows| - 1);
      ProjectionContents(c, pinned, init);
      NextIsAnother(c, pinned, rows);
      HoldsNext(c, pinned, init, last, PushAll(c, Fresh(pinned), init).value);
      assert rows == init + [last];
    }
  }

  lemma NetworkAppend(rows: seq<Row>, row: Row)
    ensures HasNetwork(rows + [row]) <==> HasNetwork(rows) || row.key.kind == "network"
  {
    if HasNetwork(rows) {
      var found :| found in rows && found.key.kind == "network";
      assert found in rows + [row];
    }
    assert row in rows + [row];
  }

  lemma LatestAppend(c: Codec, rows: seq<Row>, row: Row, ack: Ack)
    ensures IsLatest(c, rows + [row], ack) <==>
            AckOf(c, row) == Some(ack)
            || (IsLatest(c, rows, ack) && (AckOf(c, row).Some? ==> AckKey(AckOf(c, row).value) != AckKey(ack)))
  {
    var longer := rows + [row];
    if IsLatest(c, longer, ack) {
      var i :| LatestAt(c, longer, i, ack);
      if i < |rows| {
        assert longer[|rows|] == row;
        assert forall j | i < j < |rows| :: longer[j] == rows[j];
        assert LatestAt(c, rows, i, ack);
      }
    }
    if AckOf(c, row) == Some(ack) {
      assert LatestAt(c, longer, |rows|, ack);
    } else if IsLatest(c, rows, ack) && (AckOf(c, row).Some? ==> AckKey(AckOf(c, row).value) != AckKey(ack)) {
      var i :| LatestAt(c, rows, i, ack);
      assert LatestAt(c, longer, i, ack);
    }
  }

  /** These are latest acknowledgements under their own keys, and all of them unless there are too many. */
  ghost predicate AcksFrom(c: Codec, rows: seq<Row>, acks: map<(RevocationId, DeviceId), Ack>) {
    && (forall key | key in acks :: AckKey(acks[key]) == key && IsLatest(c, rows, acks[key]))
    && (|acks| < MAX_REGISTRY_ROWS ==> forall ack | IsLatest(c, rows, ack) :: AckKey(ack) in acks)
  }

  lemma AcksAppend(c: Codec, rows: seq<Row>, row: Row, acks: map<(RevocationId, DeviceId), Ack>, ack: Ack)
    requires AcksFrom(c, rows, acks) && AckOf(c, row) == Some(ack)
    ensures AcksFrom(c, rows + [row], KeepOne(acks, Some(ack)))
  {
    var more := KeepOne(acks, Some(ack));
    assert |acks| <= |more| by { assert acks.Keys <= more.Keys; KeysGrow(acks, more); }
    forall k | k in more
      ensures AckKey(more[k]) == k && IsLatest(c, rows + [row], more[k])
    {
      LatestAppend(c, rows, row, more[k]);
    }
    if |more| < MAX_REGISTRY_ROWS {
      forall other | IsLatest(c, rows + [row], other)
        ensures AckKey(other) in more
      {
        LatestAppend(c, rows, row, other);
      }
    }
  }

  lemma KeysGrow<K, V>(a: map<K, V>, b: map<K, V>)
    requires a.Keys <= b.Keys
    ensures |a| <= |b|
  {
    assert b.Keys == a.Keys + (b.Keys - a.Keys);
    assert |a.Keys| == |a| && |b.Keys| == |b|;
  }

  lemma AcksUnchanged(c: Codec, rows: seq<Row>, row: Row, acks: map<(RevocationId, DeviceId), Ack>)
    requires AcksFrom(c, rows, acks) && AckOf(c, row).None?
    ensures AcksFrom(c, rows + [row], acks)
  {
    forall ack
      ensures IsLatest(c, rows + [row], ack) <==> IsLatest(c, rows, ack)
    {
      LatestAppend(c, rows, row, ack);
    }
  }

  /** Kept are the latest acknowledgements of each revocation and server, all of them while there is room. */
  lemma {:induction false} LatestAcksAreKept(c: Codec, rows: seq<Row>)
    ensures AcksFrom(c, rows, KeptAcks(c, rows))
  {
    if rows != [] {
      var init, last := rows[..|rows| - 1], rows[|rows| - 1];
      LatestAcksAreKept(c, init);
      match AckOf(c, last) {
        case None => AcksUnchanged(c, init, last, KeptAcks(c, init));
        case Some(ack) => AcksAppend(c, init, last, KeptAcks(c, init), ack);
      }
      assert rows == init + [last];
    }
  }

  // ----- Bounding the evidence -----

  /** The encoded acknowledgements, separated by commas. */
  function AcksSize(c: Codec, acks: seq<Ack>): nat {
    if acks == [] then 0
    else AcksSize(c, acks[..|acks| - 1]) + c.ackSize(acks[|acks| - 1]) + if |acks| > 1 then 1 else 0
  }

  function JsonSize(c: Codec, s: Snapshot): nat { c.baseSize(s.(acks := [])) + AcksSize(c, s.acks) }

  function RowCount(s: Snapshot): nat { |s.members| + |s.revocations| + 1 + |s.acks| }

  predicate Fits(c: Codec, s: Snapshot) { RowCount(s) <= MAX_REGISTRY_ROWS && JsonSize(c, s) <= MAX_REGISTRY_BYTES }

  /** `kept` is `all` with some elements left out. */
  predicate Subsequence(kept: seq<Ack>, all: seq<Ack>)
    decreases |all|
  {
    kept == [] ||
    (all != [] &&
     (|| Subsequence(kept, all[..|all| - 1])
      || (kept[|kept| - 1] == all[|all| - 1] && Subsequence(kept[..|kept| - 1], all[..|all| - 1]))))
  }

  lemma {:induction false} PrefixSubsequence(kept: seq<Ack>, all: seq<Ack>, n: nat)
    requires n <= |all| && Subsequence(kept, all[..n])
    ensures Subsequence(kept, all)
    decreases |all|
  {
    if n == |all| {
      assert all[..n] == all;
    } else {
      assert all[..|all| - 1][..n] == all[..n];
      PrefixSubsequence(kept, all[..|all| - 1], n);
    }
  }

  lemma {:induction false} SubsequenceMember(kept: seq<Ack>, all: seq<Ack>, ack: Ack)
    requires Subsequence(kept, all) && ack in kept
    ensures ack in all
    decreases |all|
  {
    var init := all[..|all| - 1];
    if Subsequence(kept, init) {
      SubsequenceMember(kept, init, ack);
    } else if ack != all[|all| - 1] {
      SubsequenceMember(kept[..|kept| - 1], init, ack);
    }
  }

  lemma {:induction false} PrefixSize(c: Codec, acks: seq<Ack>, n: nat)
    requires n <= |acks|
    ensures AcksSize(c, acks[..n]) <= AcksSize(c, acks)
    decreases |acks|
  {
    if n == |acks| {
      assert acks[..n] == acks;
    } else {
      PrefixSize(c, acks[..|acks| - 1], n);
      assert acks[..|acks| - 1][..n] == acks[..n];
    }
  }

  /** The loop of `bound_projection` after `i` acknowledgements. */
  ghost predicate Bounding(c: Codec, s: Snapshot, kept: seq<Ack>, i: nat)
    requires i <= |s.acks|
  {
    && Fits(c, s.(acks := kept)) && Subsequence(kept, s.acks[..i])
    && (Fits(c, s) ==> kept == s.acks[..i])
  }

  lemma PrefixFits(c: Codec, s: Snapshot, n: nat)
    requires Fits(c, s) && n <= |s.acks|
    ensures Fits(c, s.(acks := s.acks[..n]))
  {
    PrefixSize(c, s.acks, n);
  }

  lemma KeepAck(c: Codec, s: Snapshot, kept: seq<Ack>, i: nat)
    requires i < |s.acks| && Bounding(c, s, kept, i) && Fits(c, s.(acks := kept + [s.acks[i]]))
    ensures Bounding(c, s, kept + [s.acks[i]], i + 1)
  {
    assert s.acks[..i + 1] == s.acks[..i] + [s.acks[i]];
    assert s.acks[..i + 1][..i] == s.acks[..i] && (kept + [s.acks[i]])[..|kept|] == kept;
  }

  lemma DropAck(c: Codec, s: Snapshot, kept: seq<Ack>, i: nat)
    requires i < |s.acks| && Bounding(c, s, kept, i) && !Fits(c, s.(acks := kept + [s.acks[i]]))
    ensures Bounding(c, s, kept, i + 1)
  {
    assert s.acks[..i + 1] == s.acks[..i] + [s.acks[i]] && s.acks[..i + 1][..i] == s.acks[..i];
    assert !Fits(c, s) by {
      if Fits(c, s) { PrefixFits(c, s, i + 1); }
    }
  }

  lemma OneMoreSize(c: Codec, s: Snapshot, kept: seq<Ack>, ack: Ack)
    ensures JsonSize(c, s.(acks := kept + [ack])) ==
            JsonSize(c, s.(acks := kept)) + c.ackSize(ack) + if kept == [] then 0 else 1
  {
    assert (kept + [ack])[..|kept|] == kept;
  }

  lemma StartBounding(c: Codec, s: Snapshot)
    requires Fits(c, s.(acks := []))
    ensures Bounding(c, s, [], 0)
  {}

  lemma FullStop(c: Codec, s: Snapshot, kept: seq<Ack>, i: nat)
    requires i <= |s.acks| && Bounding(c, s, kept, i)
    requires i == |s.acks| || RowCount(s.(acks := kept)) == MAX_REGISTRY_ROWS
    ensures Subsequence(kept, s.acks) && Fits(c, s.(acks := kept)) && (Fits(c, s) ==> s.(acks := kept) == s)
  {
    assert s.acks[..|s.acks|] == s.acks;
    PrefixSubsequence(kept, s.acks, i);
  }

  /** One turn of the loop: keeps the acknowledgement if it still fits. */
  method ConsiderAck(c: Codec, s: Snapshot, kept: seq<Ack>, bytes: nat, i: nat)
    returns (kept': seq<Ack>, bytes': nat)
    requires i < |s.acks| && Bounding(c, s, kept, i) && bytes == JsonSize(c, s.(acks := kept))
    requires RowCount(s.(acks := kept)) < MAX_REGISTRY_ROWS
    ensures Bounding(c, s, kept', i + 1) && bytes' == JsonSize(c, s.(acks := kept'))
  {
    kept', bytes' := kept, bytes;
    var size := c.ackSize(s.acks[i]) + if kept == [] then 0 else 1;
    OneMoreSize(c, s, kept, s.acks[i]);
    if bytes + size <= MAX_REGISTRY_BYTES {
      KeepAck(c, s, kept, i);
      kept', bytes' := kept + [s.acks[i]], bytes + size;
    } else {
      DropAck(c, s, kept, i);
    }
  }

  /** The loop of `bound_projection`. */
  method KeepFitting(c: Codec, s: Snapshot) returns (kept: seq<Ack>)
    requires Fits(c, s.(acks := []))
    ensures Subsequence(kept, s.acks) && Fits(c, s.(acks := kept)) && (Fits(c, s) ==> s.(acks := kept) == s)
  {
    kept := [];
    var rows, bytes, i := |s.members| + |s.revocations| + 1, c.baseSize(s.(acks := [])), 0;
    StartBounding(c, s);
    while i < |s.acks| && rows + |kept| < MAX_REGISTRY_ROWS
      invariant 0 <= i <= |s.acks| && Bounding(c, s, kept, i)
      invariant bytes == JsonSize(c, s.(acks := kept))
    {
      kept, bytes := ConsiderAck(c, s, kept, bytes, i);
      i := i + 1;
    }
    FullStop(c, s, kept, i);
  }

  /** `bound_projection`: keeps members and denials, and as many acknowledgements as fit. */
  method BoundProjection(c: Codec, s: Snapshot) returns (r: Result<Snapshot, ScanError>)
    ensures r.Ok? <==> Fits(c, s.(acks := []))
    ensures r.Err? ==> r.error.ProjectionTooLarge?
    ensures r.Ok? ==> r.value == s.(acks := r.value.acks) && Subsequence(r.value.acks, s.acks) && Fits(c, r.value)
    ensures Fits(c, s) ==> r == Ok(s)
  {
    if |s.members| + |s.revocations| + 1 > MAX_REGISTRY_ROWS || c.baseSize(s.(acks := [])) > MAX_REGISTRY_BYTES {
      return Err(ProjectionTooLarge);
    }
    var kept := KeepFitting(c, s);
    r := Ok(s.(acks := kept));
  }

  /** Dropped evidence moves servers from applied to pending and invents no progress. */
  lemma BoundingOnlyDelays(
    s: Snapshot, kept: seq<Ack>, r: Revocation, boots: map<DeviceId, BootId>,
    full: RegistryRuns.Progress, bounded: RegistryRuns.Progress)
    requires Subsequence(kept, s.acks)
    requires RegistryRuns.IsProgress(s, r, boots, full) && RegistryRuns.IsProgress(s.(acks := kept), r, boots, bounded)
    ensures bounded.applied <= full.applied && full.pending <= bounded.pending
    ensures bounded.applied + bounded.pending == full.applied + full.pending && bounded.applied !! bounded.pending
  {
    forall ack | ack in kept
      ensures ack in s.acks
    {
      SubsequenceMember(kept, s.acks, ack);
    }
    RegistryRuns.LostAcksOnlyDelay(s, kept, r, boots, full, bounded);
  }
}
