/**
Reading all registry rows page by page (tako-network/src/corrosion.rs): the store is asked
for rows after a cursor, with a page size that is halved when a response is too large.
*/
module PagedScan {
  import opened Results
  import opened Registry
  import opened Projection

  const PAGE_ROWS: nat := 256
  const FIRST := Key("", "", "")

  /** The rows after `cursor` up to `upper`, in key order. */
  function Within(rows: seq<Row>, cursor: Key, upper: Key): seq<Row> {
    if rows == [] then []
    else if KeyBefore(cursor, rows[0].key) && !KeyBefore(upper, rows[0].key) then [rows[0]] + Within(rows[1..], cursor, upper)
    else Within(rows[1..], cursor, upper)
  }

  function Limit(rows: seq<Row>, n: nat): seq<Row> { if |rows| <= n then rows else rows[..n] }

  /** What a scan from the empty key can see. */
  function Scanned(table: seq<Row>): seq<Row> {
    if table != [] && table[0].key == FIRST then table[1..] else table
  }

  /** The scan sees the whole table exactly when no row has the empty key. */
  lemma ScanSeesAll(table: seq<Row>)
    requires Sorted(table)
    ensures Scanned(table) == table <==> forall row | row in table :: row.key != FIRST
  {
    forall i | 0 < i < |table|
      ensures table[i].key != FIRST
    {
      assert RowBefore(table, 0, i);
    }
  }

  /** A row with the empty key goes unnoticed, although projecting it would fail. */
  lemma EmptyKeyIsSkipped(c: Codec, pinned: Descriptor, payload: string)
    ensures var table := [Row(FIRST, payload)];
            && Sorted(table) && PushAll(c, Fresh(pinned), table).Err?
            && PushAll(c, Fresh(pinned), Scanned(table)) == Ok(Fresh(pinned))
  {
    var table := [Row(FIRST, payload)];
    assert table[..0] == [];
    assert Scanned(table) == [];
  }

  lemma {:induction false} WithinIsSuffix(rows: seq<Row>, k: nat, cursor: Key, upper: Key)
    requires k <= |rows| && forall i | 0 <= i < |rows| :: !KeyBefore(upper, rows[i].key)
    requires forall i | 0 <= i < |rows| :: KeyBefore(cursor, rows[i].key) <==> i >= k
    ensures Within(rows, cursor, upper) == rows[k..]
    decreases |rows|
  {
    if rows != [] {
      WithinIsSuffix(rows[1..], if k == 0 then 0 else k - 1, cursor, upper);
    }
  }

  lemma NothingBeyondLast(table: seq<Row>)
    requires Sorted(table) && table != []
    ensures forall i | 0 <= i < |table| :: !KeyBefore(table[|table| - 1].key, table[i].key)
  {
    forall i | 0 <= i < |table|
      ensures !KeyBefore(table[|table| - 1].key, table[i].key)
    {
      if i < |table| - 1 { assert RowBefore(table, i, |table| - 1); }
      KeyAsymmetric(table[|table| - 1].key, table[i].key);
    }
  }

  function CursorAt(rows: seq<Row>, n: nat): Key
    requires n <= |rows|
  {
    if n == 0 then FIRST else rows[n - 1].key
  }

  lemma {:induction false} AfterRow(table: seq<Row>, k: nat)
    requires Sorted(table) && k < |table|
    ensures forall i | 0 <= i < |table| :: KeyBefore(table[k].key, table[i].key) <==> i >= k + 1
  {
    forall i | 0 <= i < |table|
      ensures KeyBefore(table[k].key, table[i].key) <==> i >= k + 1
    {
      if i < k { assert RowBefore(table, i, k); } else if k < i { assert RowBefore(table, k, i); }
      KeyAsymmetric(table[k].key, table[i].key);
    }
  }

  /** From the cursor of the first `n` rows seen, the store offers exactly the others. */
  lemma RemainingRows(table: seq<Row>, n: nat)
    requires Sorted(table) && table != [] && n <= |Scanned(table)|
    ensures Within(table, CursorAt(Scanned(table), n), table[|table| - 1].key) == Scanned(table)[n..]
  {
    NothingBeyondLast(table);
    var skipped := |table| - |Scanned(table)|;
    var cursor := CursorAt(Scanned(table), n);
    if n == 0 {
      ScanSeesAll(table);
      forall i | 0 <= i < |table|
        ensures KeyBefore(FIRST, table[i].key) <==> i >= skipped
      {
        if i > 0 { assert RowBefore(table, 0, i); }
      }
    } else {
      AfterRow(table, skipped + n - 1);
    }
    WithinIsSuffix(table, skipped + n, cursor, table[|table| - 1].key);
  }

  // ----- The store and the projection -----

  /** The local Corrosion store. A call may fail unless the store is reliable; a response has a size limit. */
  class Corrosion {
    const table: seq<Row>
    const fits: seq<Row> -> bool
    const reliable: bool

    constructor (table: seq<Row>, fits: seq<Row> -> bool, reliable: bool)
      ensures this.table == table && this.fits == fits && this.reliable == reliable
    {
      this.table, this.fits, this.reliable := table, fits, reliable;
    }

    /** The reasons for which a request for a page fails. */
    ghost predicate Refuses(page: seq<Row>, error: ScanError) {
      (error.Transport? && !reliable) || (error.ResponseTooLarge? && !fits(page))
    }

    method Query(cursor: Key, upper: Key, limit: nat) returns (r: Result<seq<Row>, ScanError>)
      ensures r.Ok? ==> r.value == Limit(Within(table, cursor, upper), limit)
      ensures r.Err? ==> Refuses(Limit(Within(table, cursor, upper), limit), r.error)
    {
      var fails: bool := *;
      var page := Limit(Within(table, cursor, upper), limit);
      r := if fails && !reliable then Err(Transport) else if !fits(page) then Err(ResponseTooLarge) else Ok(page);
    }

    /** The row with the greatest key. */
    method Highest() returns (r: Result<Option<Row>, ScanError>)
      ensures r.Ok? ==> r.value == if table == [] then None else Some(table[|table| - 1])
      ensures r.Err? ==> if table == [] then r.error.Transport? && !reliable else Refuses([table[|table| - 1]], r.error)
    {
      var fails: bool := *;
      if fails && !reliable {
        return Err(Transport);
      }
      if table == [] {
        return Ok(None);
      }
      var row := table[|table| - 1];
      r := if !fits([row]) then Err(ResponseTooLarge) else Ok(Some(row));
    }
  }

  /** The scan may fail for the store's sake: it is not reliable, or some row does not fit alone. */
  ghost predicate StoreFails(db: Corrosion, error: ScanError) {
    || (error.Transport? && !db.reliable)
    || (error.ResponseTooLarge? && exists row | row in db.table :: !db.fits([row]))
  }

  class RecordProjection {
    const codec: Codec
    const network: Descriptor
    var members: seq<Member>
    var revocations: seq<Revocation>
    var acks: map<(RevocationId, DeviceId), Ack>
    var last: Option<Key>
    var bytes: nat
    var networkSeen: bool

    function State(): Projected
      reads this
    {
      Projected(network, members, revocations, acks, last, bytes, networkSeen)
    }

    constructor (codec: Codec, pinned: Descriptor)
      ensures this.codec == codec && State() == Fresh(pinned)
    {
      this.codec, network := codec, pinned;
      members, revocations, acks, last, bytes, networkSeen := [], [], map[], None, 0, false;
    }

    method CheckLimits() returns (r: Result<(), ScanError>)
      ensures match WithinLimits(State())
              case Ok(_) => r.Ok?
              case Err(e) => r == Err(e)
    {
      r := if bytes > MAX_REGISTRY_BYTES || |members| + |revocations| + 1 > MAX_REGISTRY_ROWS then Err(ProjectionTooLarge) else Ok(());
    }

    method PushNetwork(row: Row) returns (r: Result<(), ScanError>)
      modifies this
      ensures match AddNetwork(codec, old(State()), row)
              case Ok(p) => r.Ok? && State() == p
              case Err(e) => r == Err(e)
    {
      var decoded := codec.network(row.payload);
      if decoded.None? {
        return Err(Malformed);
      }
      if row.key.id != "network" || decoded.value != network {
        return Err(NetworkConflict);
      }
      if codec.networkSize(decoded.value) > MAX_REGISTRY_BYTES {
        return Err(ProjectionTooLarge);
      }
      bytes := bytes + codec.networkSize(decoded.value);
      networkSeen := true;
      r := CheckLimits();
    }

    method PushMember(row: Row) returns (r: Result<(), ScanError>)
      modifies this
      ensures match AddMember(codec, old(State()), row)
              case Ok(p) => r.Ok? && State() == p
              case Err(e) => r == Err(e)
    {
      var decoded := codec.member(row.payload);
      if decoded.None? {
        return Err(Malformed);
      }
      if decoded.value.deviceId != row.key.id {
        return Err(WrongId);
      }
      if codec.memberSize(decoded.value) > MAX_REGISTRY_BYTES {
        return Err(ProjectionTooLarge);
      }
      bytes := bytes + codec.memberSize(decoded.value);
      members := members + [decoded.value];
      r := CheckLimits();
    }

    method PushRevocation(row: Row) returns (r: Result<(), ScanError>)
      modifies this
      ensures match AddRevocation(codec, old(State()), row)
              case Ok(p) => r.Ok? && State() == p
              case Err(e) => r == Err(e)
    {
      var decoded := codec.revocation(row.payload);
      if decoded.None? {
        return Err(Malformed);
      }
      if decoded.value.id != row.key.id {
        return Err(WrongId);
      }
      if codec.revocationSize(decoded.value) > MAX_REGISTRY_BYTES {
        return Err(ProjectionTooLarge);
      }
      bytes := bytes + codec.revocationSize(decoded.value);
      revocations := revocations + [decoded.value];
      r := CheckLimits();
    }

    method PushAck(row: Row) returns (r: Result<(), ScanError>)
      modifies this
      ensures match AddAck(codec, old(State()), row)
              case Ok(p) => r.Ok? && State() == p
              case Err(e) => r == Err(e)
    {
      var decoded := codec.ack(row.payload);
      if decoded.None? {
        return Err(Malformed);
      }
      if codec.ackId(decoded.value) != row.key.id {
        return Err(WrongId);
      }
      var key := AckKey(decoded.value);
      if |acks| < MAX_REGISTRY_ROWS || key in acks {
        acks := acks[key := decoded.value];
      }
      r := CheckLimits();
    }

    /** `push`: updates the fields as `PushRow` says, or fails as it says. */
    method Push(row: Row) returns (r: Result<(), ScanError>)
      modifies this
      ensures match PushRow(codec, old(State()), row)
              case Ok(p) => r.Ok? && State() == p
              case Err(e) => r == Err(e)
    {
      var bad := PayloadError(codec, row);
      if bad.Some? {
        return Err(bad.value);
      }
      if last.Some? && SameRecord(last.value, row.key) {
        return if last.value.digest != row.key.digest then Err(RecordConflict) else Ok(());
      }
      last := Some(row.key);
      if row.key.kind == "network" {
        r := PushNetwork(row);
      } else if row.key.kind == "member" {
        r := PushMember(row);
      } else if row.key.kind == "revocation" {
        r := PushRevocation(row);
      } else if row.key.kind == "ack" {
        r := PushAck(row);
      } else {
        r := Err(UnknownKind);
      }
    }
  }

  /** A result for each prefix of the rows. */
  type Fold = seq<Row> -> Result<Projected, ScanError>

  ghost predicate Folds(fold: Fold, c: Codec, pinned: Descriptor) {
    forall rows {:trigger PushAll(c, Fresh(pinned), rows)} :: fold(rows) == PushAll(c, Fresh(pinned), rows)
  }

  /** What the scan has to return: the fold over all rows, unless the store fails. */
  ghost predicate IsScan(db: Corrosion, fold: Fold, r: Result<Projected, ScanError>) {
    r == fold(Scanned(db.table)) || (r.Err? && StoreFails(db, r.error))
  }

  lemma PrefixDecides(fold: Fold, c: Codec, pinned: Descriptor, rows: seq<Row>, n: nat)
    requires Folds(fold, c, pinned) && n < |rows| && fold(rows[..n]).Ok?
    ensures fold(rows[..n + 1]) == PushRow(c, fold(rows[..n]).value, rows[n])
    ensures fold(rows[..n + 1]).Err? ==> fold(rows) == fold(rows[..n + 1])
  {
    var p := Fresh(pinned);
    assert fold(rows[..n]) == PushAll(c, p, rows[..n]);
    assert fold(rows[..n + 1]) == PushAll(c, p, rows[..n + 1]);
    assert fold(rows) == PushAll(c, p, rows);
    assert rows[..n + 1][..n] == rows[..n];
    assert rows == rows[..n + 1] + rows[n + 1..];
    PushAllAppend(c, p, rows[..n + 1], rows[n + 1..]);
  }

  /** The first `n` rows have been projected, and the cursor stands at the last of them. */
  ghost predicate Reached(db: Corrosion, fold: Fold, p: Projected, cursor: Key, n: nat) {
    && n <= |Scanned(db.table)|
    && fold(Scanned(db.table)[..n]) == Ok(p)
    && cursor == CursorAt(Scanned(db.table), n)
  }

  method PushNext(p: RecordProjection, row: Row, ghost fold: Fold, ghost pinned: Descriptor, ghost rows: seq<Row>, ghost n: nat)
    returns (r: Result<(), ScanError>)
    requires Folds(fold, p.codec, pinned) && n < |rows| && row == rows[n] && fold(rows[..n]) == Ok(p.State())
    modifies p
    ensures r.Ok? ==> fold(rows[..n + 1]) == Ok(p.State())
    ensures r.Err? ==> fold(rows) == Err(r.error)
  {
    PrefixDecides(fold, p.codec, pinned, rows, n);
    r := p.Push(row);
  }

  /** The page order check, which an unchanged table always passes. */
  method CheckOrder(cursor: Key, key: Key, upper: Key, ghost table: seq<Row>, ghost n: nat) returns (ordered: bool)
    requires Sorted(table) && table != [] && upper == table[|table| - 1].key
    requires n < |Scanned(table)| && key == Scanned(table)[n].key && cursor == CursorAt(Scanned(table), n)
    ensures ordered
  {
    NextIsInRange(table, n);
    ordered := KeyBefore(cursor, key) && !KeyBefore(upper, key);
  }

  /** Projects one page row by row. */
  method PushPage(db: Corrosion, p: RecordProjection, page: seq<Row>, from: Key, upper: Key,
                  ghost fold: Fold, ghost pinned: Descriptor, ghost n: nat)
    returns (error: Option<ScanError>, cursor: Key)
    requires Sorted(db.table) && db.table != [] && upper == db.table[|db.table| - 1].key
    requires Folds(fold, p.codec, pinned)
    requires Reached(db, fold, p.State(), from, n) && page <= Scanned(db.table)[n..]
    modifies p
    ensures error.None? ==> Reached(db, fold, p.State(), cursor, n + |page|)
    ensures error.Some? ==> fold(Scanned(db.table)) == Err(error.value)
  {
    cursor := from;
    for i := 0 to |page|
      invariant Reached(db, fold, p.State(), cursor, n + i)
    {
      assert page[i] == Scanned(db.table)[n..][i] == Scanned(db.table)[n + i];
      var ordered := CheckOrder(cursor, page[i].key, upper, db.table, n + i);
      if !ordered {
        assert false;
      }
      cursor := page[i].key;
      var r := PushNext(p, page[i], fold, pinned, Scanned(db.table), n + i);
      if r.Err? {
        return Some(r.error), cursor;
      }
    }
    error := None;
  }

  lemma NextIsInRange(table: seq<Row>, n: nat)
    requires Sorted(table) && table != [] && n < |Scanned(table)|
    ensures KeyBefore(CursorAt(Scanned(table), n), Scanned(table)[n].key)
    ensures !KeyBefore(table[|table| - 1].key, Scanned(table)[n].key)
  {
    NothingBeyondLast(table);
    ScanSeesAll(table);
    var skipped := |table| - |Scanned(table)|;
    assert Scanned(table)[n] == table[skipped + n];
    if skipped + n > 0 { assert RowBefore(table, skipped + n - 1, skipped + n); }
  }

  /** One page from the cursor, asking again for half as many rows while the response is too large. */
  method FetchPage(db: Corrosion, cursor: Key, upper: Key, pageRows: nat, ghost n: nat)
    returns (r: Result<seq<Row>, ScanError>, size: nat)
    requires Sorted(db.table) && db.table != [] && upper == db.table[|db.table| - 1].key && db.fits([])
    requires n <= |Scanned(db.table)| && cursor == CursorAt(Scanned(db.table), n) && pageRows >= 1
    ensures 1 <= size <= pageRows
    ensures r.Ok? ==> r.value == Limit(Scanned(db.table)[n..], size)
    ensures r.Err? ==> StoreFails(db, r.error)
  {
    size := pageRows;
    RemainingRows(db.table, n);
    while true
      invariant 1 <= size <= pageRows
      decreases size
    {
      r := db.Query(cursor, upper, size);
      if r.Err? && r.error.ResponseTooLarge? && size > 1 {
        size := size / 2;
        continue;
      }
      if r.Err? && r.error.ResponseTooLarge? {
        OneRowTooLarge(db, n);
      }
      return;
    }
  }

  lemma OneRowTooLarge(db: Corrosion, n: nat)
    requires n <= |Scanned(db.table)| && db.fits([]) && !db.fits(Limit(Scanned(db.table)[n..], 1))
    ensures exists row | row in db.table :: !db.fits([row])
  {
    var rest := Scanned(db.table)[n..];
    assert rest != [];
    assert Limit(rest, 1) == [rest[0]];
    assert rest[0] in Scanned(db.table) && rest[0] in db.table;
  }

  lemma ScanComplete(db: Corrosion, fold: Fold, p: Projected, cursor: Key, n: nat, size: nat)
    requires Reached(db, fold, p, cursor, n) && size >= 1 && Limit(Scanned(db.table)[n..], size) == []
    ensures IsScan(db, fold, Ok(p))
  {
    assert Scanned(db.table)[..n] == Scanned(db.table);
  }

  /** The loop of `read_rows` over the pages up to the highest key. */
  method ScanPages(db: Corrosion, projection: RecordProjection, upper: Key, ghost fold: Fold, ghost pinned: Descriptor)
    returns (error: Option<ScanError>)
    requires Sorted(db.table) && db.table != [] && upper == db.table[|db.table| - 1].key && db.fits([])
    requires Folds(fold, projection.codec, pinned) && fold([]) == Ok(projection.State())
    modifies projection
    ensures IsScan(db, fold, if error.None? then Ok(projection.State()) else Err(error.value))
  {
    var cursor, pageRows := FIRST, PAGE_ROWS;
    ghost var n := 0;
    assert Scanned(db.table)[..0] == [];
    while true
      invariant pageRows >= 1
      invariant Reached(db, fold, projection.State(), cursor, n)
      decreases |Scanned(db.table)| - n
    {
      var page;
      page, pageRows := FetchPage(db, cursor, upper, pageRows, n);
      if page.Err? {
        return Some(page.error);
      }
      if page.value == [] {
        ScanComplete(db, fold, projection.State(), cursor, n, pageRows);
        return None;
      }
      if |page.value| > pageRows {
        assert false;
      }
      error, cursor := PushPage(db, projection, page.value, cursor, upper, fold, pinned, n);
      if error.Some? {
        return;
      }
      n := n + |page.value|;
    }
  }

  ghost function PushesAll(c: Codec, pinned: Descriptor): Fold { rows => PushAll(c, Fresh(pinned), rows) }

  /**
  `read_rows`: whatever pages come back, a scan of an unchanged table is the fold of `push`
  over its rows, each once and in key order. With a reliable store and rows that fit alone
  nothing else can happen.
  */
  method ReadRows(db: Corrosion, c: Codec, pinned: Descriptor) returns (r: Result<RecordProjection, ScanError>)
    requires Sorted(db.table) && db.fits([])
    ensures IsScan(db, PushesAll(c, pinned), if r.Ok? then Ok(r.value.State()) else Err(r.error))
    ensures db.reliable && (forall row | row in db.table :: db.fits([row])) ==>
              (if r.Ok? then Ok(r.value.State()) else Err(r.error)) == PushAll(c, Fresh(pinned), Scanned(db.table))
  {
    var projection := new RecordProjection(c, pinned);
    var high := db.Highest();
    if high.Err? {
      return Err(high.error);
    }
    if high.value.None? {
      return Ok(projection);
    }
    var error := ScanPages(db, projection, high.value.value.key, PushesAll(c, pinned), pinned);
    r := if error.Some? then Err(error.value) else Ok(projection);
  }
}
