/** The streaming audit export of backend/src/audit.rs: batches by keyset over a table that other
    writers keep changing, and the truncation of stored texts. */
module AuditExport {
  import opened Wrappers

  const MAX_EXPORT_ROWS: nat := 100_000
  const EXPORT_BATCH_SIZE: nat := 1_000

  /** What the export orders and pages by; an id occurs once in a table. */
  datatype Key = Key(created: int, id: nat)

  /** The matching rows at one moment, by key. */
  type Table = set<Key>

  /** `a` is listed before `b`: created_at DESC, id DESC. */
  predicate Above(a: Key, b: Key) {
    a.created > b.created || (a.created == b.created && a.id > b.id)
  }

  predicate IsTop(k: Key, s: Table) {
    k in s && forall j | j in s && j != k :: Above(k, j)
  }

  lemma {:induction false} TopExists(s: Table)
    requires s != {}
    ensures exists k :: k in s && IsTop(k, s)
    decreases |s|
  {
    var k :| k in s;
    var rest := s - {k};
    if rest != {} {
      TopExists(rest);
      var top :| top in rest && IsTop(top, rest);
      var higher := if Above(k, top) then k else top;
      forall j | j in s && j != higher ensures Above(higher, j) {
        assert j == k || j == top || Above(top, j);
      }
      assert IsTop(higher, s);
    } else {
      assert s == {k};
      assert IsTop(k, s);
    }
  }

  function Top(s: Table): (k: Key)
    requires s != {}
    ensures k in s && IsTop(k, s)
  {
    TopExists(s);
    var k :| k in s && IsTop(k, s);
    k
  }

  /** The rows in the order of the export. */
  function Sorted(s: Table): seq<Key>
    decreases |s|
  {
    if s == {} then [] else [Top(s)] + Sorted(s - {Top(s)})
  }

  predicate Descending(rows: seq<Key>) {
    forall i, j | 0 <= i < j < |rows| :: Above(rows[i], rows[j])
  }

  lemma {:induction false} SortedIsExact(s: Table)
    ensures Descending(Sorted(s))
    ensures forall k :: k in Sorted(s) <==> k in s
    decreases |s|
  {
    if s != {} {
      var rest := s - {Top(s)};
      SortedIsExact(rest);
      assert Sorted(s) == [Top(s)] + Sorted(rest);
      forall j | 0 <= j < |Sorted(rest)| ensures Above(Top(s), Sorted(rest)[j]) {
        assert Sorted(rest)[j] in Sorted(rest);
      }
      forall k ensures k in Sorted(s) <==> k in s {
        assert k in Sorted(s) <==> k == Top(s) || k in Sorted(rest);
      }
    }
  }

  lemma SameHead(a: seq<Key>, b: seq<Key>)
    requires Descending(a) && Descending(b) && a != [] && b != [] && a[0] in b && b[0] in a
    ensures a[0] == b[0]
  {
    var i :| 0 <= i < |b| && b[i] == a[0];
    var j :| 0 <= j < |a| && a[j] == b[0];
  }

  lemma TailMembers(a: seq<Key>, k: Key)
    requires Descending(a) && a != []
    ensures k in a[1..] <==> k in a && k != a[0]
  {
    if k in a && k != a[0] {
      var i :| 0 <= i < |a| && a[i] == k;
      assert a[1..][i - 1] == k;
    }
  }

  /** Descending lists with the same members are equal. */
  lemma {:induction false} DescendingIsUnique(a: seq<Key>, b: seq<Key>)
    requires Descending(a) && Descending(b) && forall k :: k in a <==> k in b
    ensures a == b
  {
    if a == [] {
      assert forall i | 0 <= i < |b| :: b[i] in a;
    } else {
      assert a[0] in b;
      assert b[0] in a;
      SameHead(a, b);
      forall k ensures k in a[1..] <==> k in b[1..] {
        TailMembers(a, k);
        TailMembers(b, k);
      }
      DescendingIsUnique(a[1..], b[1..]);
      assert a == [a[0]] + a[1..] && b == [b[0]] + b[1..];
    }
  }

  // ----- one batch

  function Eligible(table: Table, before: Option<Key>, excluded: nat): Table {
    set k | k in table && k.id != excluded && (before.Some? ==> Above(before.value, k))
  }

  function Min(a: nat, b: nat): nat {
    if a < b then a else b
  }

  /** query_export_batch: the first rows after the cursor, the export's own event left out. */
  function Batch(table: Table, before: Option<Key>, excluded: nat, limit: nat): seq<Key> {
    var rows := Sorted(Eligible(table, before, excluded));
    rows[..Min(limit, |rows|)]
  }

  lemma BatchIsExact(table: Table, before: Option<Key>, excluded: nat, limit: nat)
    ensures var batch := Batch(table, before, excluded, limit);
            && |batch| <= limit && Descending(batch)
            && (forall k | k in batch :: k in Eligible(table, before, excluded))
            && (forall k | k in Eligible(table, before, excluded) :: k in batch || (|batch| == limit && Below(batch, k)))
  {
    var rows := Sorted(Eligible(table, before, excluded));
    SortedIsExact(Eligible(table, before, excluded));
    var n := Min(limit, |rows|);
    forall k | k in rows && k !in rows[..n] ensures n == limit && Below(rows[..n], k) {
      var i :| 0 <= i < |rows| && rows[i] == k;
      assert forall j | 0 <= j < n :: rows[..n][j] == rows[j];
    }
    assert forall k | k in rows[..n] :: k in rows;
  }

  /** Every row of the list is listed before `k`. */
  predicate Below(rows: seq<Key>, k: Key) {
    forall i | 0 <= i < |rows| :: Above(rows[i], k)
  }

  // ----- the loop

  datatype Outcome = Success | Failed

  /** Row `k` is in the table at each of the first n queries. */
  predicate Stays(k: Key, tables: seq<Option<Table>>, n: nat, excluded: nat)
    requires n <= |tables|
  {
    k.id != excluded && forall j | 0 <= j < n :: tables[j].Some? && k in tables[j].value
  }

  /** Row `k` is in the table at one of the first n queries. */
  ghost predicate Appears(k: Key, tables: seq<Option<Table>>, n: nat, excluded: nat)
    requires n <= |tables|
  {
    k.id != excluded && exists j :: 0 <= j < n && tables[j].Some? && k in tables[j].value
  }

  /** The loop of admin_audit_export. `tables` is what each query in turn sees, None for a query that
      fails; the loop asks at most as many times as rows may be exported. */
  method Export(tables: seq<Option<Table>>, excluded: nat) returns (batches: seq<seq<Key>>, rows: seq<Key>, outcome: Outcome, queries: nat)
    requires |tables| >= MAX_EXPORT_ROWS
    ensures rows == Streamed(batches)
    ensures queries <= |tables| && |rows| <= MAX_EXPORT_ROWS
    ensures |rows| <= 100_000 && forall b | 0 <= b < |batches| :: 0 < |batches[b]| <= 1_000
    ensures Descending(rows)
    ensures forall i, j | 0 <= i < j < |rows| ::
              rows[i].created > rows[j].created || (rows[i].created == rows[j].created && rows[i].id > rows[j].id)
    ensures forall k | k in rows :: Appears(k, tables, queries, excluded)
    ensures outcome.Failed? <==> queries > 0 && tables[queries - 1].None?
    ensures outcome.Success? ==>
              forall k: Key :: Stays(k, tables, queries, excluded) ==> k in rows || (|rows| == MAX_EXPORT_ROWS && Below(rows, k))
    ensures outcome.Success? ==>
              forall k: Key | k !in rows && k.id != excluded && (forall j | 0 <= j < queries :: tables[j].Some? && k in tables[j].value) ::
                |rows| == 100_000
                && forall i | 0 <= i < |rows| :: rows[i].created > k.created || (rows[i].created == k.created && rows[i].id > k.id)
  {
    hide Descending, Below, Batch, Eligible, Appears, Stays;
    batches, rows, outcome, queries := [], [], Success, 0;
    var cursor: Option<Key> := None;
    var emitted := 0;
    NothingYet(tables, excluded);
    while emitted < MAX_EXPORT_ROWS
      invariant emitted == |rows| <= MAX_EXPORT_ROWS && queries <= emitted && outcome == Success
      invariant cursor == Last(rows) && rows == Streamed(batches)
      invariant Descending(rows)
      invariant forall b | 0 <= b < |batches| :: 0 < |batches[b]| <= 1_000
      invariant AllAppear(rows, tables, queries, excluded)
      invariant NoneMissed(rows, tables, queries, excluded)
      invariant queries > 0 ==> tables[queries - 1].Some?
    {
      var limit := Min(MAX_EXPORT_ROWS - emitted, EXPORT_BATCH_SIZE);
      queries := queries + 1;
      if tables[queries - 1].None? {
        outcome := Failed;
        MoreQueries(rows, tables, queries, excluded);
        break;
      }
      var items := Batch(tables[queries - 1].value, cursor, excluded, limit);
      BatchExtends(rows, tables, queries, excluded, limit);
      if items == [] {
        break;
      }
      cursor := Some(items[|items| - 1]);
      emitted := emitted + |items|;
      StreamedLast(batches, items);
      batches := batches + [items];
      rows := rows + items;
      if |items| < limit {
        break;
      }
    }
    if outcome.Success? {
      Concludes(rows, tables, queries, excluded);
    }
    Unfolded(rows, tables, queries, excluded);
    ReadInOrder(rows);
    if outcome.Success? {
      forall k: Key | k !in rows && k.id != excluded && (forall j | 0 <= j < queries :: tables[j].Some? && k in tables[j].value)
        ensures |rows| == 100_000
                && forall i | 0 <= i < |rows| :: rows[i].created > k.created || (rows[i].created == k.created && rows[i].id > k.id)
      {
        StaysMeans(k, tables, queries, excluded);
        ReadBelow(rows, k);
      }
    }
  }

  lemma ReadInOrder(rows: seq<Key>)
    ensures Descending(rows) ==>
              forall i, j | 0 <= i < j < |rows| ::
                rows[i].created > rows[j].created || (rows[i].created == rows[j].created && rows[i].id > rows[j].id)
  {
  }

  lemma ReadBelow(rows: seq<Key>, k: Key)
    ensures Below(rows, k) ==>
              forall i | 0 <= i < |rows| :: rows[i].created > k.created || (rows[i].created == k.created && rows[i].id > k.id)
  {
  }

  lemma StaysMeans(k: Key, tables: seq<Option<Table>>, n: nat, excluded: nat)
    requires n <= |tables| && k.id != excluded && forall j | 0 <= j < n :: tables[j].Some? && k in tables[j].value
    ensures Stays(k, tables, n, excluded)
  {
  }

  function Last(rows: seq<Key>): Option<Key> {
    if rows == [] then None else Some(rows[|rows| - 1])
  }

  /** The rows of a list of batches, in order. */
  function Streamed(batches: seq<seq<Key>>): seq<Key> {
    if batches == [] then [] else Streamed(batches[..|batches| - 1]) + batches[|batches| - 1]
  }

  lemma StreamedLast(batches: seq<seq<Key>>, items: seq<Key>)
    ensures Streamed(batches + [items]) == Streamed(batches) + items
  {
    assert (batches + [items])[..|batches|] == batches;
  }

  ghost predicate AllAppear(rows: seq<Key>, tables: seq<Option<Table>>, n: nat, excluded: nat)
    requires n <= |tables|
  {
    forall k | k in rows :: Appears(k, tables, n, excluded)
  }

  /** A row that stays is either exported or still to come. */
  ghost predicate NoneMissed(rows: seq<Key>, tables: seq<Option<Table>>, n: nat, excluded: nat)
    requires n <= |tables|
  {
    forall k: Key :: Stays(k, tables, n, excluded) ==> k in rows || Below(rows, k)
  }

  ghost predicate AllExported(rows: seq<Key>, tables: seq<Option<Table>>, n: nat, excluded: nat)
    requires n <= |tables|
  {
    forall k: Key :: Stays(k, tables, n, excluded) ==> k in rows
  }

  lemma NothingYet(tables: seq<Option<Table>>, excluded: nat)
    ensures Descending([]) && AllAppear([], tables, 0, excluded) && NoneMissed([], tables, 0, excluded)
  {
  }

  lemma MoreQueries(rows: seq<Key>, tables: seq<Option<Table>>, n: nat, excluded: nat)
    requires 0 < n <= |tables| && AllAppear(rows, tables, n - 1, excluded)
    ensures AllAppear(rows, tables, n, excluded)
  {
  }

  /** One more batch keeps the list descending and misses no row that stays. */
  lemma BatchExtends(rows: seq<Key>, tables: seq<Option<Table>>, n: nat, excluded: nat, limit: nat)
    requires 0 < n <= |tables| && tables[n - 1].Some? && limit > 0
    requires Descending(rows) && AllAppear(rows, tables, n - 1, excluded) && NoneMissed(rows, tables, n - 1, excluded)
    ensures var items := Batch(tables[n - 1].value, Last(rows), excluded, limit);
            && |items| <= limit && Descending(rows + items)
            && AllAppear(rows + items, tables, n, excluded)
            && NoneMissed(rows + items, tables, n, excluded)
            && (|items| < limit ==> AllExported(rows + items, tables, n, excluded))
  {
    hide Batch;
    var table := tables[n - 1].value;
    var items := Batch(table, Last(rows), excluded, limit);
    BatchIsExact(table, Last(rows), excluded, limit);
    BatchIsBelow(rows, items, table, excluded);
    BatchAppears(rows, items, tables, n, excluded);
    forall k: Key | Stays(k, tables, n, excluded)
      ensures k in rows + items || (|items| == limit && Below(rows + items, k))
    {
      assert Stays(k, tables, n - 1, excluded);
      if k !in rows {
        BelowMeansLast(rows, k);
        assert k in Eligible(table, Last(rows), excluded);
        if k !in items {
          BelowBoth(rows, items, k);
        }
      }
    }
  }

  lemma BelowMeansLast(rows: seq<Key>, k: Key)
    requires Below(rows, k)
    ensures Last(rows).Some? ==> Above(Last(rows).value, k)
  {
  }

  lemma BelowBoth(rows: seq<Key>, items: seq<Key>, k: Key)
    requires Below(rows, k) && Below(items, k)
    ensures Below(rows + items, k)
  {
  }

  lemma BatchIsBelow(rows: seq<Key>, items: seq<Key>, table: Table, excluded: nat)
    requires Descending(rows) && Descending(items)
    requires forall k | k in items :: k in Eligible(table, Last(rows), excluded)
    ensures Descending(rows + items)
  {
    if rows != [] {
      var last := rows[|rows| - 1];
      forall i, j | 0 <= i < |rows| && 0 <= j < |items| ensures Above(rows[i], items[j]) {
        assert items[j] in items;
        assert Above(last, items[j]);
        assert i == |rows| - 1 || Above(rows[i], last);
      }
    } else {
      assert rows + items == items;
    }
  }

  lemma BatchAppears(rows: seq<Key>, items: seq<Key>, tables: seq<Option<Table>>, n: nat, excluded: nat)
    requires 0 < n <= |tables| && tables[n - 1].Some? && AllAppear(rows, tables, n - 1, excluded)
    requires forall k | k in items :: k in Eligible(tables[n - 1].value, Last(rows), excluded)
    ensures AllAppear(rows + items, tables, n, excluded)
  {
    forall k | k in rows + items ensures Appears(k, tables, n, excluded) {
      if k in rows {
        assert Appears(k, tables, n - 1, excluded);
      } else {
        assert k in items;
        assert k in tables[n - 1].value;
      }
    }
  }

  lemma Concludes(rows: seq<Key>, tables: seq<Option<Table>>, n: nat, excluded: nat)
    requires n <= |tables|
    requires AllExported(rows, tables, n, excluded) || (|rows| == MAX_EXPORT_ROWS && NoneMissed(rows, tables, n, excluded))
    ensures forall k: Key :: Stays(k, tables, n, excluded) ==> k in rows || (|rows| == MAX_EXPORT_ROWS && Below(rows, k))
  {
  }

  lemma Unfolded(rows: seq<Key>, tables: seq<Option<Table>>, n: nat, excluded: nat)
    requires n <= |tables| && AllAppear(rows, tables, n, excluded)
    ensures forall k | k in rows :: Appears(k, tables, n, excluded)
  {
  }

  /** What the batches produce from a table that does not change is the one sorted query, cut at the cap. */
  method ExportFixed(table: Table, excluded: nat) returns (batches: seq<seq<Key>>, outcome: Outcome)
    ensures outcome == Success
    ensures var all := Sorted(set k | k in table && k.id != excluded); Streamed(batches) == all[..Min(|all|, MAX_EXPORT_ROWS)]
  {
    var tables := seq(MAX_EXPORT_ROWS, _ => Some(table));
    var queries: nat;
    var rows: seq<Key>;
    batches, rows, outcome, queries := Export(tables, excluded);
    FixedIsOneQuery(table, excluded, tables, rows, queries);
  }

  lemma FixedIsOneQuery(table: Table, excluded: nat, tables: seq<Option<Table>>, rows: seq<Key>, n: nat)
    requires n <= |tables| && (forall j | 0 <= j < n :: tables[j] == Some(table))
    requires |rows| <= MAX_EXPORT_ROWS && Descending(rows)
    requires forall k | k in rows :: Appears(k, tables, n, excluded)
    requires forall k: Key :: Stays(k, tables, n, excluded) ==> k in rows || (|rows| == MAX_EXPORT_ROWS && Below(rows, k))
    ensures var all := Sorted(set k | k in table && k.id != excluded); rows == all[..Min(|all|, MAX_EXPORT_ROWS)]
  {
    var rest := set k | k in table && k.id != excluded && k !in rows;
    SortedIsExact(rest);
    forall i, j | 0 <= i < |rows| && 0 <= j < |Sorted(rest)| ensures Above(rows[i], Sorted(rest)[j]) {
      assert Sorted(rest)[j] in Sorted(rest);
      assert Stays(Sorted(rest)[j], tables, n, excluded);
    }
    var everything := set k | k in table && k.id != excluded;
    SortedIsExact(everything);
    forall k ensures k in rows + Sorted(rest) <==> k in Sorted(everything) {
      if k in rows {
        assert Appears(k, tables, n, excluded);
      }
    }
    DescendingIsUnique(rows + Sorted(rest), Sorted(everything));
  }

  // ----- truncation of stored texts

  /** The UTF-8 length of one character. */
  function Width(c: char): (w: nat)
    ensures 1 <= w <= 4
  {
    var code := c as int;
    if code < 0x80 then 1 else if code < 0x800 then 2 else if code < 0x1_0000 then 3 else 4
  }

  function Bytes(text: string): nat {
    if text == "" then 0 else Bytes(text[..|text| - 1]) + Width(text[|text| - 1])
  }

  /** The number of characters before byte offset `end`, when a character begins or the text ends there. */
  function Boundary(text: string, end: nat): Option<nat> {
    if Bytes(text) == end then Some(|text|)
    else if text == "" then None
    else Boundary(text[..|text| - 1], end)
  }

  lemma {:induction false} BytesGrow(text: string, k: nat)
    requires k < |text|
    ensures Bytes(text[..k]) < Bytes(text)
  {
    var front := text[..|text| - 1];
    if k < |front| {
      BytesGrow(front, k);
      assert front[..k] == text[..k];
    }
  }

  lemma {:induction false} BoundaryIsExact(text: string, end: nat, k: nat)
    requires k <= |text|
    ensures Boundary(text, end) == Some(k) <==> Bytes(text[..k]) == end
  {
    assert text[..|text|] == text;
    if k < |text| {
      BytesGrow(text, k);
      assert text[..|text| - 1][..k] == text[..k];
      BoundaryIsExact(text[..|text| - 1], end, k);
    } else if text != "" {
      BoundaryIsShort(text[..|text| - 1], end);
    }
  }

  lemma {:induction false} BoundaryIsShort(text: string, end: nat)
    ensures Boundary(text, end).Some? ==> Boundary(text, end).value <= |text|
    ensures Boundary(text, 0).Some?
  {
    if text == "" {
    } else {
      BoundaryIsShort(text[..|text| - 1], end);
    }
  }

  /** truncate: the longest prefix of whole characters that fits in maxBytes bytes. */
  method Truncate(text: string, maxBytes: nat) returns (result: string)
    ensures result <= text && Bytes(result) <= maxBytes
    ensures forall k | |result| < k <= |text| :: Bytes(text[..k]) > maxBytes
  {
    hide Bytes, Boundary;
    if Bytes(text) <= maxBytes {
      return text;
    }
    var end := maxBytes;
    BoundaryIsShort(text, end);
    while Boundary(text, end).None?
      invariant end <= maxBytes && Boundary(text, 0).Some?
      invariant forall e: nat | end < e <= maxBytes :: Boundary(text, e).None?
      decreases end
    {
      end := end - 1;
    }
    BoundaryIsShort(text, end);
    var n := Boundary(text, end).value;
    BoundaryIsExact(text, end, n);
    result := text[..n];
    forall k | n < k <= |text| ensures Bytes(text[..k]) > maxBytes {
      BoundaryIsExact(text, Bytes(text[..k]), k);
      BytesGrow(text[..k], n);
      assert text[..k][..n] == text[..n];
    }
  }
}
