/** The CSV download of the audit log, from the query to the reader: the batches of AuditExport rendered
    by CsvExport as they arrive (backend/src/audit.rs). */
module AuditDownload {
  import opened Wrappers
  import Log = AuditExport
  import Csv = CsvExport

  /** The matching rows, by the key the export orders them by. */
  type Events = map<Log.Key, Csv.Event>

  function Rendered(events: Events, keys: seq<Log.Key>): seq<Csv.Event>
    requires forall k | k in keys :: k in events
  {
    seq(|keys|, i requires 0 <= i < |keys| => events[keys[i]])
  }

  lemma {:induction false} RowsAdd(a: seq<Csv.Event>, b: seq<Csv.Event>)
    ensures Csv.Rows(a + b) == Csv.Rows(a) + Csv.Rows(b)
  {
    hide Csv.RowText;
    if b == [] {
      assert a + b == a;
    } else {
      var front := b[..|b| - 1];
      assert (a + b)[..|a + b| - 1] == a + front;
      RowsAdd(a, front);
      assert Csv.Rows(a) + Csv.Rows(b) == Csv.Rows(a) + Csv.Rows(front) + Csv.RowText(b[|b| - 1]);
    }
  }

  lemma {:induction false} StreamedMembers(batches: seq<seq<Log.Key>>, n: nat, k: Log.Key)
    requires n < |batches| && k in batches[n]
    ensures k in Log.Streamed(batches)
  {
    if n == |batches| - 1 {
    } else {
      StreamedMembers(batches[..|batches| - 1], n, k);
    }
  }

  /** The chunk of one batch. */
  method Chunk(events: Events, items: seq<Log.Key>) returns (chunk: string)
    requires forall k | k in items :: k in events
    ensures chunk == Csv.Rows(Rendered(events, items))
  {
    chunk := "";
    for i := 0 to |items|
      invariant chunk == Csv.Rows(Rendered(events, items)[..i])
    {
      Csv.RowsLast(Rendered(events, items), i);
      chunk := Csv.AppendRow(chunk, events[items[i]]);
    }
    assert Rendered(events, items)[..|items|] == Rendered(events, items);
  }

  /** The body of a CSV export of a table that does not change: what a reader gets out of it are the
      column names and then the cells of the one sorted query without the export's own event, cut at
      the cap. */
  method Download(events: Events, excluded: nat) returns (body: string)
    ensures var all := Log.Sorted(set k | k in events && k.id != excluded);
            var keys := all[..Log.Min(|all|, Log.MAX_EXPORT_ROWS)];
            && (forall k | k in keys :: k in events)
            && Csv.Read(body) == Some([Csv.NAMES] + Csv.AllCells(Rendered(events, keys)))
  {
    hide Csv.Rows, Csv.Read, Log.Sorted, Log.Streamed, Csv.AllCells;
    var batches, outcome := Log.ExportFixed(events.Keys, excluded);
    ghost var keys := Log.Streamed(batches);
    OnlyEvents(events, excluded);
    NoBatch(events, batches);
    body := Csv.CSV_HEADER;
    for n := 0 to |batches|
      invariant forall k | k in Log.Streamed(batches[..n]) :: k in events
      invariant body == Csv.CSV_HEADER + Csv.Rows(Rendered(events, Log.Streamed(batches[..n])))
    {
      forall k | k in batches[n] ensures k in events {
        StreamedMembers(batches, n, k);
      }
      var chunk := Chunk(events, batches[n]);
      NextBatch(events, batches, n);
      body := body + chunk;
    }
    assert batches[..|batches|] == batches;
    Csv.ExportReadsBack(Rendered(events, keys));
  }

  lemma OnlyEvents(events: Events, excluded: nat)
    ensures (set k | k in events && k.id != excluded) == (set k | k in events.Keys && k.id != excluded)
    ensures forall k | k in Log.Sorted(set k | k in events && k.id != excluded) :: k in events
  {
    Log.SortedIsExact(set k | k in events && k.id != excluded);
  }

  lemma NoBatch(events: Events, batches: seq<seq<Log.Key>>)
    ensures Log.Streamed(batches[..0]) == [] && Csv.Rows(Rendered(events, [])) == ""
  {
  }

  lemma NextBatch(events: Events, batches: seq<seq<Log.Key>>, n: nat)
    requires n < |batches|
    requires forall k | k in Log.Streamed(batches[..n]) :: k in events
    requires forall k | k in batches[n] :: k in events
    ensures Log.Streamed(batches[..n + 1]) == Log.Streamed(batches[..n]) + batches[n]
    ensures Csv.Rows(Rendered(events, Log.Streamed(batches[..n + 1])))
         == Csv.Rows(Rendered(events, Log.Streamed(batches[..n]))) + Csv.Rows(Rendered(events, batches[n]))
  {
    hide Csv.Rows, Log.Streamed;
    var sent, items := Log.Streamed(batches[..n]), batches[n];
    Log.StreamedLast(batches[..n], items);
    assert batches[..n + 1] == batches[..n] + [items];
    RowsAdd(Rendered(events, sent), Rendered(events, items));
    assert Rendered(events, sent + items) == Rendered(events, sent) + Rendered(events, items);
  }
}
