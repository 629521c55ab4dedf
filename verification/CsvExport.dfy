/** The CSV form of the audit export in backend/src/audit.rs, and a reader for it after section 2 of
    RFC 4180 with a line feed as record separator. */
module CsvExport {
  import opened Wrappers

  /** One exported audit event; the two JSON columns are given as their serialised text. */
  datatype Event = Event(
    id: string, userId: Option<string>, actor: string, category: string, kind: string, action: string,
    target: string, detail: string, metadata: string, instanceId: Option<string>, nodeSnapshot: string,
    sourceIp: Option<string>, userAgent: Option<string>, requestId: Option<string>, sessionId: Option<string>,
    operationId: Option<string>, status: string, errorCode: Option<string>, errorReason: string,
    createdAt: int, completedAt: Option<int>)

  const NAMES: seq<string> := ["id", "user_id", "actor", "category", "kind", "action", "target", "detail", "metadata",
    "instance_id", "node_snapshot", "source_ip", "user_agent", "request_id", "session_id", "operation_id", "status",
    "error_code", "error_reason", "created_at", "completed_at"]

  /** The header line: the column names in order. */
  const CSV_HEADER: string := Joined(NAMES) + "\n"

  function Joined(names: seq<string>): string {
    if names == [] then "" else Joined(names[..|names| - 1]) + (if |names| > 1 then "," else "") + names[|names| - 1]
  }

  function OrEmpty(text: Option<string>): string {
    if text.Some? then text.value else ""
  }

  // ----- printing

  function TrimBlanks(value: string): string {
    if value != "" && (value[0] == ' ' || value[0] == '\t') then TrimBlanks(value[1..]) else value
  }

  predicate StartsWithControl(value: string) {
    value != "" && value[0] in {'\t', '\r', '\n'}
  }

  predicate StartsWithFormula(value: string) {
    var candidate := TrimBlanks(value);
    candidate != "" && candidate[0] in {'=', '+', '-', '@'}
  }

  /** A text a spreadsheet does not take for a formula. */
  predicate IsSafe(value: string) {
    !StartsWithControl(value) && !StartsWithFormula(value)
  }

  function Neutralised(value: string): string {
    if IsSafe(value) then value else "'" + value
  }

  function QuotesDoubled(value: string): string {
    if value == "" then "" else (if value[0] == '"' then "\"\"" else [value[0]]) + QuotesDoubled(value[1..])
  }

  predicate NeedsQuotes(value: string) {
    exists c | c in value :: c in {',', '"', '\n', '\r'}
  }

  /** csv_escape */
  function Escape(value: string): string {
    var neutral := Neutralised(value);
    if NeedsQuotes(neutral) then "\"" + QuotesDoubled(neutral) + "\"" else neutral
  }

  function Digits(n: nat): string {
    (if n < 10 then "" else Digits(n / 10)) + [['0', '1', '2', '3', '4', '5', '6', '7', '8', '9'][n % 10]]
  }

  function Decimal(n: int): string {
    if n < 0 then "-" + Digits(-n) else Digits(n)
  }

  function Texts(e: Event): seq<string> {
    [e.id, OrEmpty(e.userId), e.actor, e.category, e.kind, e.action, e.target, e.detail, e.metadata,
     OrEmpty(e.instanceId), e.nodeSnapshot, OrEmpty(e.sourceIp), OrEmpty(e.userAgent), OrEmpty(e.requestId),
     OrEmpty(e.sessionId), OrEmpty(e.operationId), e.status, OrEmpty(e.errorCode), e.errorReason]
  }

  function Numbers(e: Event): seq<string> {
    [Decimal(e.createdAt), if e.completedAt.Some? then Decimal(e.completedAt.value) else ""]
  }

  /** append_csv_row */
  method AppendRow(output: string, e: Event) returns (result: string)
    ensures result == output + RowText(e)
  {
    hide Escape, Separated, Texts, Decimal, RowText, Numbers;
    var fields := Texts(e);
    SeparatedNone(fields);
    result := output;
    for index := 0 to |fields|
      invariant result == output + Separated(fields[..index])
    {
      SeparatedLast(fields, index);
      if index > 0 {
        result := result + ",";
      }
      result := result + Escape(fields[index]);
      assert result == output + (Separated(fields[..index]) + (if index > 0 then "," else "") + Escape(fields[index]));
    }
    assert fields[..|fields|] == fields;
    RowTextMeans(e);
    var completed := if e.completedAt.Some? then Decimal(e.completedAt.value) else "";
    result := result + ("," + Decimal(e.createdAt) + "," + completed + "\n");
  }

  /** The CSV body of the export: the header, then one row per event. */
  method Export(events: seq<Event>) returns (result: string)
    ensures result == CSV_HEADER + Rows(events)
  {
    hide RowText, Joined;
    result := CSV_HEADER;
    for i := 0 to |events|
      invariant result == CSV_HEADER + Rows(events[..i])
    {
      RowsLast(events, i);
      result := AppendRow(result, events[i]);
    }
    assert events[..|events|] == events;
  }

  function Separated(fields: seq<string>): string {
    if fields == [] then ""
    else Separated(fields[..|fields| - 1]) + (if |fields| > 1 then "," else "") + Escape(fields[|fields| - 1])
  }

  function RowText(e: Event): string {
    Separated(Texts(e)) + "," + Numbers(e)[0] + "," + Numbers(e)[1] + "\n"
  }

  function Rows(events: seq<Event>): string {
    if events == [] then "" else Rows(events[..|events| - 1]) + RowText(events[|events| - 1])
  }

  lemma RowTextMeans(e: Event)
    ensures RowText(e) == Separated(Texts(e)) + ("," + Decimal(e.createdAt) + ","
                          + (if e.completedAt.Some? then Decimal(e.completedAt.value) else "") + "\n")
  {
  }

  lemma RowsLast(events: seq<Event>, i: nat)
    requires i < |events|
    ensures Rows(events[..i + 1]) == Rows(events[..i]) + RowText(events[i])
  {
    assert events[..i + 1][..i] == events[..i];
  }

  lemma SeparatedNone(fields: seq<string>)
    ensures Separated(fields[..0]) == ""
  {
  }

  lemma SeparatedLast(fields: seq<string>, i: nat)
    requires i < |fields|
    ensures Separated(fields[..i + 1]) == Separated(fields[..i]) + (if i > 0 then "," else "") + Escape(fields[i])
  {
    assert fields[..i + 1][..i] == fields[..i];
  }

  // ----- reading

  datatype Mode = FieldStart | Plain | Quoted | AfterQuote

  /** Records read so far, the fields of the record in progress, and the field in progress. */
  datatype Reader = Reading(mode: Mode, field: string, fields: seq<string>, records: seq<seq<string>>) | Failed

  function Feed(r: Reader, c: char): Reader {
    if r.Failed? then Failed
    else if r.mode.Quoted? then (if c == '"' then r.(mode := AfterQuote) else r.(field := r.field + [c]))
    else if c == ',' then Reading(FieldStart, "", r.fields + [r.field], r.records)
    else if c == '\n' then Reading(FieldStart, "", [], r.records + [r.fields + [r.field]])
    else if c == '"' && r.mode.FieldStart? then r.(mode := Quoted)
    else if c == '"' && r.mode.AfterQuote? then Reading(Quoted, r.field + "\"", r.fields, r.records)
    else if c == '"' || c == '\r' || r.mode.AfterQuote? then Failed
    else Reading(Plain, r.field + [c], r.fields, r.records)
  }

  function FeedAll(r: Reader, text: string): Reader
    decreases |text|
  {
    if text == "" then r else FeedAll(Feed(r, text[0]), text[1..])
  }

  /** The records of a text; a last record need not end in a line feed. */
  function Read(text: string): Option<seq<seq<string>>> {
    var r := FeedAll(Reading(FieldStart, "", [], []), text);
    if r.Failed? || r.mode.Quoted? then None
    else if r.mode.FieldStart? && r.fields == [] then Some(r.records)
    else Some(r.records + [r.fields + [r.field]])
  }

  lemma {:induction false} FeedConcat(r: Reader, a: string, b: string)
    ensures FeedAll(r, a + b) == FeedAll(FeedAll(r, a), b)
    decreases |a|
  {
    if a == "" {
      assert a + b == b;
    } else {
      assert (a + b)[1..] == a[1..] + b;
      FeedConcat(Feed(r, a[0]), a[1..], b);
    }
  }

  /** The reader holds a complete field and nothing is amiss. */
  predicate Holds(r: Reader, field: string, fields: seq<string>, records: seq<seq<string>>) {
    r.Reading? && !r.mode.Quoted? && r.field == field && r.fields == fields && r.records == records
  }

  predicate Bare(text: string) {
    forall c | c in text :: c !in {',', '"', '\n', '\r'}
  }

  lemma {:induction false} BareIsRead(r: Reader, text: string)
    requires r.Reading? && (r.mode.Plain? || r.mode.FieldStart?) && Bare(text)
    ensures Holds(FeedAll(r, text), r.field + text, r.fields, r.records)
    decreases |text|
  {
    if text == "" {
      assert r.field + text == r.field;
    } else {
      assert text[0] in text;
      var next := Feed(r, text[0]);
      assert forall c | c in text[1..] :: c in text;
      BareIsRead(next, text[1..]);
      assert next.field + text[1..] == r.field + text;
    }
  }

  lemma {:induction false} QuotedIsRead(r: Reader, text: string)
    requires r.Reading? && r.mode.Quoted?
    ensures FeedAll(r, QuotesDoubled(text)) == r.(field := r.field + text)
    decreases |text|
  {
    if text == "" {
      assert r.field + text == r.field;
    } else {
      var next := r.(field := r.field + [text[0]]);
      assert next.field + text[1..] == r.field + text;
      QuotedIsRead(next, text[1..]);
      if text[0] == '"' {
        FeedConcat(r, "\"\"", QuotesDoubled(text[1..]));
        assert FeedAll(r, "\"\"") == Feed(Feed(r, '"'), '"') by {
          assert "\"\""[1..] == "\"";
        }
      } else {
        FeedConcat(r, [text[0]], QuotesDoubled(text[1..]));
      }
    }
  }

  /** Whatever the value, its escaped form reads back as the neutralised value. */
  lemma EscapedIsRead(fields: seq<string>, records: seq<seq<string>>, value: string)
    ensures Holds(FeedAll(Reading(FieldStart, "", fields, records), Escape(value)), Neutralised(value), fields, records)
  {
    var start := Reading(FieldStart, "", fields, records);
    var neutral := Neutralised(value);
    assert "" + neutral == neutral;
    if NeedsQuotes(neutral) {
      var inside := FeedAll(start, "\"");
      assert inside == start.(mode := Quoted);
      QuotedIsRead(inside, neutral);
      FeedConcat(start, "\"", QuotesDoubled(neutral));
      FeedConcat(start, "\"" + QuotesDoubled(neutral), "\"");
      assert FeedAll(inside.(field := neutral), "\"") == Feed(inside.(field := neutral), '"');
    } else {
      BareIsRead(start, neutral);
    }
  }

  lemma {:induction false} DigitsAreBare(n: nat)
    ensures Bare(Digits(n)) && Digits(n) != "" && '-' !in Digits(n)
  {
    if n >= 10 {
      DigitsAreBare(n / 10);
    }
  }

  lemma NumberIsRead(fields: seq<string>, records: seq<seq<string>>, e: Event, i: nat)
    requires i < 2
    ensures Holds(FeedAll(Reading(FieldStart, "", fields, records), Numbers(e)[i]), Numbers(e)[i], fields, records)
  {
    var text := Numbers(e)[i];
    DigitsAreBare(if e.createdAt < 0 then -e.createdAt else e.createdAt);
    if e.completedAt.Some? {
      DigitsAreBare(if e.completedAt.value < 0 then -e.completedAt.value else e.completedAt.value);
    }
    assert Bare(text);
    BareIsRead(Reading(FieldStart, "", fields, records), text);
    assert "" + text == text;
  }

  function AllNeutralised(fields: seq<string>): seq<string> {
    seq(|fields|, i requires 0 <= i < |fields| => Neutralised(fields[i]))
  }

  /** The cells of one event as a reader sees them. */
  function Cells(e: Event): (cells: seq<string>)
    ensures |cells| == 21
  {
    AllNeutralised(Texts(e)) + Numbers(e)
  }

  lemma {:induction false} SeparatedIsRead(records: seq<seq<string>>, fields: seq<string>)
    requires |fields| > 0
    ensures Holds(FeedAll(Reading(FieldStart, "", [], records), Separated(fields)),
                  Neutralised(fields[|fields| - 1]), AllNeutralised(fields[..|fields| - 1]), records)
  {
    var start := Reading(FieldStart, "", [], records);
    var front, last := fields[..|fields| - 1], fields[|fields| - 1];
    if |fields| == 1 {
      assert Separated(fields) == Escape(last);
      EscapedIsRead([], records, last);
    } else {
      SeparatedIsRead(records, front);
      FeedConcat(start, Separated(front), ",");
      FeedConcat(start, Separated(front) + ",", Escape(last));
      FeedOne(FeedAll(start, Separated(front)), ',');
      assert AllNeutralised(front) == AllNeutralised(front[..|front| - 1]) + [Neutralised(front[|front| - 1])];
      EscapedIsRead(AllNeutralised(front), records, last);
    }
  }

  lemma FeedOne(r: Reader, c: char)
    ensures FeedAll(r, [c]) == Feed(r, c)
  {
  }

  lemma RowIsRead(records: seq<seq<string>>, e: Event)
    ensures FeedAll(Reading(FieldStart, "", [], records), RowText(e)) == Reading(FieldStart, "", [], records + [Cells(e)])
  {
    hide Feed, FeedAll, Separated, Decimal, Texts;
    var start := Reading(FieldStart, "", [], records);
    var texts := Texts(e);
    TextCount(e);
    SeparatedIsRead(records, texts);
    var s1 := Separated(texts);
    var r1 := FeedAll(start, s1);
    var r2 := EndField(start, s1);
    assert AllNeutralised(texts) == AllNeutralised(texts[..18]) + [Neutralised(texts[18])];
    NumberIsRead(AllNeutralised(texts), records, e, 0);
    FeedConcat(start, s1 + ",", Numbers(e)[0]);
    var s3 := s1 + "," + Numbers(e)[0];
    var r4 := EndField(start, s3);
    NumberIsRead(AllNeutralised(texts) + [Numbers(e)[0]], records, e, 1);
    FeedConcat(start, s3 + ",", Numbers(e)[1]);
    var s5 := s3 + "," + Numbers(e)[1];
    var r6 := EndRecord(start, s5);
    assert AllNeutralised(texts) + [Numbers(e)[0]] + [Numbers(e)[1]] == Cells(e);
    assert RowText(e) == s5 + "\n";
  }

  lemma TextCount(e: Event)
    ensures |Texts(e)| == 19
  {
  }

  lemma EndField(start: Reader, text: string) returns (r: Reader)
    requires FeedAll(start, text).Reading? && !FeedAll(start, text).mode.Quoted?
    ensures r == FeedAll(start, text + ",")
    ensures var b := FeedAll(start, text); r == Reading(FieldStart, "", b.fields + [b.field], b.records)
  {
    r := FeedAll(start, text + ",");
    FeedConcat(start, text, ",");
    FeedOne(FeedAll(start, text), ',');
  }

  lemma EndRecord(start: Reader, text: string) returns (r: Reader)
    requires FeedAll(start, text).Reading? && !FeedAll(start, text).mode.Quoted?
    ensures r == FeedAll(start, text + "\n")
    ensures var b := FeedAll(start, text); r == Reading(FieldStart, "", [], b.records + [b.fields + [b.field]])
  {
    r := FeedAll(start, text + "\n");
    FeedConcat(start, text, "\n");
    FeedOne(FeedAll(start, text), '\n');
  }

  function AllCells(events: seq<Event>): seq<seq<string>> {
    seq(|events|, i requires 0 <= i < |events| => Cells(events[i]))
  }

  lemma {:induction false} RowsAreRead(records: seq<seq<string>>, events: seq<Event>)
    ensures FeedAll(Reading(FieldStart, "", [], records), Rows(events)) == Reading(FieldStart, "", [], records + AllCells(events))
  {
    hide RowText, Feed, Cells;
    var start := Reading(FieldStart, "", [], records);
    if events == [] {
      assert records + AllCells(events) == records;
    } else {
      var front, last := events[..|events| - 1], events[|events| - 1];
      RowsAreRead(records, front);
      FeedConcat(start, Rows(front), RowText(last));
      RowIsRead(records + AllCells(front), last);
      assert records + AllCells(events) == records + AllCells(front) + [Cells(last)];
    }
  }

  lemma {:induction false} JoinedIsRead(records: seq<seq<string>>, names: seq<string>)
    requires |names| > 0 && forall k | 0 <= k < |names| :: Bare(names[k])
    ensures Holds(FeedAll(Reading(FieldStart, "", [], records), Joined(names)), names[|names| - 1], names[..|names| - 1], records)
  {
    var start := Reading(FieldStart, "", [], records);
    var front, last := names[..|names| - 1], names[|names| - 1];
    assert "" + last == last;
    if |names| == 1 {
      assert Joined(names) == last;
      BareIsRead(start, last);
    } else {
      JoinedIsRead(records, front);
      var next := EndField(start, Joined(front));
      assert front[..|front| - 1] + [front[|front| - 1]] == front;
      FeedConcat(start, Joined(front) + ",", last);
      BareIsRead(next, last);
    }
  }

  lemma HeaderIsRead()
    ensures FeedAll(Reading(FieldStart, "", [], []), CSV_HEADER) == Reading(FieldStart, "", [], [NAMES])
  {
    hide Feed, FeedAll, Joined;
    JoinedIsRead([], NAMES);
    var r := EndRecord(Reading(FieldStart, "", [], []), Joined(NAMES));
    assert NAMES[..20] + [NAMES[20]] == NAMES;
  }

  /** Round trip: a reader of the whole export gets the column names and then, event by event, the
      twenty-one cells of every event, whatever characters its texts contain. */
  lemma ExportReadsBack(events: seq<Event>)
    ensures Read(CSV_HEADER + Rows(events)) == Some([NAMES] + AllCells(events))
  {
    hide Feed, FeedAll, Joined, Rows, Cells;
    HeaderIsRead();
    FeedConcat(Reading(FieldStart, "", [], []), CSV_HEADER, Rows(events));
    RowsAreRead([NAMES], events);
  }

  // ----- what a cell shows

  /** A neutralised text is never taken for a formula, and only an unsafe text is changed, by one quote
      character that can be taken off again. */
  lemma NeutralisedIsSafe(value: string)
    ensures IsSafe(Neutralised(value))
    ensures Neutralised(value) == value <==> IsSafe(value)
    ensures !IsSafe(value) ==> |Neutralised(value)| == |value| + 1 && Neutralised(value)[1..] == value
  {
  }

  /** Blanks before the first other character do not hide it. */
  lemma {:induction false} TrimmedIsTail(value: string) returns (i: nat)
    ensures i <= |value| && TrimBlanks(value) == value[i..]
    ensures forall j | 0 <= j < i :: value[j] == ' ' || value[j] == '\t'
    ensures i < |value| ==> value[i] != ' ' && value[i] != '\t'
  {
    if value != "" && (value[0] == ' ' || value[0] == '\t') {
      var k := TrimmedIsTail(value[1..]);
      i := k + 1;
    } else {
      i := 0;
    }
  }

  /** In characters: a neutralised text neither begins with a tab, carriage return or line feed, nor is its
      first character that is not blank one of = + - @; a text that is so by itself is left alone, any
      other gets one quote character in front. */
  lemma NeutralisedInCharacters(value: string)
    ensures (value != "" && (value[0] == '\t' || value[0] == '\r' || value[0] == '\n'))
            || (exists i | 0 <= i < |value| ::
                  (value[i] == '=' || value[i] == '+' || value[i] == '-' || value[i] == '@')
                  && forall j | 0 <= j < i :: value[j] == ' ' || value[j] == '\t')
            <==> Neutralised(value) != value
    ensures Neutralised(value) != value ==> Neutralised(value) == "'" + value
  {
    var i := TrimmedIsTail(value);
    if exists k | 0 <= k < |value| ::
         (value[k] == '=' || value[k] == '+' || value[k] == '-' || value[k] == '@')
         && forall j | 0 <= j < k :: value[j] == ' ' || value[j] == '\t' {
      var k :| 0 <= k < |value| && (value[k] == '=' || value[k] == '+' || value[k] == '-' || value[k] == '@')
               && forall j | 0 <= j < k :: value[j] == ' ' || value[j] == '\t';
      assert k == i;
    }
  }

  /** Texts with the same cell are the same, unless one is the other with a quote put before it. */
  lemma CellTellsText(a: string, b: string)
    ensures Neutralised(a) == Neutralised(b) <==>
              a == b || (!IsSafe(a) && b == "'" + a) || (!IsSafe(b) && a == "'" + b)
  {
    NeutralisedIsSafe(a);
    NeutralisedIsSafe(b);
  }

  function Value(digits: string): nat {
    if digits == "" then 0 else 10 * Value(digits[..|digits| - 1]) + DigitOf(digits[|digits| - 1])
  }

  function DigitOf(c: char): nat {
    if '0' <= c <= '9' then (c - '0') as nat else 0
  }

  lemma {:induction false} DigitsHaveValue(n: nat)
    ensures Value(Digits(n)) == n
  {
    var digits := Digits(n);
    if n >= 10 {
      DigitsHaveValue(n / 10);
    }
    assert digits[..|digits| - 1] == if n < 10 then "" else Digits(n / 10);
  }

  /** The two numeric cells are not neutralised: an event's cells are all safe exactly when neither of
      its timestamps is negative. */
  lemma CellsAreSafeIff(e: Event)
    ensures (forall k | 0 <= k < 21 :: IsSafe(Cells(e)[k])) <==> e.createdAt >= 0 && (e.completedAt.Some? ==> e.completedAt.value >= 0)
  {
    hide IsSafe, Decimal, Neutralised, Texts;
    TextCount(e);
    forall k | 0 <= k < 19 ensures IsSafe(Cells(e)[k]) {
      assert Cells(e)[k] == Neutralised(Texts(e)[k]);
      NeutralisedIsSafe(Texts(e)[k]);
    }
    assert Cells(e)[19] == Decimal(e.createdAt);
    assert Cells(e)[20] == if e.completedAt.Some? then Decimal(e.completedAt.value) else "";
    DecimalIsSafeIff(e.createdAt);
    EmptyIsSafe();
    if e.completedAt.Some? {
      DecimalIsSafeIff(e.completedAt.value);
    }
  }

  lemma EmptyIsSafe()
    ensures IsSafe("")
  {
  }

  lemma {:induction false} DigitsAreDigits(n: nat)
    ensures Digits(n) != "" && '0' <= Digits(n)[0] <= '9'
  {
    if n >= 10 {
      DigitsAreDigits(n / 10);
    }
  }

  lemma DecimalIsSafeIff(n: int)
    ensures IsSafe(Decimal(n)) <==> n >= 0
  {
    DigitsAreDigits(if n < 0 then -n else n);
  }

  /** What the column of a given name is to show. */
  function Column(name: string, e: Event): string {
    match name
    case "id" => Neutralised(e.id)
    case "user_id" => Neutralised(OrEmpty(e.userId))
    case "actor" => Neutralised(e.actor)
    case "category" => Neutralised(e.category)
    case "kind" => Neutralised(e.kind)
    case "action" => Neutralised(e.action)
    case "target" => Neutralised(e.target)
    case "detail" => Neutralised(e.detail)
    case "metadata" => Neutralised(e.metadata)
    case "instance_id" => Neutralised(OrEmpty(e.instanceId))
    case "node_snapshot" => Neutralised(e.nodeSnapshot)
    case "source_ip" => Neutralised(OrEmpty(e.sourceIp))
    case "user_agent" => Neutralised(OrEmpty(e.userAgent))
    case "request_id" => Neutralised(OrEmpty(e.requestId))
    case "session_id" => Neutralised(OrEmpty(e.sessionId))
    case "operation_id" => Neutralised(OrEmpty(e.operationId))
    case "status" => Neutralised(e.status)
    case "error_code" => Neutralised(OrEmpty(e.errorCode))
    case "error_reason" => Neutralised(e.errorReason)
    case "created_at" => Decimal(e.createdAt)
    case "completed_at" => (if e.completedAt.Some? then Decimal(e.completedAt.value) else "")
    case _ => ""
  }

  lemma FirstColumns(e: Event, i: nat)
    requires 0 <= i < 7
    ensures Column(NAMES[i], e) == Neutralised(Texts(e)[i])
  {
    hide Decimal, Neutralised;
    match i
    case 0 => assert NAMES[0] == "id";
    case 1 => assert NAMES[1] == "user_id";
    case 2 => assert NAMES[2] == "actor";
    case 3 => assert NAMES[3] == "category";
    case 4 => assert NAMES[4] == "kind";
    case 5 => assert NAMES[5] == "action";
    case 6 => assert NAMES[6] == "target";
  }

  lemma MiddleColumns(e: Event, i: nat)
    requires 7 <= i < 14
    ensures Column(NAMES[i], e) == Neutralised(Texts(e)[i])
  {
    hide Decimal, Neutralised;
    match i
    case 7 => assert NAMES[7] == "detail";
    case 8 => assert NAMES[8] == "metadata";
    case 9 => assert NAMES[9] == "instance_id";
    case 10 => assert NAMES[10] == "node_snapshot";
    case 11 => assert NAMES[11] == "source_ip";
    case 12 => assert NAMES[12] == "user_agent";
    case 13 => assert NAMES[13] == "request_id";
  }

  lemma LastColumns(e: Event, i: nat)
    requires 14 <= i < 21
    ensures Column(NAMES[i], e) == (if i < 19 then Neutralised(Texts(e)[i]) else Numbers(e)[i - 19])
  {
    hide Decimal, Neutralised;
    match i
    case 14 => assert NAMES[14] == "session_id";
    case 15 => assert NAMES[15] == "operation_id";
    case 16 => assert NAMES[16] == "status";
    case 17 => assert NAMES[17] == "error_code";
    case 18 => assert NAMES[18] == "error_reason";
    case 19 => assert NAMES[19] == "created_at";
    case 20 => assert NAMES[20] == "completed_at";
  }

  /** Every cell stands under its own name. */
  lemma CellsMatchNames(e: Event, i: nat)
    requires i < 21
    ensures Cells(e)[i] == Column(NAMES[i], e)
  {
    hide Column, Texts, Numbers, Neutralised;
    TextCount(e);
    if i < 7 {
      FirstColumns(e, i);
    } else if i < 14 {
      MiddleColumns(e, i);
    } else {
      LastColumns(e, i);
    }
  }
}
