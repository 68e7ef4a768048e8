/**
 * Reading a ledger page by page over the network (adapters/ledger_api.py): a cursor, a limit on
 * the number of records, and a limit on the escaped size of the response.
 */
module LedgerApi {
  import opened Common
  import opened Chain
  import opened SqlTables
  import opened SqlRuns
  import SqlLedger

  newtype Byte = x: int | 0 <= x < 256

  const MAX_RECORD_BYTES := 262_144
  const MAX_PAGE_BYTES := 1_048_576
  const MAX_LIMIT := 200

  // ----- a record inside a JSON response

  const QUOTE: Byte := 0x22
  const BACKSLASH: Byte := 0x5C

  function HexDigit(n: Byte): Byte
    requires n < 16
  {
    if n < 10 then 0x30 + n else 0x57 + n
  }

  /** String escapes of JSON (RFC 8259, section 7); bytes of longer UTF-8 characters stay as they are. */
  function EscapeByte(b: Byte): seq<Byte> {
    if b == QUOTE || b == BACKSLASH then [BACKSLASH, b]
    else if b == 0x08 then [BACKSLASH, 0x62]
    else if b == 0x09 then [BACKSLASH, 0x74]
    else if b == 0x0A then [BACKSLASH, 0x6E]
    else if b == 0x0C then [BACKSLASH, 0x66]
    else if b == 0x0D then [BACKSLASH, 0x72]
    else if b < 0x20 then [BACKSLASH, 0x75, 0x30, 0x30, HexDigit(b / 16), HexDigit(b % 16)]
    else [b]
  }

  function EscapeAll(text: seq<Byte>): seq<Byte> {
    if text == [] then [] else EscapeAll(text[..|text| - 1]) + EscapeByte(text[|text| - 1])
  }

  /** `canonical(record)` for a record that is itself text. */
  function Escaped(text: seq<Byte>): seq<Byte> {
    [QUOTE] + EscapeAll(text) + [QUOTE]
  }

  /** What the codec admits: bounded canonical JSON, which has no raw control characters. */
  predicate Portable(text: seq<Byte>) {
    |text| <= MAX_RECORD_BYTES && forall i :: 0 <= i < |text| ==> text[i] >= 0x20
  }

  /** Where a quote or a backslash stands. */
  function Specials(text: seq<Byte>): set<nat> {
    set i: nat | i < |text| && (text[i] == 0x22 || text[i] == 0x5C)
  }

  /** Escaping admitted text adds one byte for each quote and backslash and none for anything else. */
  lemma {:induction false} EscapedLength(text: seq<Byte>)
    requires forall i :: 0 <= i < |text| ==> text[i] >= 0x20
    ensures |EscapeAll(text)| == |text| + |Specials(text)| && |Specials(text)| <= |text|
  {
    hide EscapeByte, Specials;
    if text == [] {
      assert Specials(text) == {} by { NoSpecials(); }
    } else {
      var n := |text| - 1;
      EscapedLength(text[..n]);
      ByteLength(text[n]);
      SpecialsNext(text);
    }
  }

  lemma NoSpecials()
    ensures Specials([]) == {}
  {
  }

  lemma ByteLength(b: Byte)
    requires b >= 0x20
    ensures |EscapeByte(b)| == if b == 0x22 || b == 0x5C then 2 else 1
  {
  }

  lemma SpecialsNext(text: seq<Byte>)
    requires text != []
    ensures var n := |text| - 1;
            |Specials(text)| == |Specials(text[..n])| + if text[n] == 0x22 || text[n] == 0x5C then 1 else 0
  {
    var n := |text| - 1;
    var before := Specials(text[..n]);
    assert n !in before;
    if text[n] == 0x22 || text[n] == 0x5C {
      assert Specials(text) == before + {n};
    } else {
      assert Specials(text) == before;
    }
  }

  /** Any admitted record fits an empty page. */
  lemma OneRecordFits(text: seq<Byte>)
    requires Portable(text)
    ensures |Escaped(text)| <= 2 * MAX_RECORD_BYTES + 2 <= MAX_PAGE_BYTES
  {
    EscapedLength(text);
  }

  // ----- reading the escaped text back

  predicate IsHexDigit(b: Byte) {
    0x30 <= b <= 0x39 || 0x61 <= b <= 0x66
  }

  function HexValue(b: Byte): Byte
    requires IsHexDigit(b)
  {
    if b <= 0x39 then b - 0x30 else b - 0x57
  }

  /** The character one escape stands for, and the escape's length. */
  function ReadEscape(s: seq<Byte>): Option<(Byte, nat)>
    requires s != [] && s[0] == BACKSLASH
  {
    if |s| < 2 then None
    else if s[1] == QUOTE || s[1] == BACKSLASH || s[1] == 0x2F then Some((s[1], 2))
    else if s[1] == 0x62 then Some((0x08, 2))
    else if s[1] == 0x66 then Some((0x0C, 2))
    else if s[1] == 0x6E then Some((0x0A, 2))
    else if s[1] == 0x72 then Some((0x0D, 2))
    else if s[1] == 0x74 then Some((0x09, 2))
    else if |s| >= 6 && s[1] == 0x75 && s[2] == 0x30 && s[3] == 0x30 && IsHexDigit(s[4]) && IsHexDigit(s[5]) && HexValue(s[4]) < 8
    then Some((16 * HexValue(s[4]) + HexValue(s[5]), 6))
    else None
  }

  /** What a JSON reader takes from the text between the quotes (RFC 8259, section 7). */
  function Unescaped(s: seq<Byte>): Option<seq<Byte>>
    decreases |s|
  {
    if s == [] then Some([])
    else if s[0] == BACKSLASH then
      match ReadEscape(s)
      case None => None
      case Some((b, n)) =>
        if |s| < n then None
        else
          match Unescaped(s[n..])
          case None => None
          case Some(rest) => Some([b] + rest)
    else if s[0] == QUOTE || s[0] < 0x20 then None
    else
      match Unescaped(s[1..])
      case None => None
      case Some(rest) => Some([s[0]] + rest)
  }

  lemma {:induction false} EscapeFirst(text: seq<Byte>)
    requires text != []
    ensures EscapeAll(text) == EscapeByte(text[0]) + EscapeAll(text[1..])
  {
    hide EscapeByte;
    var n := |text| - 1;
    if n > 0 {
      EscapeFirst(text[..n]);
      assert text[..n][1..] == text[1..][..n - 1];
      assert EscapeAll(text) == EscapeByte(text[0]) + EscapeAll(text[1..][..n - 1]) + EscapeByte(text[n]);
    } else {
      assert text[..0] == [] && text[1..] == [];
    }
  }

  lemma ByteUnescapes(b: Byte, rest: seq<Byte>)
    ensures var s := EscapeByte(b) + rest;
            Unescaped(s) == match Unescaped(rest) case None => None case Some(t) => Some([b] + t)
  {
    var s := EscapeByte(b) + rest;
    assert s[|EscapeByte(b)|..] == rest;
    if b < 0x20 && |EscapeByte(b)| == 6 {
      assert HexValue(HexDigit(b / 16)) == b / 16 && HexValue(HexDigit(b % 16)) == b % 16;
      assert s[4] == HexDigit(b / 16) && s[5] == HexDigit(b % 16);
      assert ReadEscape(s) == Some((b, 6));
    } else if s[0] == BACKSLASH {
      assert s[1] == EscapeByte(b)[1];
      assert ReadEscape(s) == Some((b, 2));
    }
  }

  /** A JSON reader gets back exactly the text that was escaped. */
  lemma {:induction false} EscapedReadsBack(text: seq<Byte>)
    ensures Unescaped(EscapeAll(text)) == Some(text)
  {
    if text != [] {
      EscapedReadsBack(text[1..]);
      EscapeFirst(text);
      ByteUnescapes(text[0], EscapeAll(text[1..]));
      assert text == [text[0]] + text[1..];
    }
  }

  // ----- cursors

  predicate IsDigit(c: char) {
    '0' <= c <= '9'
  }

  function DigitValue(c: char): nat
    requires IsDigit(c)
  {
    (c - '0') as nat
  }

  predicate AllDigits(s: string) {
    forall i :: 0 <= i < |s| ==> IsDigit(s[i])
  }

  function Value(s: string): nat
    requires AllDigits(s)
  {
    if s == [] then 0 else 10 * Value(s[..|s| - 1]) + DigitValue(s[|s| - 1])
  }

  /** The cursor pattern: zero, or up to sixteen digits without a leading zero. */
  predicate IsCursorText(s: string) {
    AllDigits(s) && (s == "0" || (1 <= |s| <= 16 && s[0] != '0'))
  }

  function ParseCursor(s: string): Option<nat> {
    if IsCursorText(s) && Value(s) <= MAX_SEQUENCE then Some(Value(s)) else None
  }

  function Power10(k: nat): nat {
    if k == 0 then 1 else 10 * Power10(k - 1)
  }

  lemma ValueNext(s: string, c: char)
    requires AllDigits(s) && IsDigit(c)
    ensures AllDigits(s + [c]) && Value(s + [c]) == 10 * Value(s) + DigitValue(c)
  {
    assert (s + [c])[..|s|] == s;
  }

  lemma {:induction false} DecimalReads(n: nat)
    ensures AllDigits(Decimal(n)) && Value(Decimal(n)) == n
    ensures n > 0 ==> Decimal(n)[0] != '0'
  {
    hide Value;
    var c := '0' + (n % 10) as char;
    if n >= 10 {
      DecimalReads(n / 10);
      ValueNext(Decimal(n / 10), c);
    } else {
      assert Value([]) == 0 by { NoDigits(); }
      ValueNext([], c);
      assert Decimal(n) == [] + [c];
    }
  }

  lemma NoDigits()
    ensures Value([]) == 0
  {
  }

  lemma {:induction false} DecimalLength(n: nat, k: nat)
    requires n < Power10(k) && k > 0
    ensures |Decimal(n)| <= k
    decreases k
  {
    if n >= 10 {
      assert k > 1 by { assert Power10(1) == 10 * Power10(0); }
      DecimalLength(n / 10, k - 1);
    }
  }

  lemma SixteenDigits()
    ensures MAX_SEQUENCE < Power10(16)
  {
    assert Power10(4) == 10_000;
    assert Power10(8) == 10_000 * Power10(4);
    assert Power10(12) == 10_000 * Power10(8);
    assert Power10(16) == 10_000 * Power10(12);
  }

  /** Every cursor a page hands out is read back as the sequence it stands for. */
  lemma CursorRoundTrip(n: nat)
    requires n <= MAX_SEQUENCE
    ensures ParseCursor(Decimal(n)) == Some(n)
  {
    DecimalReads(n);
    SixteenDigits();
    DecimalLength(n, 16);
  }

  lemma DecimalNext(m: nat, c: char)
    requires IsDigit(c)
    ensures Decimal(10 * m + DigitValue(c)) == (if m == 0 then [] else Decimal(m)) + [c]
  {
    var n := 10 * m + DigitValue(c);
    assert n / 10 == m && n % 10 == DigitValue(c);
    assert '0' + DigitValue(c) as char == c;
  }

  lemma {:induction false} DigitsAreDecimal(s: string)
    requires AllDigits(s) && s != [] && (s[0] != '0' || s == "0")
    ensures s == Decimal(Value(s))
    ensures s[0] != '0' ==> Value(s) > 0
  {
    hide Decimal, Value;
    var n := |s| - 1;
    assert s == s[..n] + [s[n]];
    ValueNext(s[..n], s[n]);
    DecimalNext(Value(s[..n]), s[n]);
    if n > 0 {
      assert s[..n][0] == s[0];
      DigitsAreDecimal(s[..n]);
    } else {
      assert s[..0] == [] && Value([]) == 0 by { NoDigits(); }
    }
  }

  /** No two texts are the same cursor. */
  lemma CursorIsUnique(s: string)
    requires ParseCursor(s).Some?
    ensures s == Decimal(ParseCursor(s).value)
  {
    DigitsAreDecimal(s);
  }

  // ----- pages

  /** The canonical record of an entry. */
  type CanonicalText = Entry -> seq<Byte>

  datatype Page = Page(head: nat, records: seq<Entry>, nextCursor: Option<string>)

  datatype ApiError = InvalidCursor | InvalidLimit | Unavailable

  /** What a checked snapshot returns: rows 1..n, each holding an admitted record of its sequence. */
  ghost predicate Checked(text: CanonicalText, rows: seq<EntryRow>) {
    |rows| <= MAX_SEQUENCE
    && forall i :: 0 <= i < |rows| ==>
         rows[i].sequence == i + 1 && rows[i].record.sequence == i + 1 && Portable(text(rows[i].record))
  }

  function PageSize(text: CanonicalText, records: seq<Entry>): nat {
    if records == [] then 0 else PageSize(text, records[..|records| - 1]) + |Escaped(text(records[|records| - 1]))|
  }

  /** Page `p` holds the longest run of records after `after` that both limits allow. */
  ghost predicate IsPage(text: CanonicalText, rows: seq<EntryRow>, after: nat, limit: int, p: Page) {
    var k := |p.records|;
    && p.head == |rows|
    && k <= limit && PageSize(text, p.records) <= 1_048_576
    && (if after >= |rows| then k == 0
        else k > 0 && after + k <= |rows| && p.records == RecordsOf(rows)[after..after + k]
             && (after + k == |rows| || k == limit || PageSize(text, RecordsOf(rows)[after..after + k + 1]) > 1_048_576))
    && p.nextCursor == (if k > 0 && after + k < |rows| then Some(Decimal(after + k)) else None)
  }

  /** The records between two positions of the ledger. */
  function Between(rows: seq<EntryRow>, first: nat, last: nat): (r: seq<Entry>)
    requires last <= |rows|
    ensures |r| == if first < last then last - first else 0
  {
    if first < last then RecordsOf(rows)[first..last] else []
  }

  lemma BetweenGrows(text: CanonicalText, rows: seq<EntryRow>, first: nat, i: nat)
    requires first <= i < |rows|
    ensures Between(rows, first, i + 1) == Between(rows, first, i) + [rows[i].record]
    ensures PageSize(text, Between(rows, first, i + 1)) == PageSize(text, Between(rows, first, i)) + |Escaped(text(rows[i].record))|
  {
    var longer := Between(rows, first, i + 1);
    assert longer == Between(rows, first, i) + [rows[i].record];
    assert longer[..|longer| - 1] == Between(rows, first, i);
  }

  /** The loop of `entries` stopped at row `i`: at the end, or because row `i` would exceed a limit. */
  ghost predicate Stopped(text: CanonicalText, rows: seq<EntryRow>, start: nat, limit: int, i: nat) {
    && i <= |rows|
    && PageSize(text, Between(rows, start, i)) <= MAX_PAGE_BYTES && |Between(rows, start, i)| <= limit
    && (i == |rows| || (start < i && (i - start == limit || PageSize(text, Between(rows, start, i + 1)) > MAX_PAGE_BYTES)))
  }

  method FillPage(text: CanonicalText, rows: seq<EntryRow>, start: nat, limit: int) returns (records: seq<Entry>)
    requires Checked(text, rows) && 1 <= limit
    ensures exists i :: 0 <= i <= |rows| && Stopped(text, rows, start, limit, i) && records == Between(rows, start, i)
  {
    hide Escaped, PageSize, RecordsOf, Portable;
    records := [];
    var size := 0;
    assert PageSize(text, []) == 0 by { EmptyPage(text); }
    var n := 0;
    while n < |rows|
      invariant 0 <= n <= |rows|
      invariant records == Between(rows, start, n) && size == PageSize(text, records)
      invariant size <= MAX_PAGE_BYTES && |records| <= limit
    {
      var row := rows[n];
      if row.sequence > start {
        var recordSize := |Escaped(text(row.record))|;
        OneRecordFits(text(row.record));
        BetweenGrows(text, rows, start, n);
        if |records| == limit || size + recordSize > MAX_PAGE_BYTES {
          SomethingRead(text, rows, start, n, size, recordSize, limit);
          assert Stopped(text, rows, start, limit, n);
          return records;
        }
        records := records + [row.record];
        size := size + recordSize;
      }
      n := n + 1;
    }
    assert Stopped(text, rows, start, limit, n);
    return records;
  }

  lemma EmptyPage(text: CanonicalText)
    ensures PageSize(text, []) == 0
  {
  }

  /** The first record of a page is never refused. */
  lemma SomethingRead(text: CanonicalText, rows: seq<EntryRow>, start: nat, n: nat, size: nat, recordSize: nat, limit: int)
    requires start <= n < |rows| && size == PageSize(text, Between(rows, start, n)) && recordSize <= MAX_PAGE_BYTES
    requires 1 <= limit && (|Between(rows, start, n)| == limit || size + recordSize > MAX_PAGE_BYTES)
    ensures start < n
  {
  }

  /** `entries` once the caller is authorized. */
  method Entries(text: CanonicalText, rows: seq<EntryRow>, after: string, limit: int) returns (r: Result<Page, ApiError>)
    requires Checked(text, rows)
    ensures r == Err(InvalidCursor) <==> ParseCursor(after).None?
    ensures r == Err(InvalidLimit) <==> ParseCursor(after).Some? && !(1 <= limit <= 200)
    ensures r.Ok? <==> ParseCursor(after).Some? && 1 <= limit <= 200
    ensures r.Ok? ==> IsPage(text, rows, ParseCursor(after).value, limit, r.value)
  {
    hide PageSize, Portable, ParseCursor, Decimal, IsPage, Stopped, Checked;
    var cursor := ParseCursor(after);
    if cursor.None? {
      return Err(InvalidCursor);
    }
    if !(1 <= limit <= MAX_LIMIT) {
      return Err(InvalidLimit);
    }
    var start := cursor.value;
    var records := FillPage(text, rows, start, limit);
    ghost var i :| 0 <= i <= |rows| && Stopped(text, rows, start, limit, i) && records == Between(rows, start, i);
    StoppedIsPage(text, rows, start, limit, i);
    r := Ok(PageFrom(rows, start, records));
  }

  /** The answer for the records read: a cursor only while more records follow. */
  function PageFrom(rows: seq<EntryRow>, start: nat, records: seq<Entry>): Page {
    var sequence := if records != [] then records[|records| - 1].sequence else start;
    Page(|rows|, records, if records != [] && sequence < |rows| then Some(Decimal(sequence)) else None)
  }

  lemma StoppedIsPage(text: CanonicalText, rows: seq<EntryRow>, start: nat, limit: int, i: nat)
    requires Checked(text, rows) && 1 <= limit && Stopped(text, rows, start, limit, i)
    ensures IsPage(text, rows, start, limit, PageFrom(rows, start, Between(rows, start, i)))
  {
    hide PageSize, Portable, Decimal, RecordsOf;
    var records := Between(rows, start, i);
    if start < i {
      LastSequence(text, rows, start, i);
      assert records == RecordsOf(rows)[start..start + |records|];
      assert i < |rows| ==> Between(rows, start, i + 1) == RecordsOf(rows)[start..start + |records| + 1];
    } else {
      assert records == [];
    }
  }

  lemma LastSequence(text: CanonicalText, rows: seq<EntryRow>, start: nat, i: nat)
    requires Checked(text, rows) && start < i <= |rows|
    ensures |Between(rows, start, i)| == i - start && Between(rows, start, i)[i - start - 1].sequence == i
  {
    hide Portable;
  }

  // ----- pages of a ledger that grows

  /** The size checks of `make_record` and `decode_record` on what an action would store. */
  ghost predicate Admitted(text: CanonicalText, a: Action) {
    && (a.Commit? ==> Portable(text(a.plan.record)))
    && (a.Import? ==> AllPortable(text, a.records))
  }

  predicate AllPortable(text: CanonicalText, log: seq<Entry>) {
    forall i :: 0 <= i < |log| ==> Portable(text(log[i]))
  }

  ghost predicate AllAdmitted(text: CanonicalText, actions: seq<Action>) {
    forall i :: 0 <= i < |actions| ==> Legal(actions[i]) && Admitted(text, actions[i])
  }

  lemma ActionKeepsPortable(text: CanonicalText, t: Tables, s: StreamId, a: Action)
    requires Valid(t) && Legal(a) && Admitted(text, a) && AllPortable(text, Log(t, s))
    ensures Valid(Apply(t, a)) && AllPortable(text, Log(Apply(t, a), s))
  {
    hide Valid, Log, RunBatch, Portable, StreamOk;
    ApplyOk(t, a);
    LaterIsValid(t, Apply(t, a));
    match a
    case CreateStream(r) =>
      CreatedLog(t, r, s);
    case Commit(p) =>
      BatchExact(t, p);
      if Extends(t, p) {
        AppendedLater(t, p);
        if s != p.stream && s !in t.streams {
          NoStreamNoLog(Appended(t, p), s);
        }
      }
    case Import(r, records) =>
      ImportReproduces(t, r, records);
      if s != r && s !in t.streams && Importable(records) && EmptyStream(t, r) {
        ImportedStreams(t, r, records, s);
        NoStreamNoLog(Imported(t, r, records), s);
      }
  }

  lemma LaterIsValid(t: Tables, u: Tables)
    requires Later(t, u)
    ensures Valid(u)
  {
  }

  lemma CreatedLog(t: Tables, r: StreamId, s: StreamId)
    requires Valid(t)
    ensures Log(Created(t, r), s) == Log(t, s)
  {
    hide StreamOk, NoOrphans;
    if s in t.streams {
      StreamFacts(t, s);
      CreatedOther(t, r, s);
    } else {
      NoStreamNoLog(t, s);
      assert |Log(Created(t, r), s)| == 0;
    }
  }

  lemma NoStreamNoLog(t: Tables, s: StreamId)
    requires s !in t.streams
    ensures Log(t, s) == []
  {
  }

  lemma ImportedStreams(t: Tables, r: StreamId, records: seq<Entry>, s: StreamId)
    requires r in t.streams && s !in t.streams
    ensures s !in Imported(t, r, records).streams
  {
    if Importable(records) && EmptyStream(t, r) {
      StepsKeepStreams(t, r, records, |records|);
    }
  }

  lemma {:induction false} StepsKeepStreams(t: Tables, r: StreamId, records: seq<Entry>, n: nat)
    requires n <= |records| && r in t.streams
    ensures ImportSteps(t, r, records, n).Some? ==> ImportSteps(t, r, records, n).value.streams.Keys == t.streams.Keys
  {
    if n > 0 {
      StepsKeepStreams(t, r, records, n - 1);
    }
  }

  lemma {:induction false} RunKeepsPortable(text: CanonicalText, t: Tables, s: StreamId, actions: seq<Action>)
    requires Valid(t) && AllAdmitted(text, actions) && AllPortable(text, Log(t, s))
    ensures Valid(Run(t, actions)) && AllPortable(text, Log(Run(t, actions), s))
  {
    hide Valid, Log, AllPortable, Admitted, Legal, Apply;
    if actions != [] {
      var n := |actions| - 1;
      RunKeepsPortable(text, t, s, actions[..n]);
      ActionKeepsPortable(text, Run(t, actions[..n]), s, actions[n]);
    }
  }

  /** A snapshot of a reachable database is what paging expects. */
  lemma SnapshotIsChecked(text: CanonicalText, t: Tables, s: StreamId, rows: seq<EntryRow>)
    requires Valid(t) && s in t.streams && SqlLedger.RowsNumbered(t, s, rows) && |rows| == |Log(t, s)|
    requires AllPortable(text, Log(t, s))
    ensures Checked(text, rows) && RecordsOf(rows) == Log(t, s)
  {
    hide Valid, Portable, StreamOk;
    StreamFacts(t, s);
    StreamHead(t, s);
    forall i | 0 <= i < |rows|
      ensures rows[i].record == Log(t, s)[i] && rows[i].sequence == i + 1 && rows[i].record.sequence == i + 1
    {
      assert SqlLedger.StoredRow(t, s, i + 1, rows[i]);
      RowIsRecord(t, s, i, rows[i]);
      assert Links(Log(t, s), i);
    }
  }

  lemma RowIsRecord(t: Tables, s: StreamId, i: nat, row: EntryRow)
    requires s in t.streams && StreamOk(t, s) && i < |Log(t, s)| && SqlLedger.StoredRow(t, s, i + 1, row)
    ensures row.record == Log(t, s)[i] && row.sequence == i + 1
  {
    SqlLedger.RecordOfRow(t, s, i);
  }

  /** `entries` on a fresh snapshot of the stream. */
  method ReadPage(host: SqlLedger.Host, s: StreamId, text: CanonicalText, after: string, limit: int) returns (r: Result<Page, ApiError>)
    requires Valid(host.Contents()) && AllPortable(text, Log(host.Contents(), s))
    ensures s in host.streams && 1 <= limit <= MAX_LIMIT && ParseCursor(after).Some? ==> r.Ok?
    ensures r.Ok? ==> ParseCursor(after).Some? && exists rows :: RecordsOf(rows) == Log(host.Contents(), s) && Checked(text, rows)
                                                                 && IsPage(text, rows, ParseCursor(after).value, limit, r.value)
  {
    hide Valid, Log, IsPage, ParseCursor, AllPortable, Checked;
    var snapshot := host.SnapshotOfValid(s);
    if snapshot.Err? {
      return Err(Unavailable);
    }
    SnapshotIsChecked(text, host.Contents(), s, snapshot.value.rows);
    r := Entries(text, snapshot.value.rows, after, limit);
  }

  /**
   * Following `next_cursor` from "0" with any limits in range reads every record of the ledger as
   * it is when the last page is read: each once, in order, whatever was appended in between.
   * `growth(n)` is what other clients of the database do before page n.
   */
  method FollowPages(host: SqlLedger.Host, s: StreamId, text: CanonicalText, limits: nat -> int, growth: SqlLedger.Schedule, quiet: nat)
    returns (records: seq<Entry>)
    requires Valid(host.Contents()) && s in host.streams && AllPortable(text, Log(host.Contents(), s))
    requires forall i :: 1 <= limits(i) <= MAX_LIMIT
    requires forall i: nat :: AllAdmitted(text, growth(i)) && (i >= quiet ==> growth(i) == [])
    modifies host
    ensures Later(old(host.Contents()), host.Contents())
    ensures records == Log(host.Contents(), s)
  {
    hide Valid, Log, PageSize, Portable, ParseCursor, Decimal, IsPage, AllPortable, AllAdmitted, Later, Run, Checked;
    records := [];
    var cursor := "0";
    FirstCursor();
    ghost var start := host.Contents();
    SqlLedger.LaterReflexive(start);
    ghost var read := 0;
    var page := 0;
    var more := true;
    while more
      invariant Later(start, host.Contents()) && Valid(host.Contents()) && s in host.streams
      invariant AllPortable(text, Log(host.Contents(), s))
      invariant ParseCursor(cursor) == Some(read) && read <= |Log(host.Contents(), s)|
      invariant more ==> records == Log(host.Contents(), s)[..read]
      invariant !more ==> records == Log(host.Contents(), s)
      decreases more, if page < quiet then quiet - page else 0, |Log(host.Contents(), s)| - read
    {
      ghost var before := host.Contents();
      Grown(text, start, before, s, growth(page));
      host.RunActions(growth(page));
      assert Log(host.Contents(), s)[..read] == Log(before, s)[..read];
      assert growth(page) == [] ==> host.Contents() == before by { NothingRun(before, growth(page)); }
      var answer := ReadPage(host, s, text, cursor, limits(page));
      ghost var rows :| RecordsOf(rows) == Log(host.Contents(), s) && Checked(text, rows) && IsPage(text, rows, read, limits(page), answer.value);
      var k := |answer.value.records|;
      PageContinues(text, rows, read, limits(page), answer.value);
      records := records + answer.value.records;
      page := page + 1;
      if answer.value.nextCursor.Some? {
        cursor := answer.value.nextCursor.value;
        read := read + k;
        BoundedLog(text, rows);
        CursorRoundTrip(read);
      } else {
        more := false;
      }
    }
  }

  lemma Grown(text: CanonicalText, start: Tables, t: Tables, s: StreamId, actions: seq<Action>)
    requires Later(start, t) && s in t.streams && AllAdmitted(text, actions) && AllPortable(text, Log(t, s))
    ensures var u := Run(t, actions);
            && Later(start, u) && Valid(u) && s in u.streams && Log(t, s) <= Log(u, s) && AllPortable(text, Log(u, s))
  {
    hide Valid, Log, AllPortable, Run, Legal, Admitted;
    LaterIsValid(start, t);
    RunOk(t, actions);
    LaterTransitive(start, t, Run(t, actions));
    RunKeepsPortable(text, t, s, actions);
  }

  lemma NothingRun(t: Tables, actions: seq<Action>)
    ensures actions == [] ==> Run(t, actions) == t
  {
  }

  lemma BoundedLog(text: CanonicalText, rows: seq<EntryRow>)
    requires Checked(text, rows)
    ensures |rows| <= MAX_SEQUENCE
  {
  }

  lemma FirstCursor()
    ensures ParseCursor("0") == Some(0)
  {
    CursorRoundTrip(0);
    assert Decimal(0) == "0";
  }

  /** A page continues what was read before it, and a page without a cursor is the last. */
  lemma PageContinues(text: CanonicalText, rows: seq<EntryRow>, read: nat, limit: int, p: Page)
    requires IsPage(text, rows, read, limit, p) && read <= |rows| && Checked(text, rows)
    ensures read + |p.records| <= |rows|
    ensures RecordsOf(rows)[..read] + p.records == RecordsOf(rows)[..read + |p.records|]
    ensures p.nextCursor.Some? ==> p.nextCursor.value == Decimal(read + |p.records|) && p.records != []
    ensures p.nextCursor.None? ==> RecordsOf(rows)[..read + |p.records|] == RecordsOf(rows)
  {
    hide PageSize, Portable, Decimal;
  }
}
