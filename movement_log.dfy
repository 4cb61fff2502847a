/**
 * The movement log table (components/features/movements/movement-log-table.tsx): the
 * client-side filter over the movements it is given and the CSV export of the rows
 * that pass it.
 */
module MovementLog {
  import opened Wrappers
  import opened Text
  import opened Seqs
  import opened Movements

  /** The soldier columns the log's query joins in. */
  datatype SoldierRef = SoldierRef(fullName: string, serviceNumber: string)

  /**
   * A movement as the log receives it: the id of the stored movement, the times as the
   * text the backend sends, and the joined soldier, absent when the join finds none.
   */
  datatype LogRow = LogRow(
    id: nat,
    soldier: Option<SoldierRef>,
    startTime: string,
    endTime: string,
    fromLocation: string,
    toLocation: string,
    movementType: string,
    status: MovementStatus,
    taAmount: int)

  /**
   * The lower-cased search term occurs in the lower-cased soldier name, origin,
   * destination or service number. A missing soldier contributes no match.
   */
  predicate MatchesSearch(term: string, m: LogRow) {
    var t := ToLower(term);
    (m.soldier.Some? && Contains(ToLower(m.soldier.value.fullName), t))
    || Contains(ToLower(m.fromLocation), t)
    || Contains(ToLower(m.toLocation), t)
    || (m.soldier.Some? && Contains(ToLower(m.soldier.value.serviceNumber), t))
  }

  predicate MatchesStatus(statusFilter: string, m: LogRow) {
    statusFilter == "all" || m.status.Name() == statusFilter
  }

  predicate MatchesType(typeFilter: string, m: LogRow) {
    typeFilter == "all" || m.movementType == typeFilter
  }

  /**
   * A row passes all four conditions. The date condition depends on the clock and is
   * given as a predicate; the "all" setting is the predicate that admits every row.
   */
  predicate Matches(search: string, statusFilter: string, typeFilter: string, dateOk: LogRow -> bool, m: LogRow) {
    MatchesSearch(search, m) && MatchesStatus(statusFilter, m) && MatchesType(typeFilter, m) && dateOk(m)
  }

  function Matcher(search: string, statusFilter: string, typeFilter: string, dateOk: LogRow -> bool): LogRow -> bool {
    (m: LogRow) => Matches(search, statusFilter, typeFilter, dateOk, m)
  }

  /** `filteredData`: the rows passing every condition, in their original order. */
  function FilteredData(data: seq<LogRow>, search: string, statusFilter: string, typeFilter: string,
                        dateOk: LogRow -> bool): (r: seq<LogRow>)
    ensures forall m :: m in r <==> m in data && Matches(search, statusFilter, typeFilter, dateOk, m)
    ensures forall m :: multiset(r)[m] == if Matches(search, statusFilter, typeFilter, dateOk, m) then multiset(data)[m] else 0
    ensures IsSubsequence(r, data)
  {
    var p := Matcher(search, statusFilter, typeFilter, dateOk);
    FilterIsSubsequence(data, p);
    forall m
      ensures multiset(Filter(data, p))[m] == if p(m) then multiset(data)[m] else 0
    {
      FilterCount(data, p, m);
    }
    Filter(data, p)
  }

  function AnyDate(m: LogRow): bool {
    true
  }

  /** The empty search term matches every row. */
  lemma EmptySearchMatches(m: LogRow)
    ensures MatchesSearch("", m)
  {
    assert ToLower("") == "";
    ContainsEmpty(ToLower(m.fromLocation));
  }

  /** With the search empty and every filter on "all", the table shows all its rows. */
  lemma NoFiltersShowAll(data: seq<LogRow>)
    ensures FilteredData(data, "", "all", "all", AnyDate) == data
  {
    forall m | m in data
      ensures Matcher("", "all", "all", AnyDate)(m)
    {
      EmptySearchMatches(m);
    }
    FilterAll(data, Matcher("", "all", "all", AnyDate));
  }

  lemma {:induction false} LowerOfUpper(s: string)
    ensures ToLower(ToUpper(s)) == ToLower(s)
  {
  }

  /** The search is case-insensitive: the term in capitals matches the same rows. */
  lemma SearchIgnoresCase(term: string, m: LogRow)
    ensures MatchesSearch(ToUpper(term), m) <==> MatchesSearch(term, m)
  {
    LowerOfUpper(term);
  }

  /** A term found in the origin, up to case, matches. */
  lemma SearchFindsOrigin(term: string, m: LogRow, i: int)
    requires OccursAt(ToLower(m.fromLocation), ToLower(term), i)
    ensures MatchesSearch(term, m)
  {
    ContainsIff(ToLower(m.fromLocation), ToLower(term));
  }

  /** The Export button is disabled exactly when no row passes the filter. */
  predicate ExportDisabled(filtered: seq<LogRow>) {
    |filtered| == 0
  }

  lemma ExportDisabledIff(data: seq<LogRow>, search: string, statusFilter: string, typeFilter: string,
                          dateOk: LogRow -> bool)
    ensures ExportDisabled(FilteredData(data, search, statusFilter, typeFilter, dateOk))
        <==> forall m :: m in data ==> !Matches(search, statusFilter, typeFilter, dateOk, m)
  {
    var r := FilteredData(data, search, statusFilter, typeFilter, dateOk);
    if r != [] {
      assert r[0] in r;
    }
  }

  /** A status filter that names no status admits nothing. */
  lemma UnknownStatusShowsNothing(data: seq<LogRow>, search: string, statusFilter: string, typeFilter: string,
                                  dateOk: LogRow -> bool)
    requires statusFilter !in {"all", "draft", "pending", "approved", "rejected"}
    ensures FilteredData(data, search, statusFilter, typeFilter, dateOk) == []
  {
    forall m | m in data
      ensures !MatchesStatus(statusFilter, m)
    {
    }
    ExportDisabledIff(data, search, statusFilter, typeFilter, dateOk);
  }

  // ---------------------------------------------------------------------------
  // exportToCSV

  const Headers: seq<string> := ["ID", "Personnel", "Start Time", "End Time", "From", "To", "Type", "Status", "Amount"]

  /**
   * The nine cells of a row, one per header in the header's order; a missing soldier's
   * name renders as the empty string.
   */
  function RowFields(m: LogRow): (fields: seq<string>)
    ensures |fields| == |Headers|
    ensures fields[0] == NatToString(m.id)
    ensures fields[1] == if m.soldier.Some? then m.soldier.value.fullName else ""
    ensures fields[2] == m.startTime && fields[3] == m.endTime
    ensures fields[4] == m.fromLocation && fields[5] == m.toLocation
    ensures fields[6] == m.movementType
    ensures fields[7] == m.status.Name()
    ensures fields[8] == IntToString(m.taAmount)
  {
    [NatToString(m.id), if m.soldier.Some? then m.soldier.value.fullName else "", m.startTime, m.endTime,
     m.fromLocation, m.toLocation, m.movementType, m.status.Name(), IntToString(m.taAmount)]
  }

  /** The id cell reads back as the row's id. */
  lemma IdCellRoundTrip(m: LogRow)
    ensures DecimalValue(RowFields(m)[0]) == m.id
  {
    DecimalRoundTrip(m.id);
  }

  /** `cells.join(",")`: no quoting or escaping. */
  function CsvLine(cells: seq<string>): string {
    Join(cells, ',')
  }

  function CsvLines(rows: seq<LogRow>): (lines: seq<string>)
    ensures |lines| == |rows|
    ensures forall i :: 0 <= i < |rows| ==> lines[i] == CsvLine(RowFields(rows[i]))
  {
    seq(|rows|, i requires 0 <= i < |rows| => CsvLine(RowFields(rows[i])))
  }

  /** `exportToCSV`: the header line, then one line per row, joined by newlines. */
  function ExportToCsv(rows: seq<LogRow>): (csv: string)
    ensures StartsWith(csv, CsvLine(Headers))
    ensures rows == [] ==> csv == CsvLine(Headers)
  {
    Join([CsvLine(Headers)] + CsvLines(rows), '\n')
  }

  /** No cell of the row contains a newline. */
  predicate SingleLine(m: LogRow) {
    forall f :: f in RowFields(m) ==> '\n' !in f
  }

  /** No cell of the row contains a comma. */
  predicate CommaFree(m: LogRow) {
    forall f :: f in RowFields(m) ==> ',' !in f
  }

  lemma HeadersClean()
    ensures forall h :: h in Headers ==> ',' !in h && '\n' !in h
  {
  }

  /** The header line splits into the nine column names. */
  lemma HeaderColumns()
    ensures Split(CsvLine(Headers), ',') == Headers
  {
    HeadersClean();
    SplitJoin(Headers, ',');
  }

  /** Splitting a row's line on ',' gives back its nine cells, when no cell contains a comma. */
  lemma RowColumns(m: LogRow)
    requires CommaFree(m)
    ensures Split(CsvLine(RowFields(m)), ',') == RowFields(m)
  {
    SplitJoin(RowFields(m), ',');
  }

  /** Without quoting, a comma inside a cell yields more than nine columns. */
  lemma CommaInCellAddsColumns(m: LogRow, k: nat)
    requires k < |Headers| && ',' in RowFields(m)[k]
    ensures |Split(CsvLine(RowFields(m)), ',')| > |Headers|
  {
    SplitJoinWider(RowFields(m), ',', k);
  }

  /** The generated cells of the id, status and amount never break a line or a column. */
  lemma GeneratedCellsClean(m: LogRow)
    ensures ',' !in RowFields(m)[0] && '\n' !in RowFields(m)[0]
    ensures ',' !in RowFields(m)[7] && '\n' !in RowFields(m)[7]
    ensures ',' !in RowFields(m)[8] && '\n' !in RowFields(m)[8]
  {
    var a := IntToString(m.taAmount);
    assert forall k :: 0 <= k < |a| ==> a[k] != ',' && a[k] != '\n';
    var d := NatToString(m.id);
    assert forall k :: 0 <= k < |d| ==> d[k] != ',' && d[k] != '\n';
  }

  lemma RowLineSingle(m: LogRow)
    requires SingleLine(m)
    ensures '\n' !in CsvLine(RowFields(m))
  {
    JoinAvoids(RowFields(m), ',', '\n');
  }

  lemma HeaderLineSingle()
    ensures '\n' !in CsvLine(Headers)
  {
    HeadersClean();
    JoinAvoids(Headers, ',', '\n');
  }

  /**
   * Splitting the export on newlines gives the header line followed by one line per
   * row, in order, when no cell contains a newline.
   */
  lemma ExportLines(rows: seq<LogRow>)
    requires forall m :: m in rows ==> SingleLine(m)
    ensures Split(ExportToCsv(rows), '\n') == [CsvLine(Headers)] + CsvLines(rows)
    ensures |Split(ExportToCsv(rows), '\n')| == |rows| + 1
  {
    var body := CsvLines(rows);
    var lines := [CsvLine(Headers)] + body;
    HeaderLineSingle();
    forall i | 0 <= i < |rows|
      ensures '\n' !in body[i]
    {
      assert rows[i] in rows;
      RowLineSingle(rows[i]);
    }
    forall l | l in lines
      ensures '\n' !in l
    {
      var i :| 0 <= i < |lines| && lines[i] == l;
      if i > 0 {
        assert l == body[i - 1];
      }
    }
    SplitJoin(lines, '\n');
  }
}
