/** The report exporters: one header record, one record a row, totals at the end. */
module Reports {
  import opened Wrappers
  import opened Digits
  import opened Csv

  datatype CoaKind = Asset | Liability | Equity | Income | Expense

  datatype SpendingRow = SpendingRow(categoryId: Option<string>, categoryName: string, currency: string, total: int)

  datatype MonthlySpendingRow = MonthlySpendingRow(
    month: string, categoryId: Option<string>, categoryName: string, currency: string, total: int)

  datatype TrialBalanceRow = TrialBalanceRow(
    code: string, name: string, kind: CoaKind, currency: string, debit: int, credit: int)

  datatype IncomeStatementRow = IncomeStatementRow(code: string, name: string, amount: int)

  datatype IncomeStatement = IncomeStatement(
    currency: string, income: seq<IncomeStatementRow>, expenses: seq<IncomeStatementRow>,
    incomeTotal: int, expenseTotal: int, netProfit: int)

  datatype TaxSummaryRow = TaxSummaryRow(
    code: string, name: string, rateBps: int,
    outputBase: int, outputVat: int, inputBase: int, inputVat: int)

  datatype TaxBoxLabels = TaxBoxLabels(outputTax: string, inputTax: string, netTax: string)

  datatype TaxPeriodSummary = TaxPeriodSummary(
    currency: string, labels: TaxBoxLabels, rows: seq<TaxSummaryRow>,
    outputVat: int, inputVat: int, netVat: int)

  // ----- reading a report back -----

  /** Every record has `n` fields. */
  predicate Wide(records: seq<Record>, n: nat) {
    forall i :: 0 <= i < |records| ==> |records[i]| == n
  }

  /** What a spreadsheet adds for a cell: its number, or nothing when it is not one. */
  function Amount(cell: string): int {
    match ParseSigned(cell) case Some(n) => n case None => 0
  }

  /** The sum of one column. */
  function ColumnSum(records: seq<Record>, column: nat): int
    requires forall i :: 0 <= i < |records| ==> column < |records[i]|
  {
    if records == [] then 0 else Amount(records[0][column]) + ColumnSum(records[1..], column)
  }

  lemma {:induction false} ColumnSumAppend(a: seq<Record>, b: seq<Record>, column: nat, n: nat)
    requires Wide(a, n) && Wide(b, n) && column < n
    ensures Wide(a + b, n)
    ensures ColumnSum(a + b, column) == ColumnSum(a, column) + ColumnSum(b, column)
  {
    if a == [] {
      assert a + b == b;
    } else {
      assert (a + b)[1..] == a[1..] + b;
      ColumnSumAppend(a[1..], b, column, n);
    }
  }

  lemma AmountOfSigned(n: int)
    ensures Amount(Signed(n)) == n
  {
    SignedRoundTrip(n);
  }

  lemma AmountOfBlank()
    ensures Amount("") == 0
  {
  }

  /** A report of records with fields reads back as those records. */
  lemma ReadsBack(records: seq<Record>, n: nat)
    requires n > 0 && Wide(records, n)
    ensures Parse(Text(records)) == Some(records)
  {
    RoundTripExactly(records);
  }

  /** The cell is a number, and this one. */
  predicate Says(cell: string, n: int) {
    cell == Signed(n)
  }

  /** Digits without a leading zero, after a minus sign or nothing. */
  predicate PlainNumber(cell: string) {
    || cell == "0"
    || (cell != "" && cell[0] != '0' && AllDigits(cell))
    || (|cell| > 1 && cell[0] == '-' && cell[1] != '0' && AllDigits(cell[1..]))
  }

  /** Which is to say: it parses as that number, and is spelled plainly. */
  lemma SaysExactly(cell: string, n: int)
    ensures Says(cell, n) <==> ParseSigned(cell) == Some(n) && PlainNumber(cell)
  {
    SignedRoundTrip(n);
    SignedIsPlain(n);
    if ParseSigned(cell) == Some(n) && PlainNumber(cell) {
      PlainIsSigned(cell, n);
    }
  }

  lemma SignedIsPlain(n: int)
    ensures PlainNumber(Signed(n))
  {
    SignedIsCanonical(n);
    if n < 0 {
      assert Signed(n)[1..] == Decimal(-n);
      DecimalHasNoLeadingZero(-n);
    } else if n < 10 {
      assert Signed(n) == [Digit(n)];
    }
  }

  lemma PlainIsSigned(cell: string, n: int)
    requires ParseSigned(cell) == Some(n) && PlainNumber(cell)
    ensures cell == Signed(n)
  {
    if cell[0] == '-' {
      DecimalOfNumber(cell[1..]);
      assert cell == "-" + cell[1..];
    } else if cell == "0" {
      assert cell[..0] == "";
    } else {
      DecimalOfNumber(cell);
    }
  }

  /** A header over rows over totals. */
  lemma Stacked(header: Record, rows: seq<Record>, totals: seq<Record>)
    ensures var rs := [header] + (rows + totals);
      && |rs| == |rows| + |totals| + 1 && rs[0] == header && rs[|rows| + 1..] == totals
      && (forall i :: 0 <= i < |rows| ==> rs[i + 1] == rows[i])
      && (forall i :: 0 <= i < |totals| ==> rs[|rows| + 1 + i] == totals[i])
  {
  }

  // ----- spending -----

  const SpendingHeader: Record := ["category_id", "category_name", "currency", "total_minor"]

  function SpendingRecord(r: SpendingRow): Record {
    [if r.categoryId.Some? then r.categoryId.value else "", r.categoryName, r.currency, Signed(r.total)]
  }

  function TotalSpent(rows: seq<SpendingRow>): int {
    if rows == [] then 0 else rows[0].total + TotalSpent(rows[1..])
  }

  /** The table a spending export stands for. */
  predicate SpendingTable(rs: seq<Record>, rows: seq<SpendingRow>) {
    && |rs| == |rows| + 1 && Wide(rs, 4)
    && rs[0] == ["category_id", "category_name", "currency", "total_minor"]
    && forall i :: 0 <= i < |rows| ==>
      && rs[i + 1][0] == (match rows[i].categoryId case Some(id) => id case None => "")
      && rs[i + 1][1] == rows[i].categoryName
      && rs[i + 1][2] == rows[i].currency
      && Says(rs[i + 1][3], rows[i].total)
  }

  lemma SpendingCells(rows: seq<SpendingRow>)
    ensures SpendingTable([SpendingHeader] + Each(rows, SpendingRecord), rows)
  {
  }

  method SpendingCsv(rows: seq<SpendingRow>) returns (out: string)
    ensures out == Text([SpendingHeader] + Each(rows, SpendingRecord))
    ensures Parse(out).Some? && SpendingTable(Parse(out).value, rows)
    ensures ColumnSum(Parse(out).value[1..], 3) == TotalSpent(rows)
  {
    SpendingCells(rows);
    out := PushRow("", [], SpendingHeader);
    assert [] + [SpendingHeader] == [SpendingHeader];
    out := PushRows(out, [SpendingHeader], rows, SpendingRecord);
    ReadsBack([SpendingHeader] + Each(rows, SpendingRecord), 4);
    SpendingAdds(rows);
  }

  lemma {:induction false} SpendingAdds(rows: seq<SpendingRow>)
    ensures ColumnSum(Each(rows, SpendingRecord), 3) == TotalSpent(rows)
  {
    if rows != [] {
      assert Each(rows, SpendingRecord)[1..] == Each(rows[1..], SpendingRecord);
      AmountOfSigned(rows[0].total);
      SpendingAdds(rows[1..]);
    }
  }

  // ----- spending by month -----

  const MonthlyHeader: Record := ["month", "category_id", "category_name", "currency", "total_minor"]

  function MonthlyRecord(r: MonthlySpendingRow): Record {
    [r.month, if r.categoryId.Some? then r.categoryId.value else "", r.categoryName, r.currency, Signed(r.total)]
  }

  predicate MonthlyTable(rs: seq<Record>, rows: seq<MonthlySpendingRow>) {
    && |rs| == |rows| + 1 && Wide(rs, 5)
    && rs[0] == ["month", "category_id", "category_name", "currency", "total_minor"]
    && forall i :: 0 <= i < |rows| ==>
      && rs[i + 1][0] == rows[i].month
      && rs[i + 1][1] == (match rows[i].categoryId case Some(id) => id case None => "")
      && rs[i + 1][2] == rows[i].categoryName
      && rs[i + 1][3] == rows[i].currency
      && Says(rs[i + 1][4], rows[i].total)
  }

  lemma MonthlyCells(rows: seq<MonthlySpendingRow>)
    ensures MonthlyTable([MonthlyHeader] + Each(rows, MonthlyRecord), rows)
  {
  }

  method SpendingByMonthCsv(rows: seq<MonthlySpendingRow>) returns (out: string)
    ensures out == Text([MonthlyHeader] + Each(rows, MonthlyRecord))
    ensures Parse(out).Some? && MonthlyTable(Parse(out).value, rows)
  {
    MonthlyCells(rows);
    out := PushRow("", [], MonthlyHeader);
    assert [] + [MonthlyHeader] == [MonthlyHeader];
    out := PushRows(out, [MonthlyHeader], rows, MonthlyRecord);
    ReadsBack([MonthlyHeader] + Each(rows, MonthlyRecord), 5);
  }

  // ----- trial balance -----

  const TrialHeader: Record := ["code", "name", "kind", "currency", "debit_minor", "credit_minor"]

  function KindName(k: CoaKind): string {
    match k
    case Asset => "asset"
    case Liability => "liability"
    case Equity => "equity"
    case Income => "income"
    case Expense => "expense"
  }

  function TrialRecord(r: TrialBalanceRow): Record {
    [r.code, r.name, KindName(r.kind), r.currency, Signed(r.debit), Signed(r.credit)]
  }

  predicate TrialTable(rs: seq<Record>, rows: seq<TrialBalanceRow>) {
    && |rs| == |rows| + 1 && Wide(rs, 6)
    && rs[0] == ["code", "name", "kind", "currency", "debit_minor", "credit_minor"]
    && forall i :: 0 <= i < |rows| ==>
      && rs[i + 1][0] == rows[i].code
      && rs[i + 1][1] == rows[i].name
      && Spells(rs[i + 1][2], rows[i].kind)
      && rs[i + 1][3] == rows[i].currency
      && Says(rs[i + 1][4], rows[i].debit)
      && Says(rs[i + 1][5], rows[i].credit)
  }

  /** Each name stands for one kind, and no other text for any. */
  predicate Spells(cell: string, k: CoaKind) {
    || (cell == "asset" && k.Asset?)
    || (cell == "liability" && k.Liability?)
    || (cell == "equity" && k.Equity?)
    || (cell == "income" && k.Income?)
    || (cell == "expense" && k.Expense?)
  }

  lemma SpellsExactly(cell: string, k: CoaKind)
    ensures Spells(cell, k) <==> cell == KindName(k)
  {
  }

  lemma TrialCells(rows: seq<TrialBalanceRow>)
    ensures TrialTable([TrialHeader] + Each(rows, TrialRecord), rows)
  {
  }

  method TrialBalanceCsv(rows: seq<TrialBalanceRow>) returns (out: string)
    ensures out == Text([TrialHeader] + Each(rows, TrialRecord))
    ensures Parse(out).Some? && TrialTable(Parse(out).value, rows)
  {
    TrialCells(rows);
    out := PushRow("", [], TrialHeader);
    assert [] + [TrialHeader] == [TrialHeader];
    out := PushRows(out, [TrialHeader], rows, TrialRecord);
    ReadsBack([TrialHeader] + Each(rows, TrialRecord), 6);
  }

  /** A trial balance row can be told from its record: no two rows export alike. */
  lemma TrialRecordIsFaithful(a: TrialBalanceRow, b: TrialBalanceRow)
    requires TrialRecord(a) == TrialRecord(b)
    ensures a == b
  {
    assert TrialRecord(a)[0] == TrialRecord(b)[0] && TrialRecord(a)[1] == TrialRecord(b)[1];
    assert TrialRecord(a)[2] == TrialRecord(b)[2] && TrialRecord(a)[3] == TrialRecord(b)[3];
    assert TrialRecord(a)[4] == TrialRecord(b)[4] && TrialRecord(a)[5] == TrialRecord(b)[5];
    SignedRoundTrip(a.debit);
    SignedRoundTrip(b.debit);
    SignedRoundTrip(a.credit);
    SignedRoundTrip(b.credit);
    KindNames(a.kind, b.kind);
  }

  lemma KindNames(a: CoaKind, b: CoaKind)
    ensures KindName(a) == KindName(b) <==> a == b
  {
  }

  // ----- income statement -----

  const StatementHeader: Record := ["section", "code", "name", "currency", "amount_minor"]

  function StatementRecord(section: string, r: IncomeStatementRow, currency: string): Record {
    [section, r.code, r.name, currency, Signed(r.amount)]
  }

  function SectionRecord(section: string, currency: string): IncomeStatementRow -> Record {
    r => StatementRecord(section, r, currency)
  }

  /** The three total records, in the order they are written. */
  function StatementTotals(s: IncomeStatement): (rs: seq<Record>)
    ensures |rs| == 3 && Wide(rs, 5)
  {
    [["total", "", "Total income", s.currency, Signed(s.incomeTotal)],
     ["total", "", "Total expenses", s.currency, Signed(s.expenseTotal)],
     ["total", "", "Net profit", s.currency, Signed(s.netProfit)]]
  }

  function IncomeRecords(s: IncomeStatement): seq<Record> {
    StatementBody(s) + StatementTotals(s)
  }

  /** Three records pushed one after the other. */
  method PushThree(start: string, ghost before: seq<Record>, totals: seq<Record>) returns (out: string)
    requires start == Text(before) && |totals| == 3
    ensures out == Text(before + totals)
  {
    out := PushRow(start, before, totals[0]);
    out := PushRow(out, before + [totals[0]], totals[1]);
    out := PushRow(out, before + [totals[0]] + [totals[1]], totals[2]);
    assert before + [totals[0]] + [totals[1]] + [totals[2]] == before + totals;
  }

  lemma StatementReadsBack(s: IncomeStatement)
    ensures Wide(IncomeRecords(s), 5)
    ensures Parse(Text(StatementBody(s) + StatementTotals(s))) == Some(IncomeRecords(s))
  {
    ReadsBack(IncomeRecords(s), 5);
  }

  /** The header, then the income rows, then the expense rows. */
  function StatementBody(s: IncomeStatement): seq<Record> {
    [StatementHeader] + Each(s.income, SectionRecord("income", s.currency))
    + Each(s.expenses, SectionRecord("expense", s.currency))
  }

  method PushSections(s: IncomeStatement) returns (out: string)
    ensures out == Text(StatementBody(s))
  {
    out := PushRow("", [], StatementHeader);
    assert [] + [StatementHeader] == [StatementHeader];
    out := PushRows(out, [StatementHeader], s.income, SectionRecord("income", s.currency));
    ghost var done := [StatementHeader] + Each(s.income, SectionRecord("income", s.currency));
    out := PushRows(out, done, s.expenses, SectionRecord("expense", s.currency));
  }

  /** The income rows, the expense rows, and the three totals. */
  predicate StatementTable(rs: seq<Record>, s: IncomeStatement) {
    var m, n := |s.income|, |s.expenses|;
    && |rs| == m + n + 4 && Wide(rs, 5)
    && rs[0] == ["section", "code", "name", "currency", "amount_minor"]
    && (forall i :: 0 <= i < m ==> rs[i + 1][0] == "income" && StatementCells(rs[i + 1], s.currency, s.income[i]))
    && (forall i :: 0 <= i < n ==>
          rs[m + 1 + i][0] == "expense" && StatementCells(rs[m + 1 + i], s.currency, s.expenses[i]))
    && TotalRecords(rs[m + n + 1..], s)
  }

  predicate TotalRecords(rs: seq<Record>, s: IncomeStatement) {
    && |rs| == 3 && Wide(rs, 5)
    && TotalCells(rs[0], "Total income", s.currency, s.incomeTotal)
    && TotalCells(rs[1], "Total expenses", s.currency, s.expenseTotal)
    && TotalCells(rs[2], "Net profit", s.currency, s.netProfit)
  }

  predicate StatementCells(cells: Record, currency: string, r: IncomeStatementRow)
    requires |cells| == 5
  {
    cells[1] == r.code && cells[2] == r.name && cells[3] == currency && Says(cells[4], r.amount)
  }

  predicate TotalCells(cells: Record, caption: string, currency: string, amount: int)
    requires |cells| == 5
  {
    cells[0] == "total" && cells[1] == "" && cells[2] == caption && cells[3] == currency && Says(cells[4], amount)
  }

  lemma StatementRowCells(section: string, rows: seq<IncomeStatementRow>, currency: string)
    ensures forall i :: 0 <= i < |rows| ==>
      var cells := Each(rows, SectionRecord(section, currency))[i];
      |cells| == 5 && cells[0] == section && StatementCells(cells, currency, rows[i])
  {
  }

  lemma StatementTotalsCells(s: IncomeStatement)
    ensures TotalRecords(StatementTotals(s), s)
  {
  }

  lemma StatementRowsStand(s: IncomeStatement, totals: seq<Record>)
    ensures var rs, m := StatementBody(s) + totals, |s.income|;
      && |rs| == m + |s.expenses| + 1 + |totals| && rs[0] == StatementHeader
      && (forall i :: 0 <= i < m ==> rs[i + 1] == Each(s.income, SectionRecord("income", s.currency))[i])
      && (forall i :: 0 <= i < |s.expenses| ==>
            rs[m + 1 + i] == Each(s.expenses, SectionRecord("expense", s.currency))[i])
      && rs[m + |s.expenses| + 1..] == totals
  {
  }

  lemma StatementIsTable(s: IncomeStatement)
    ensures StatementTable(IncomeRecords(s), s)
  {
    StatementRowCells("income", s.income, s.currency);
    StatementRowCells("expense", s.expenses, s.currency);
    StatementTotalsCells(s);
    StatementRowsStand(s, StatementTotals(s));
  }

  method IncomeStatementCsv(s: IncomeStatement) returns (out: string)
    ensures out == Text(IncomeRecords(s))
    ensures Parse(out).Some? && StatementTable(Parse(out).value, s)
  {
    StatementIsTable(s);
    out := PushSections(s);
    out := PushThree(out, StatementBody(s), StatementTotals(s));
    StatementReadsBack(s);
  }

  // ----- tax summary -----

  const TaxHeader: Record :=
    ["code", "name", "rate_bps", "currency", "output_base_minor", "output_vat_minor",
     "input_base_minor", "input_vat_minor", "net_vat_minor"]

  const OutputColumn: nat := 5
  const InputColumn: nat := 7
  const NetColumn: nat := 8

  function TaxRecord(currency: string): TaxSummaryRow -> Record {
    (r: TaxSummaryRow) =>
      [r.code, r.name, Signed(r.rateBps), currency, Signed(r.outputBase), Signed(r.outputVat),
       Signed(r.inputBase), Signed(r.inputVat), ""]
  }

  /** The output, input and net total records. */
  function TaxTotals(s: TaxPeriodSummary): (rs: seq<Record>)
    ensures |rs| == 3 && Wide(rs, 9)
  {
    [["", "Total " + s.labels.outputTax, "", s.currency, "", Signed(s.outputVat), "", "", ""],
     ["", "Total " + s.labels.inputTax, "", s.currency, "", "", "", Signed(s.inputVat), ""],
     ["", s.labels.netTax, "", s.currency, "", "", "", "", Signed(s.netVat)]]
  }

  /** Everything under the header. */
  function TaxBody(s: TaxPeriodSummary): (rs: seq<Record>)
    ensures Wide(rs, 9) && |rs| == |s.rows| + 3
  {
    Each(s.rows, TaxRecord(s.currency)) + TaxTotals(s)
  }

  function InputOf(rows: seq<TaxSummaryRow>): int {
    if rows == [] then 0 else rows[0].inputVat + InputOf(rows[1..])
  }

  function OutputOf(rows: seq<TaxSummaryRow>): int {
    if rows == [] then 0 else rows[0].outputVat + OutputOf(rows[1..])
  }

  /** The table of a tax period: a row of figures for each code, then output, input and net total, each
      figure in its own column and the other columns blank. */
  predicate TaxTable(rs: seq<Record>, s: TaxPeriodSummary) {
    var n := |s.rows|;
    && |rs| == n + 4 && Wide(rs, 9)
    && IsTaxHeader(rs[0])
    && (forall i :: 0 <= i < n ==> rs[i + 1][3] == s.currency && TaxCells(rs[i + 1], s.rows[i]))
    && TaxTotalRecords(rs[n + 1..], s)
  }

  predicate IsTaxHeader(r: Record) {
    r == ["code", "name", "rate_bps", "currency", "output_base_minor", "output_vat_minor",
          "input_base_minor", "input_vat_minor", "net_vat_minor"]
  }

  predicate TaxTotalRecords(rs: seq<Record>, s: TaxPeriodSummary) {
    && |rs| == 3 && Wide(rs, 9)
    && rs[0][1] == "Total " + s.labels.outputTax && TaxTotalCells(rs[0], s.currency, 5, s.outputVat)
    && rs[1][1] == "Total " + s.labels.inputTax && TaxTotalCells(rs[1], s.currency, 7, s.inputVat)
    && rs[2][1] == s.labels.netTax && TaxTotalCells(rs[2], s.currency, 8, s.netVat)
  }

  predicate TaxCells(cells: Record, r: TaxSummaryRow)
    requires |cells| == 9
  {
    && cells[0] == r.code && cells[1] == r.name && Says(cells[2], r.rateBps)
    && Says(cells[4], r.outputBase) && Says(cells[5], r.outputVat)
    && Says(cells[6], r.inputBase) && Says(cells[7], r.inputVat)
    && cells[8] == ""
  }

  predicate TaxTotalCells(cells: Record, currency: string, column: nat, amount: int)
    requires |cells| == 9 && column < 9
  {
    && cells[3] == currency && Says(cells[column], amount)
    && forall c :: 0 <= c < 9 && c !in {1, 3, column} ==> cells[c] == ""
  }

  lemma TaxRecordCells(r: TaxSummaryRow, currency: string)
    ensures var cells := TaxRecord(currency)(r); |cells| == 9 && cells[3] == currency && TaxCells(cells, r)
  {
  }

  lemma TaxTotalsCells(s: TaxPeriodSummary)
    ensures TaxTotalRecords(TaxTotals(s), s)
  {
  }

  lemma TaxIsTable(s: TaxPeriodSummary)
    ensures TaxTable([TaxHeader] + TaxBody(s), s)
  {
    var rows := Each(s.rows, TaxRecord(s.currency));
    forall i | 0 <= i < |s.rows| ensures rows[i][3] == s.currency && TaxCells(rows[i], s.rows[i]) {
      TaxRecordCells(s.rows[i], s.currency);
    }
    TaxTotalsCells(s);
    Stacked(TaxHeader, rows, TaxTotals(s));
  }

  function TaxRows(s: TaxPeriodSummary): seq<Record> {
    [TaxHeader] + Each(s.rows, TaxRecord(s.currency))
  }

  lemma StackReadsBack(header: Record, rows: seq<Record>, totals: seq<Record>, n: nat, text: string)
    requires n > 0 && |header| == n && Wide(rows + totals, n) && text == Text([header] + rows + totals)
    ensures text == Text([header] + (rows + totals)) && Parse(text) == Some([header] + (rows + totals))
  {
    assert [header] + rows + totals == [header] + (rows + totals);
    ReadsBack([header] + (rows + totals), n);
  }

  lemma TaxTableReadsBack(
    s: TaxPeriodSummary, header: Record, rows: seq<Record>, totals: seq<Record>, text: string)
    requires |header| == 9 && Wide(rows + totals, 9) && TaxTable([header] + (rows + totals), s)
    requires text == Text([header] + rows + totals)
    ensures text == Text([header] + (rows + totals)) && Parse(text).Some? && TaxTable(Parse(text).value, s)
  {
    StackReadsBack(header, rows, totals, 9, text);
  }

  method PushTaxRows(s: TaxPeriodSummary) returns (out: string)
    ensures out == Text(TaxRows(s))
  {
    out := PushRow("", [], TaxHeader);
    assert [] + [TaxHeader] == [TaxHeader];
    out := PushRows(out, [TaxHeader], s.rows, TaxRecord(s.currency));
  }

  method TaxSummaryCsv(s: TaxPeriodSummary) returns (out: string)
    ensures out == Text([TaxHeader] + TaxBody(s))
    ensures Parse(out).Some? && TaxTable(Parse(out).value, s)
  {
    out := PushTaxRows(s);
    out := PushThree(out, TaxRows(s), TaxTotals(s));
    TaxIsTable(s);
    TaxTableReadsBack(s, TaxHeader, Each(s.rows, TaxRecord(s.currency)), TaxTotals(s), out);
  }

  /** The net figure stands in the last column of the last record and nowhere else, so summing the
      input column yields input tax alone, and summing the output column output tax alone. */
  lemma TaxColumns(rs: seq<Record>, s: TaxPeriodSummary)
    requires TaxTable(rs, s)
    ensures forall i :: 1 <= i < |rs| - 1 ==> rs[i][NetColumn] == ""
    ensures ColumnSum(rs[1..], NetColumn) == Amount(rs[|rs| - 1][NetColumn]) == s.netVat
    ensures ColumnSum(rs[1..], InputColumn) == InputOf(s.rows) + s.inputVat
    ensures ColumnSum(rs[1..], OutputColumn) == OutputOf(s.rows) + s.outputVat
  {
    var n := |s.rows|;
    TaxRowsAdd(rs[1..n + 1], s.rows);
    TotalsAdd(rs[n + 1..], s);
    ColumnSplits(rs, n, NetColumn);
    ColumnSplits(rs, n, InputColumn);
    ColumnSplits(rs, n, OutputColumn);
    NetStandsAlone(rs, s);
  }

  lemma ColumnSplits(rs: seq<Record>, n: nat, column: nat)
    requires n < |rs| && Wide(rs, 9) && column < 9
    ensures ColumnSum(rs[1..], column) == ColumnSum(rs[1..n + 1], column) + ColumnSum(rs[n + 1..], column)
  {
    assert rs[1..] == rs[1..n + 1] + rs[n + 1..];
    ColumnSumAppend(rs[1..n + 1], rs[n + 1..], column, 9);
  }

  lemma NetStandsAlone(rs: seq<Record>, s: TaxPeriodSummary)
    requires TaxTable(rs, s)
    ensures rs[|rs| - 1] == rs[|s.rows| + 1..][2]
    ensures forall i :: 1 <= i < |rs| - 1 ==> rs[i][NetColumn] == ""
  {
    var totals := rs[|s.rows| + 1..];
    assert TaxTotalRecords(totals, s) && totals[0][NetColumn] == totals[1][NetColumn] == "";
    forall i | 1 <= i < |rs| - 1 ensures rs[i][NetColumn] == "" {
      if i <= |s.rows| {
        assert TaxCells(rs[(i - 1) + 1], s.rows[i - 1]);
      } else {
        assert rs[i] == totals[i - |s.rows| - 1];
      }
    }
  }

  lemma {:induction false} TaxRowsAdd(rs: seq<Record>, rows: seq<TaxSummaryRow>)
    requires |rs| == |rows| && Wide(rs, 9) && forall i :: 0 <= i < |rows| ==> TaxCells(rs[i], rows[i])
    ensures ColumnSum(rs, NetColumn) == 0
    ensures ColumnSum(rs, InputColumn) == InputOf(rows)
    ensures ColumnSum(rs, OutputColumn) == OutputOf(rows)
  {
    if rows != [] {
      AmountOfSigned(rows[0].inputVat);
      AmountOfSigned(rows[0].outputVat);
      AmountOfBlank();
      TaxRowsAdd(rs[1..], rows[1..]);
    }
  }

  lemma TotalsAdd(rs: seq<Record>, s: TaxPeriodSummary)
    requires TaxTotalRecords(rs, s)
    ensures ColumnSum(rs, NetColumn) == Amount(rs[2][NetColumn]) == s.netVat
    ensures ColumnSum(rs, InputColumn) == s.inputVat
    ensures ColumnSum(rs, OutputColumn) == s.outputVat
  {
    AmountOfSigned(s.netVat);
    AmountOfSigned(s.inputVat);
    AmountOfSigned(s.outputVat);
    AmountOfBlank();
    SumOfThree(rs, NetColumn);
    SumOfThree(rs, InputColumn);
    SumOfThree(rs, OutputColumn);
  }

  lemma SumOfThree(records: seq<Record>, column: nat)
    requires |records| == 3 && Wide(records, 9) && column < 9
    ensures ColumnSum(records, column)
         == Amount(records[0][column]) + Amount(records[1][column]) + Amount(records[2][column])
  {
    var tail := records[1..];
    assert tail[0] == records[1] && tail[1..][0] == records[2] && tail[1..][1..] == [];
    assert ColumnSum(tail[1..], column) == Amount(records[2][column]) + 0;
    assert ColumnSum(tail, column) == Amount(records[1][column]) + ColumnSum(tail[1..], column);
  }
}
