/**
 The aggregate lines of the cash-flow report: section footers, the
 operating-profit line, the net change in cash, and the opening and
 closing cash balances.
 */
module ReportTotals {
  import opened Results
  import opened Text
  import opened Periods
  import opened ReportRows

  // ---------------------------------------------------------------------
  // Section footers
  // ---------------------------------------------------------------------

  const OperatingFooter: string := "Net Cash from Operating Activities"
  const InvestingFooter: string := "Net Cash used Investing Activities"
  const FinancingFooter: string := "Net Cash from Financing Activities"

  /**
   A row adds into the footer `footer` when it has a parent section; under
   the operating footer it must also be flagged for the operating total.
   */
  predicate CountsTowards(row: Row, footer: string) {
    Truthy(row.parentSection) && (footer == OperatingFooter ==> row.includeInOpTotal)
  }

  /** The rows a footer adds up, in order. */
  function Counted(data: seq<Row>, footer: string): seq<Row>
    decreases |data|
  {
    if data == [] then []
    else
      var last := data[|data| - 1];
      Counted(data[..|data| - 1], footer) + (if CountsTowards(last, footer) then [last] else [])
  }

  /** The row carries an amount for every period and a "total". */
  predicate HasAmounts(row: Row, ps: seq<Key>) {
    (forall k :: k in ps ==> k in row.values) && TotalKey in row.values
  }

  /** Each row's period amounts summed, then added over the rows. */
  function GrandSum(rows: seq<Row>, ps: seq<Key>): int
    decreases |rows|
  {
    if rows == [] then 0 else GrandSum(rows[..|rows| - 1], ps) + SumOver(ps, rows[|rows| - 1].values)
  }

  /** Reading an absent amount of a counted row fails. */
  datatype TotalError = MissingAmount(section: Option<string>)

  /** What adding a footer leaves behind: the extended output, the summary and the footer row. */
  datatype FooterResult = FooterResult(out: seq<Row>, summary: map<string, int>, totalRow: Row)

  /**
   `add_total_row_account`: a footer row holding, per period and for "total",
   the sum over the rows that count towards `footer`; the footer row and a
   blank line are appended to `out`, and `summary[footer]` becomes the sum of
   every counted period amount.
   */
  method AddTotalRowAccount(
    out: seq<Row>, data: seq<Row>, footer: string, ps: seq<Key>, currency: Option<string>,
    summary: map<string, int>)
    returns (res: Result<FooterResult, TotalError>)
    ensures res.Failure? <==>
      exists j :: 0 <= j < |data| && CountsTowards(data[j], footer) && !HasAmounts(data[j], ps)
    ensures res.Success? ==>
      var t := res.value.totalRow;
      && res.value.out == out + [t, Spacer]
      && t.section == Some("'" + footer + "'") && t.parentSection == None && t.currency == currency
      && res.value.summary == summary[footer := GrandSum(Counted(data, footer), ps)]
      && t.values.Keys == (if Counted(data, footer) == [] then {} else (set k | k in ps) + {TotalKey})
    ensures res.Success? && ValidPeriods(ps) && Counted(data, footer) != [] ==>
      var t := res.value.totalRow;
      && (forall k :: k in ps ==> t.values[k] == Column(Counted(data, footer), k))
      && t.values[TotalKey] == Column(Counted(data, footer), TotalKey)
  {
    var sums := SumCountedRows(data, footer, ps);
    if sums.Failure? {
      return Failure(sums.error);
    }
    var (totals, acc) := sums.value;
    var totalRow := Row(Some("'" + footer + "'"), None, currency, false, false, totals);
    if ValidPeriods(ps) {
      forall k | k in ps
        ensures Count(ps, k) == 1
      {
        DistinctOnce(ps, k);
      }
      DistinctOnce(ps, TotalKey);
    }
    res := Success(FooterResult(out + [totalRow, Spacer], summary[footer := acc], totalRow));
  }

  /**
   The row loop of `add_total_row_account`: accumulate the counted rows'
   amounts per key and their period amounts into one grand sum, failing on
   the first counted row that lacks an amount.
   */
  method SumCountedRows(data: seq<Row>, footer: string, ps: seq<Key>)
    returns (res: Result<(map<Key, int>, int), TotalError>)
    ensures res.Failure? <==>
      exists j :: 0 <= j < |data| && CountsTowards(data[j], footer) && !HasAmounts(data[j], ps)
    ensures res.Success? ==> Accumulated(res.value.0, res.value.1, ps, Counted(data, footer))
  {
    var totals: map<Key, int> := map[];
    var acc := 0;
    var i := 0;
    while i < |data|
      invariant 0 <= i <= |data|
      invariant FooterFold(data[..i], footer, ps) == Success((totals, acc))
    {
      var row := data[i];
      FooterFoldStep(data, i, footer, ps);
      if CountsTowards(row, footer) {
        if !HasAmounts(row, ps) {
          return Failure(MissingAmount(row.section));
        }
        var next := AddRowTo((totals, acc), ps, row);
        totals, acc := next.0, next.1;
      }
      i := i + 1;
    }
    assert data[..i] == data;
    FooterFoldMeaning(data, footer, ps);
    res := Success((totals, acc));
  }

  /** One more row extends the fold by that row. */
  lemma FooterFoldStep(data: seq<Row>, i: nat, footer: string, ps: seq<Key>)
    requires i < |data|
    ensures FooterFold(data[..i + 1], footer, ps) == FooterAdd(FooterFold(data[..i], footer, ps), footer, ps, data[i])
  {
    assert data[..i + 1][..i] == data[..i] && data[..i + 1][i] == data[i];
  }

  /**
   One counted row added into a footer accumulator: its amounts per key, its
   own "total" under "total", and its period amounts into the grand sum.
   */
  function AddRowTo(state: (map<Key, int>, int), ps: seq<Key>, row: Row): (map<Key, int>, int)
    requires TotalKey in row.values
  {
    var t1 := AddAmounts(state.0, ps, row.values);
    (t1[TotalKey := Get0(t1, TotalKey) + row.values[TotalKey]], state.1 + SumOver(ps, row.values))
  }

  /** Reference definition of the row loop: the accumulator after `data`, or the first missing amount. */
  function FooterFold(data: seq<Row>, footer: string, ps: seq<Key>): Result<(map<Key, int>, int), TotalError>
    decreases |data|
  {
    if data == [] then Success((map[], 0))
    else
      FooterAdd(FooterFold(data[..|data| - 1], footer, ps), footer, ps, data[|data| - 1])
  }

  /** One pass of the row loop: a counted row fails without its amounts and is added in otherwise. */
  function FooterAdd(prev: Result<(map<Key, int>, int), TotalError>, footer: string, ps: seq<Key>, row: Row)
    : Result<(map<Key, int>, int), TotalError>
  {
    if prev.Failure? || !CountsTowards(row, footer) then prev
    else if !HasAmounts(row, ps) then Failure(MissingAmount(row.section))
    else Success(AddRowTo(prev.value, ps, row))
  }

  /**
   The fold fails exactly when some counted row lacks an amount, and
   otherwise holds the accumulated sums of the counted rows.
   */
  lemma FooterFoldMeaning(data: seq<Row>, footer: string, ps: seq<Key>)
    ensures FooterFold(data, footer, ps).Failure? <==>
      exists j :: 0 <= j < |data| && CountsTowards(data[j], footer) && !HasAmounts(data[j], ps)
    ensures FooterFold(data, footer, ps).Success? ==>
      var r := FooterFold(data, footer, ps).value;
      Accumulated(r.0, r.1, ps, Counted(data, footer))
  {
    FooterFoldFails(data, footer, ps);
    FooterFoldSums(data, footer, ps);
  }

  /** The fold fails exactly when some counted row lacks an amount. */
  lemma {:induction false} FooterFoldFails(data: seq<Row>, footer: string, ps: seq<Key>)
    ensures FooterFold(data, footer, ps).Failure? <==>
      exists j :: 0 <= j < |data| && CountsTowards(data[j], footer) && !HasAmounts(data[j], ps)
    decreases |data|
  {
    if data != [] {
      var init := data[..|data| - 1];
      FooterFoldFails(init, footer, ps);
      assert forall j :: 0 <= j < |init| ==> init[j] == data[j];
    }
  }

  /** A fold that succeeds holds the accumulated sums of the counted rows. */
  lemma {:induction false} FooterFoldSums(data: seq<Row>, footer: string, ps: seq<Key>)
    ensures FooterFold(data, footer, ps).Success? ==>
      var r := FooterFold(data, footer, ps).value;
      Accumulated(r.0, r.1, ps, Counted(data, footer))
    decreases |data|
  {
    if data != [] {
      var init, row := data[..|data| - 1], data[|data| - 1];
      FooterFoldSums(init, footer, ps);
      var prev := FooterFold(init, footer, ps);
      if prev.Success? && CountsTowards(row, footer) && HasAmounts(row, ps) {
        assert Counted(data, footer) == Counted(init, footer) + [row];
        AccumulateStep(prev.value.0, prev.value.1, ps, Counted(init, footer), row);
      } else if prev.Success? && !CountsTowards(row, footer) {
        assert Counted(data, footer) == Counted(init, footer) + [] == Counted(init, footer);
        assert FooterFold(data, footer, ps) == prev;
      }
    }
  }

  /**
   What a footer accumulator holds after adding up `rows`: keys only once a
   row was added, each listed key once per listing, under "total" also the
   rows' own totals, and the grand sum of their period amounts.
   */
  ghost predicate Accumulated(totals: map<Key, int>, acc: int, ps: seq<Key>, rows: seq<Row>) {
    && totals.Keys == (if rows == [] then {} else (set k | k in ps) + {TotalKey})
    && FooterSums(totals, ps, rows)
    && acc == GrandSum(rows, ps)
  }

  /** The per-key half of `Accumulated`. */
  ghost predicate FooterSums(totals: map<Key, int>, ps: seq<Key>, rows: seq<Row>) {
    forall k :: Get0(totals, k)
      == Count(ps, k) * Column(rows, k) + (if k == TotalKey then Column(rows, TotalKey) else 0)
  }

  /** Adding one more counted row keeps `Accumulated`. */
  lemma AccumulateStep(totals: map<Key, int>, acc: int, ps: seq<Key>, before: seq<Row>, row: Row)
    requires Accumulated(totals, acc, ps, before)
    requires TotalKey in row.values
    ensures var t1 := AddAmounts(totals, ps, row.values);
      Accumulated(t1[TotalKey := Get0(t1, TotalKey) + row.values[TotalKey]],
        acc + SumOver(ps, row.values), ps, before + [row])
  {
    var after := before + [row];
    assert after[..|after| - 1] == before;
    FooterStep(totals, ps, before, row);
  }

  /** Adding one more counted row keeps `FooterSums`. */
  lemma FooterStep(totals: map<Key, int>, ps: seq<Key>, before: seq<Row>, row: Row)
    requires FooterSums(totals, ps, before)
    requires TotalKey in row.values
    ensures var t1 := AddAmounts(totals, ps, row.values);
      FooterSums(t1[TotalKey := Get0(t1, TotalKey) + row.values[TotalKey]], ps, before + [row])
  {
    var t1 := AddAmounts(totals, ps, row.values);
    var t2 := t1[TotalKey := Get0(t1, TotalKey) + row.values[TotalKey]];
    var after := before + [row];
    assert after[..|after| - 1] == before;
    forall k
      ensures Get0(t2, k) == Count(ps, k) * Column(after, k) + (if k == TotalKey then Column(after, TotalKey) else 0)
    {
      var n, col, a := Count(ps, k), Column(before, k), Amount(row, k);
      assert Column(after, k) == col + a;
      assert Get0(t1, k) == Get0(totals, k) + n * a;
      Distribute(n, col, a);
      if k == TotalKey {
        assert Get0(t2, k) == Get0(t1, k) + a;
      } else {
        assert Get0(t2, k) == Get0(t1, k);
      }
    }
  }

  // ---------------------------------------------------------------------
  // Operating profit before working-capital changes
  // ---------------------------------------------------------------------

  const OperatingProfitLabel: string := "Operating Profit before Working Capital Changes"

  /** The lines that make up operating profit, recognised by their unquoted section name. */
  predicate IsOperatingProfitPart(row: Row) {
    var name := PlainSection(row);
    name == "Net Profit After Tax" || name == "Depreciation & Amortisation" || name == "Interest Expense"
  }

  /**
   The operating-profit line of the operations section: per period, the sum
   of net profit, depreciation and interest expense, each also added into the
   line's own "total", which starts at 0. It counts towards the operating
   footer.
   */
  function OperatingProfitRow(sectionData: seq<Row>, ps: seq<Key>, header: string, currency: Option<string>): (r: Row)
    ensures r.section == Some(OperatingProfitLabel) && r.parentSection == Some(header)
    ensures r.includeInOpTotal && CountsTowards(r, OperatingFooter) == (header != "")
    ensures r.values.Keys == (set k | k in ps) + {TotalKey}
    ensures forall k :: k in ps && k != TotalKey ==> r.values[k] == SelectedSum(sectionData, IsOperatingProfitPart, k)
    ensures TotalKey !in ps ==>
      && r.values[TotalKey] == PeriodsTotal(sectionData, IsOperatingProfitPart, ps)
      && r.values[TotalKey] == SumOver(ps, r.values)
  {
    var values := SetAndTally(map[TotalKey := 0], ps, k => SelectedSum(sectionData, IsOperatingProfitPart, k));
    assert TotalKey !in ps ==> SumOver(ps, values) == PeriodsTotal(sectionData, IsOperatingProfitPart, ps) by {
      if TotalKey !in ps {
        SumOverColumnSums(sectionData, IsOperatingProfitPart, ps, values);
      }
    }
    Row(Some(OperatingProfitLabel), Some(header), currency, true, false, values)
  }

  /**
   A period listed under the "total" key shares the line's "total" entry:
   the period's amount overwrites it and is then added to it again.
   */
  lemma OperatingProfitTotalPeriod(sectionData: seq<Row>, header: string, currency: Option<string>)
    ensures OperatingProfitRow(sectionData, [TotalKey], header, currency).values[TotalKey]
         == 2 * SelectedSum(sectionData, IsOperatingProfitPart, TotalKey)
  {
    assert [TotalKey][..0] == [];
  }

  /** `rows[i]` is the first row whose unquoted section is `name`. */
  ghost predicate IsFirstSection(rows: seq<Row>, name: string, i: int) {
    && 0 <= i < |rows|
    && PlainSection(rows[i]) == name
    && forall j :: 0 <= j < i ==> PlainSection(rows[j]) != name
  }

  /** The position of the first row whose unquoted section is `name`. */
  function FirstSectionIndex(rows: seq<Row>, name: string): (r: Option<nat>)
    ensures r.None? <==> forall j :: 0 <= j < |rows| ==> PlainSection(rows[j]) != name
    ensures r.Some? ==> IsFirstSection(rows, name, r.value)
    decreases |rows|
  {
    if rows == [] then None
    else if PlainSection(rows[0]) == name then Some(0)
    else
      match FirstSectionIndex(rows[1..], name)
      case None =>
        assert forall j :: 1 <= j < |rows| ==> rows[j] == rows[1..][j - 1];
        None
      case Some(i) =>
        assert forall j :: 1 <= j <= i + 1 ==> rows[j] == rows[1..][j - 1];
        Some(i + 1)
  }

  /**
   Placing the operating-profit line: directly after the first "Interest
   Expense" row, or at the end when there is none.
   */
  function InsertAfterSection(rows: seq<Row>, name: string, x: Row): (r: seq<Row>)
    ensures |r| == |rows| + 1
    ensures (forall j :: 0 <= j < |rows| ==> PlainSection(rows[j]) != name) ==> r == rows + [x]
    ensures forall i :: IsFirstSection(rows, name, i) ==> r == rows[..i + 1] + [x] + rows[i + 1..]
  {
    match FirstSectionIndex(rows, name)
    case None => rows + [x]
    case Some(i) =>
      assert forall i' :: IsFirstSection(rows, name, i') ==> i' == i;
      rows[..i + 1] + [x] + rows[i + 1..]
  }

  // ---------------------------------------------------------------------
  // Net change in cash and the cash balances
  // ---------------------------------------------------------------------

  const NetIncreaseLabel: string := "Net increase in cash and cash equivalents"

  /** One of the three section footers, recognised by its unquoted section name. */
  predicate IsSectionFooter(row: Row) {
    var name := PlainSection(row);
    name == OperatingFooter || name == InvestingFooter || name == FinancingFooter
  }

  /**
   The net-increase line: per period, the sum of the section footers'
   amounts; "total" sums the periods.
   */
  function NetCashRow(data: seq<Row>, ps: seq<Key>, currency: Option<string>): (r: Row)
    ensures r.values.Keys == (set k | k in ps) + {TotalKey}
    ensures forall k :: k in ps && k != TotalKey ==> r.values[k] == SelectedSum(data, IsSectionFooter, k)
    ensures r.values[TotalKey] == PeriodsTotal(data, IsSectionFooter, ps)
  {
    var values := ColumnSums(data, IsSectionFooter, ps);
    SumOverColumnSums(data, IsSectionFooter, ps, values);
    Row(Some("'" + NetIncreaseLabel + "'"), None, currency, false, false, values[TotalKey := SumOver(ps, values)])
  }

  /**
   The report summary's net-increase entry, incremented by each period's net
   change; the other entries are left alone. The entry is written inside the
   period loop, so with no periods the summary is returned as it was.
   */
  function NetCashSummary(summary: map<string, int>, data: seq<Row>, ps: seq<Key>): (s: map<string, int>)
    ensures s.Keys == summary.Keys + (if ps == [] then {} else {NetIncreaseLabel})
    ensures forall l :: l in summary && l != NetIncreaseLabel ==> s[l] == summary[l]
    ensures ps == [] ==> s == summary
    ensures ps != [] ==>
      s[NetIncreaseLabel] == Get0(summary, NetIncreaseLabel) + SumOver(ps, ColumnSums(data, IsSectionFooter, ps))
  {
    if ps == [] then summary
    else
      SumOverColumnSums(data, IsSectionFooter, ps, ColumnSums(data, IsSectionFooter, ps));
      summary[NetIncreaseLabel := Get0(summary, NetIncreaseLabel) + PeriodsTotal(data, IsSectionFooter, ps)]
  }

  /**
   The summary entry, read with `.get(label, 0)`, grows by exactly the
   net-increase line's "total", with or without periods.
   */
  lemma NetCashSummaryMatchesRow(summary: map<string, int>, data: seq<Row>, ps: seq<Key>, currency: Option<string>)
    ensures Get0(NetCashSummary(summary, data, ps), NetIncreaseLabel)
         == Get0(summary, NetIncreaseLabel) + NetCashRow(data, ps, currency).values[TotalKey]
  {
  }

  /** With no periods the summary gains no net-increase entry. */
  lemma NetCashSummaryNoPeriods(summary: map<string, int>, data: seq<Row>)
    ensures NetIncreaseLabel in NetCashSummary(summary, data, []) <==> NetIncreaseLabel in summary
    ensures NetCashSummary(map[], data, []) == map[]
  {
  }

  /** When the report holds exactly three footer rows, each period's net change is their sum. */
  lemma NetCashOfThreeFooters(data: seq<Row>, op: Row, inv: Row, fin: Row, k: Key)
    requires Filter(data, IsSectionFooter) == [op, inv, fin]
    ensures SelectedSum(data, IsSectionFooter, k) == Amount(op, k) + Amount(inv, k) + Amount(fin, k)
  {
    assert [op][..0] == [];
    assert Column([op], k) == Amount(op, k);
    assert Column([inv], k) == Amount(inv, k) && Column([fin], k) == Amount(fin, k) by {
      assert [inv][..0] == [] && [fin][..0] == [];
    }
    ColumnAppend([op], [inv], k);
    ColumnAppend([op] + [inv], [fin], k);
    assert [op] + [inv] + [fin] == [op, inv, fin];
  }

  /** The footer row of a section is picked up by the net-increase line. */
  lemma FooterRowIsSectionFooter(footer: string, t: Row)
    requires footer == OperatingFooter || footer == InvestingFooter || footer == FinancingFooter
    requires t.section == Some("'" + footer + "'")
    ensures IsSectionFooter(t)
  {
    assert '\'' !in footer;
    QuotedName(footer);
  }

  /**
   The closing cash line: per period, the opening balance plus that period's
   net change; "total" adds the per-period closing values.
   */
  function ClosingCashRow(opening: Row, netCash: Row, ps: seq<Key>, currency: Option<string>): (r: Row)
    ensures r.values.Keys == (set k | k in ps) + {TotalKey}
    ensures forall k :: k in ps && k != TotalKey ==> r.values[k] == Amount(opening, k) + Amount(netCash, k)
    ensures TotalKey !in ps ==> r.values[TotalKey] == SumOver(ps, r.values)
  {
    var values := Tabulate(ps, k => Amount(opening, k) + Amount(netCash, k));
    var r := Row(Some("'Closing Cash and Bank Balance'"), None, currency, false, false,
                 values[TotalKey := SumOver(ps, values)]);
    assert TotalKey !in ps ==> SumOver(ps, r.values) == SumOver(ps, values) by {
      if TotalKey !in ps {
        SumOverAgree(ps, r.values, values);
      }
    }
    r
  }

  /**
   The report's closing cash for each period is its opening cash plus the
   three section footers' amounts for that period.
   */
  lemma ClosingIsOpeningPlusFooters(data: seq<Row>, opening: Row, ps: seq<Key>, currency: Option<string>, k: Key)
    requires k in ps && k != TotalKey
    ensures ClosingCashRow(opening, NetCashRow(data, ps, currency), ps, currency).values[k]
         == Amount(opening, k) + SelectedSum(data, IsSectionFooter, k)
  {
  }

  // ---------------------------------------------------------------------
  // Running opening and closing balances
  // ---------------------------------------------------------------------

  /** The first `i` periods open and close at the running balance. */
  ghost predicate RunningBalances(o: map<Key, int>, c: map<Key, int>, ps: seq<Key>, i: int, start: int, changes: map<Key, int>)
    requires 0 <= i <= |ps|
  {
    forall j :: 0 <= j < i ==>
      && ps[j] in o && o[ps[j]] == start + SumOver(ps[..j], changes)
      && ps[j] in c && c[ps[j]] == start + SumOver(ps[..j + 1], changes)
  }

  /** Recording period `i` keeps the earlier periods' balances when keys are distinct. */
  lemma BalanceStep(o: map<Key, int>, c: map<Key, int>, ps: seq<Key>, i: int, start: int, changes: map<Key, int>, running: int)
    requires 0 <= i < |ps| && ValidPeriods(ps)
    requires RunningBalances(o, c, ps, i, start, changes)
    requires running == start + SumOver(ps[..i], changes)
    ensures RunningBalances(
      o[ps[i] := running], c[ps[i] := running + Get0(changes, ps[i])], ps, i + 1, start, changes)
  {
    var o' := o[ps[i] := running];
    var c' := c[ps[i] := running + Get0(changes, ps[i])];
    assert ps[..i + 1][..i] == ps[..i];
    assert SumOver(ps[..i + 1], changes) == SumOver(ps[..i], changes) + Get0(changes, ps[i]);
    forall j | 0 <= j < i + 1
      ensures && ps[j] in o' && o'[ps[j]] == start + SumOver(ps[..j], changes)
              && ps[j] in c' && c'[ps[j]] == start + SumOver(ps[..j + 1], changes)
    {
      if j < i {
        assert ps[j] != ps[i];
      }
    }
  }

  /**
   Once every period is recorded, the balance lines with their "total"
   entries open at `start`, chain each opening to the previous closing and
   close at `start` plus all changes.
   */
  lemma BalanceLines(o: map<Key, int>, c: map<Key, int>, ps: seq<Key>, start: int, changes: map<Key, int>)
    requires ps != [] && ValidPeriods(ps)
    requires RunningBalances(o, c, ps, |ps|, start, changes)
    ensures var o', c' := o[TotalKey := o[ps[0]]], c[TotalKey := c[ps[|ps| - 1]]];
      && (forall k :: k in ps ==> k in o' && k in c')
      && o'[ps[0]] == start
      && (forall i :: 0 < i < |ps| ==> o'[ps[i]] == c'[ps[i - 1]])
      && (forall i :: 0 <= i < |ps| ==> c'[ps[i]] == start + SumOver(ps[..i + 1], changes))
      && TotalKey in o' && o'[TotalKey] == start
      && TotalKey in c' && c'[TotalKey] == start + SumOver(ps, changes)
  {
    var o', c' := o[TotalKey := o[ps[0]]], c[TotalKey := c[ps[|ps| - 1]]];
    assert ps[..0] == [];
    assert ps[..|ps|] == ps;
    forall i | 0 <= i < |ps|
      ensures ps[i] in o' && o'[ps[i]] == o[ps[i]] && ps[i] in c' && c'[ps[i]] == c[ps[i]]
    {
      assert ps[i] != TotalKey;
    }
    forall k | k in ps
      ensures k in o' && k in c'
    {
      var i :| 0 <= i < |ps| && ps[i] == k;
    }
    forall i | 0 < i < |ps|
      ensures o'[ps[i]] == c'[ps[i - 1]]
    {
      assert o[ps[i]] == start + SumOver(ps[..i], changes);
      assert c[ps[i - 1]] == start + SumOver(ps[..i - 1 + 1], changes);
    }
  }

  datatype BalanceRows = BalanceRows(out: seq<Row>, opening: Row, closing: Row)

  /** Reading the first or last period of an empty period list fails. */
  datatype BalanceError = NoPeriods

  /**
   `show_opening_and_closing_balance`: a running balance starting at
   `openingAmount`. Each period closes at its opening plus its net change and
   the next period opens where it closed; the opening "total" is the first
   opening and the closing "total" the last closing. The opening line, the
   net-change line, the closing line and a blank line are appended to `out`.
   */
  method OpeningAndClosingBalance(
    out: seq<Row>, ps: seq<Key>, currency: Option<string>, netChange: Row, openingAmount: int)
    returns (res: Result<BalanceRows, BalanceError>)
    ensures res.Failure? <==> ps == []
    ensures res.Success? ==>
      res.value.out == out + [res.value.opening, netChange, res.value.closing, Spacer]
    ensures res.Success? && ValidPeriods(ps) ==>
      var o := res.value.opening.values;
      var c := res.value.closing.values;
      && (forall k :: k in ps ==> k in o && k in c)
      && o[ps[0]] == openingAmount
      && (forall i :: 0 < i < |ps| ==> o[ps[i]] == c[ps[i - 1]])
      && (forall i :: 0 <= i < |ps| ==> c[ps[i]] == openingAmount + SumOver(ps[..i + 1], netChange.values))
      && TotalKey in o && o[TotalKey] == openingAmount
      && TotalKey in c && c[TotalKey] == openingAmount + SumOver(ps, netChange.values)
  {
    if ps == [] {
      return Failure(NoPeriods);
    }
    var o, c := RunningBalance(ps, netChange.values, openingAmount);
    if ValidPeriods(ps) {
      BalanceLines(o, c, ps, openingAmount, netChange.values);
    }
    var opening := Row(Some("Opening"), None, currency, false, false, o[TotalKey := o[ps[0]]]);
    var closing := Row(Some("Closing (Opening + Total)"), None, currency, false, false, c[TotalKey := c[ps[|ps| - 1]]]);
    res := Success(BalanceRows(out + [opening, netChange, closing, Spacer], opening, closing));
  }

  /**
   The period loop of `show_opening_and_closing_balance`: period `i` opens at
   `start` plus the changes before it and closes at `start` plus the changes
   up to and including it.
   */
  method RunningBalance(ps: seq<Key>, changes: map<Key, int>, start: int)
    returns (o: map<Key, int>, c: map<Key, int>)
    ensures forall j :: 0 <= j < |ps| ==> ps[j] in o && ps[j] in c
    ensures ValidPeriods(ps) ==> RunningBalances(o, c, ps, |ps|, start, changes)
  {
    o, c := map[], map[];
    var running := start;
    var i := 0;
    while i < |ps|
      invariant 0 <= i <= |ps|
      invariant BalanceFold(ps, i, changes, start) == (o, c, running)
    {
      var key := ps[i];
      var change := Get0(changes, key);
      o := o[key := if i == 0 then start else running];
      running := running + change;
      c := c[key := running];
      i := i + 1;
    }
    BalanceFoldMeaning(ps, |ps|, changes, start);
  }

  /**
   Reference definition of the period loop over the first `i` periods: the
   opening and closing maps and the running balance.
   */
  function BalanceFold(ps: seq<Key>, i: nat, changes: map<Key, int>, start: int): (map<Key, int>, map<Key, int>, int)
    requires i <= |ps|
  {
    if i == 0 then (map[], map[], start)
    else
      var (o, c, running) := BalanceFold(ps, i - 1, changes, start);
      var next := running + Get0(changes, ps[i - 1]);
      (o[ps[i - 1] := running], c[ps[i - 1] := next], next)
  }

  /**
   After `i` periods the running balance is `start` plus their changes, every
   one of them has an opening and a closing, and with distinct keys those are
   the running balances.
   */
  lemma {:induction false} BalanceFoldMeaning(ps: seq<Key>, i: nat, changes: map<Key, int>, start: int)
    requires i <= |ps|
    ensures var (o, c, running) := BalanceFold(ps, i, changes, start);
      && running == start + SumOver(ps[..i], changes)
      && (forall j :: 0 <= j < i ==> ps[j] in o && ps[j] in c)
      && (ValidPeriods(ps) ==> RunningBalances(o, c, ps, i, start, changes))
  {
    if i == 0 {
      assert ps[..0] == [];
    } else {
      BalanceFoldMeaning(ps, i - 1, changes, start);
      var (o, c, running) := BalanceFold(ps, i - 1, changes, start);
      assert ps[..i][..i - 1] == ps[..i - 1];
      if ValidPeriods(ps) {
        BalanceStep(o, c, ps, i - 1, start, changes, running);
      }
    }
  }
}
