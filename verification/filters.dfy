/**
 Checking and completing the report's filters before any figure is
 computed: the report runs either over one fiscal year or over a date range
 inside one fiscal year, and whichever of the two the user gave is filled
 in from the other through the host's fiscal-year calendar. The dates then
 decide where each period's ledger sums start.
 */
module Filters {
  import opened Results
  import opened Periods

  /** A calendar day, numbered so that later days compare greater. */
  type Date = int

  /** A fiscal year of the host calendar: its name and its first and last days. */
  datatype FiscalYear = FiscalYear(name: string, startDate: Date, endDate: Date)

  /**
   The filter fields the report reads. A text field that is missing, `None`
   or empty is `""` (all three are falsy); a date that is missing or `None`
   is `None`.
   */
  datatype ReportFilters = ReportFilters(
    filterBasedOn: string,
    fromFiscalYear: string,
    toFiscalYear: string,
    periodStartDate: Option<Date>,
    periodEndDate: Option<Date>)

  const FiscalYearMode: string := "Fiscal Year"
  const DateRangeMode: string := "Date Range"

  /** The user errors the report raises, and the calendar's own failure. */
  datatype FilterError =
    | FiltersRequired
    | FilterBasedOnMissing
    | FiscalYearsMissing
    | FiscalYearsDiffer
    | DatesMissing
    | StartAfterEnd
    | DatesInDifferentYears
    | InvalidFilterBasedOn
    | FiscalYearNotFound

  /**
   The host calendar, seen through its two lookups: the fiscal year with a
   given name, and the fiscal year a given day falls in. The company is fixed
   by the filters and folded into both.
   */
  datatype Calendar = Calendar(named: string -> Option<FiscalYear>, containing: Date -> Option<FiscalYear>)

  /**
   Reference definition of the filters the report accepts: one fiscal year
   named twice and known to the calendar, or an ordered pair of dates that
   the calendar places in the same fiscal year.
   */
  ghost predicate Acceptable(f: ReportFilters, cal: Calendar) {
    || (&& f.filterBasedOn == FiscalYearMode
        && f.fromFiscalYear != ""
        && f.fromFiscalYear == f.toFiscalYear
        && cal.named(f.fromFiscalYear).Some?)
    || (&& f.filterBasedOn == DateRangeMode
        && f.periodStartDate.Some? && f.periodEndDate.Some?
        && f.periodStartDate.value <= f.periodEndDate.value
        && cal.containing(f.periodStartDate.value).Some?
        && cal.containing(f.periodEndDate.value).Some?
        && cal.containing(f.periodStartDate.value).value.name == cal.containing(f.periodEndDate.value).value.name)
  }

  /**
   `validate_and_prepare_filters`: reject incomplete or inconsistent filters
   with the first error the checks meet, otherwise complete them. A fiscal
   year takes its dates from the calendar; a date range takes the name of
   the fiscal year its start date falls in, as both from- and to-year.
   */
  function ValidateAndPrepare(f: ReportFilters, cal: Calendar): (r: Result<ReportFilters, FilterError>)
    ensures r.Success? <==> Acceptable(f, cal)
    ensures r.Success? ==> r.value.filterBasedOn == f.filterBasedOn
    ensures r.Success? && f.filterBasedOn == FiscalYearMode ==>
      && r.value.fromFiscalYear == f.fromFiscalYear && r.value.toFiscalYear == f.toFiscalYear
      && r.value.periodStartDate == Some(cal.named(f.fromFiscalYear).value.startDate)
      && r.value.periodEndDate == Some(cal.named(f.fromFiscalYear).value.endDate)
    ensures r.Success? && f.filterBasedOn == DateRangeMode ==>
      && r.value.periodStartDate == f.periodStartDate && r.value.periodEndDate == f.periodEndDate
      && r.value.fromFiscalYear == cal.containing(f.periodStartDate.value).value.name
      && r.value.toFiscalYear == cal.containing(f.periodEndDate.value).value.name
    ensures r == Failure(FilterBasedOnMissing) <==> f.filterBasedOn == ""
    ensures r == Failure(InvalidFilterBasedOn) <==>
      f.filterBasedOn !in {"", FiscalYearMode, DateRangeMode}
    ensures r == Failure(FiscalYearsMissing) <==>
      f.filterBasedOn == FiscalYearMode && (f.fromFiscalYear == "" || f.toFiscalYear == "")
    ensures r == Failure(FiscalYearsDiffer) <==>
      && f.filterBasedOn == FiscalYearMode && f.fromFiscalYear != "" && f.toFiscalYear != ""
      && f.fromFiscalYear != f.toFiscalYear
    ensures r == Failure(DatesMissing) <==>
      f.filterBasedOn == DateRangeMode && (f.periodStartDate.None? || f.periodEndDate.None?)
    ensures r == Failure(StartAfterEnd) <==>
      && f.filterBasedOn == DateRangeMode && f.periodStartDate.Some? && f.periodEndDate.Some?
      && f.periodStartDate.value > f.periodEndDate.value
    ensures r == Failure(DatesInDifferentYears) <==>
      && f.filterBasedOn == DateRangeMode && f.periodStartDate.Some? && f.periodEndDate.Some?
      && f.periodStartDate.value <= f.periodEndDate.value
      && cal.containing(f.periodStartDate.value).Some? && cal.containing(f.periodEndDate.value).Some?
      && cal.containing(f.periodStartDate.value).value.name != cal.containing(f.periodEndDate.value).value.name
  {
    if f.filterBasedOn == "" then Failure(FilterBasedOnMissing)
    else if f.filterBasedOn == FiscalYearMode then
      if f.fromFiscalYear == "" || f.toFiscalYear == "" then Failure(FiscalYearsMissing)
      else if f.fromFiscalYear != f.toFiscalYear then Failure(FiscalYearsDiffer)
      else
        match cal.named(f.fromFiscalYear)
        case None => Failure(FiscalYearNotFound)
        case Some(fy) => Success(f.(periodStartDate := Some(fy.startDate), periodEndDate := Some(fy.endDate)))
    else if f.filterBasedOn == DateRangeMode then
      if f.periodStartDate.None? || f.periodEndDate.None? then Failure(DatesMissing)
      else if f.periodStartDate.value > f.periodEndDate.value then Failure(StartAfterEnd)
      else
        match cal.containing(f.periodStartDate.value)
        case None => Failure(FiscalYearNotFound)
        case Some(fy1) =>
          match cal.containing(f.periodEndDate.value)
          case None => Failure(FiscalYearNotFound)
          case Some(fy2) =>
            if fy1.name != fy2.name then Failure(DatesInDifferentYears)
            else Success(f.(fromFiscalYear := fy1.name, toFiscalYear := fy1.name))
    else Failure(InvalidFilterBasedOn)
  }

  /**
   The start of `execute`: no filters at all (or an empty dictionary) is an
   error of its own; otherwise the filters are validated and completed.
   */
  function PrepareReportFilters(filters: Option<ReportFilters>, cal: Calendar): (r: Result<ReportFilters, FilterError>)
    ensures filters.None? ==> r == Failure(FiltersRequired)
    ensures r.Success? <==> filters.Some? && Acceptable(filters.value, cal)
  {
    match filters
    case None => Failure(FiltersRequired)
    case Some(f) => ValidateAndPrepare(f, cal)
  }

  /** Completed filters pass the checks again and come back unchanged. */
  lemma PrepareIdempotent(f: ReportFilters, cal: Calendar)
    requires ValidateAndPrepare(f, cal).Success?
    ensures ValidateAndPrepare(ValidateAndPrepare(f, cal).value, cal) == ValidateAndPrepare(f, cal)
  {
  }

  /** The calendar's year with a given name spans its own days, and the days of it lie in it. */
  ghost predicate CoherentYear(cal: Calendar, name: string) {
    && cal.named(name).Some?
    && cal.named(name).value.name == name
    && cal.named(name).value.startDate <= cal.named(name).value.endDate
    && cal.containing(cal.named(name).value.startDate) == cal.named(name)
    && cal.containing(cal.named(name).value.endDate) == cal.named(name)
  }

  /**
   The two modes agree: on a coherent calendar, the dates a fiscal year
   fills in make an acceptable date range, and that range names the same
   fiscal year again.
   */
  lemma ModesAgree(f: ReportFilters, cal: Calendar)
    requires f.filterBasedOn == FiscalYearMode
    requires ValidateAndPrepare(f, cal).Success?
    requires CoherentYear(cal, f.fromFiscalYear)
    ensures var g := ValidateAndPrepare(f, cal).value.(filterBasedOn := DateRangeMode);
      ValidateAndPrepare(g, cal) == Success(g)
  {
  }

  /** A period of the host's period list, with the dates `get_start_date` reads. */
  datatype Period = Period(key: string, fromDate: Option<Date>, toDate: Date, yearStartDate: Date)

  /**
   `get_start_date`: the first day a period's ledger sums start from. Without
   accumulation it is the period's own first day, or the first day of its
   year when the period has none; with accumulation it is the first day of
   the fiscal year the period's last day falls in, and the calendar must
   know that year.
   */
  function StartDate(p: Period, accumulated: bool, cal: Calendar): (r: Result<Date, FilterError>)
    ensures !accumulated && p.fromDate.Some? ==> r == Success(p.fromDate.value)
    ensures !accumulated && p.fromDate.None? ==> r == Success(p.yearStartDate)
    ensures accumulated ==> (r.Success? <==> cal.containing(p.toDate).Some?)
    ensures accumulated && r.Success? ==> r.value == cal.containing(p.toDate).value.startDate
  {
    if !accumulated && p.fromDate.Some? then Success(p.fromDate.value)
    else
      var start := p.yearStartDate;
      if accumulated then
        match cal.containing(p.toDate)
        case None => Failure(FiscalYearNotFound)
        case Some(fy) => Success(fy.startDate)
      else Success(start)
  }

  /** The calendar places every day it knows inside the year it reports. */
  ghost predicate DaysInsideYears(cal: Calendar) {
    forall d :: cal.containing(d).Some? ==> cal.containing(d).value.startDate <= d
  }

  /**
   A period's sums never start after the period ends, provided its own
   dates are in order and the calendar places days inside their years.
   */
  lemma StartNotAfterEnd(p: Period, accumulated: bool, cal: Calendar)
    requires DaysInsideYears(cal)
    requires p.fromDate.Some? ==> p.fromDate.value <= p.toDate
    requires p.yearStartDate <= p.toDate
    requires StartDate(p, accumulated, cal).Success?
    ensures StartDate(p, accumulated, cal).value <= p.toDate
  {
  }

  /** With accumulation, the period's own first day and its year's first day play no part. */
  lemma AccumulatedStartIgnoresPeriodStart(p: Period, q: Period, cal: Calendar)
    requires p.toDate == q.toDate
    ensures StartDate(p, true, cal) == StartDate(q, true, cal)
  {
  }

  // ---------------------------------------------------------------------
  // Ledger sums per period
  // ---------------------------------------------------------------------

  /** The account type whose ledger sums the report shows with their sign flipped. */
  const DepreciationType: string := "Depreciation"

  /**
   One period's amount for an account type: the ledger's net credit from the
   period's `StartDate` to its last day, read through `gl`; a depreciation
   amount is shown negated.
   */
  function PeriodAmount(accountType: string, p: Period, accumulated: bool, cal: Calendar, gl: (Date, Date) -> int)
    : (r: Result<int, FilterError>)
    ensures r.Success? <==> StartDate(p, accumulated, cal).Success?
    ensures r.Success? ==>
      r.value == (if accountType == DepreciationType then -1 else 1) * gl(StartDate(p, accumulated, cal).value, p.toDate)
  {
    var start :- StartDate(p, accumulated, cal);
    var amount := gl(start, p.toDate);
    Success(if amount != 0 && accountType == DepreciationType then amount * -1 else amount)
  }

  /** Every listed period has an amount. */
  ghost predicate AllAmounts(accountType: string, ps: seq<Period>, accumulated: bool, cal: Calendar, gl: (Date, Date) -> int) {
    forall i :: 0 <= i < |ps| ==> PeriodAmount(accountType, ps[i], accumulated, cal, gl).Success?
  }

  /** The amounts of all listed periods added up, a repeated key counting again. */
  ghost function AmountSum(accountType: string, ps: seq<Period>, accumulated: bool, cal: Calendar, gl: (Date, Date) -> int): int
    requires AllAmounts(accountType, ps, accumulated, cal, gl)
    decreases |ps|
  {
    if ps == [] then 0
    else
      var init := ps[..|ps| - 1];
      assert forall i :: 0 <= i < |init| ==> init[i] == ps[i];
      AmountSum(accountType, init, accumulated, cal, gl) + PeriodAmount(accountType, ps[|ps| - 1], accumulated, cal, gl).value
  }

  /** `ps[i]` is the first period listed under its key. */
  ghost predicate FirstListing(ps: seq<Period>, i: int) {
    FirstAt(PeriodKeys(ps), i)
  }

  /** The period keys, in order. */
  function PeriodKeys(ps: seq<Period>): (ks: seq<Key>)
    ensures |ks| == |ps| && forall i :: 0 <= i < |ps| ==> ks[i] == ps[i].key
  {
    seq(|ps|, i requires 0 <= i < |ps| => ps[i].key)
  }

  /** The amounts of the listed periods, in order. */
  ghost function AmountsOf(accountType: string, ps: seq<Period>, accumulated: bool, cal: Calendar, gl: (Date, Date) -> int)
    : (vs: seq<int>)
    requires AllAmounts(accountType, ps, accumulated, cal, gl)
    ensures |vs| == |ps|
    ensures forall i :: 0 <= i < |ps| ==> PeriodAmount(accountType, ps[i], accumulated, cal, gl) == Success(vs[i])
  {
    seq(|ps|, i requires 0 <= i < |ps| => PeriodAmount(accountType, ps[i], accumulated, cal, gl).value)
  }

  /**
   `get_account_type_based_data`: per period, the period's amount under its
   key, where the first listing of a key is the one kept; "total" adds the
   amounts of every listed period. Without accumulation it cannot fail; with
   it, it fails when the calendar does not know a period's last day.
   */
  function AccountTypeBasedData(accountType: string, ps: seq<Period>, accumulated: bool, cal: Calendar, gl: (Date, Date) -> int)
    : (r: Result<map<Key, int>, FilterError>)
    ensures r.Failure? <==> !AllAmounts(accountType, ps, accumulated, cal, gl)
    ensures !accumulated ==> r.Success?
    ensures r.Success? ==> r.value.Keys == (set k | k in PeriodKeys(ps)) + {TotalKey}
    ensures r.Success? ==> forall i :: FirstListing(ps, i) && ps[i].key != TotalKey ==>
      r.value[ps[i].key] == PeriodAmount(accountType, ps[i], accumulated, cal, gl).value
    ensures r.Success? ==> r.value[TotalKey] == AmountSum(accountType, ps, accumulated, cal, gl)
    ensures r.Success? && ValidPeriods(PeriodKeys(ps)) ==> r.value[TotalKey] == SumOver(PeriodKeys(ps), r.value)
  {
    var collected :- CollectAmounts(accountType, ps, accumulated, cal, gl);
    var result := collected.0[TotalKey := collected.1];
    assert ValidPeriods(PeriodKeys(ps)) ==> result[TotalKey] == SumOver(PeriodKeys(ps), result) by {
      if ValidPeriods(PeriodKeys(ps)) {
        DistinctFirstListings(ps);
        AmountSumOverKeys(accountType, ps, accumulated, cal, gl, result);
      }
    }
    Success(result)
  }

  /**
   The period loop of `get_account_type_based_data`: each period's amount is
   kept under its key unless the key is already there (`setdefault`), and
   added to the total. It fails at the first period without a start date.
   */
  function CollectAmounts(accountType: string, ps: seq<Period>, accumulated: bool, cal: Calendar, gl: (Date, Date) -> int)
    : (r: Result<(map<Key, int>, int), FilterError>)
    ensures r.Failure? <==> !AllAmounts(accountType, ps, accumulated, cal, gl)
    ensures r.Success? ==>
      && r.value.0 == KeepFirst(PeriodKeys(ps), AmountsOf(accountType, ps, accumulated, cal, gl))
      && r.value.1 == AmountSum(accountType, ps, accumulated, cal, gl)
    decreases |ps|
  {
    if ps == [] then
      AmountsNone(accountType, accumulated, cal, gl);
      Success((map[], 0))
    else
      var n := |ps| - 1;
      var init := ps[..n];
      assert forall i :: 0 <= i < n ==> init[i] == ps[i];
      var prev :- CollectAmounts(accountType, init, accumulated, cal, gl);
      var a :- PeriodAmount(accountType, ps[n], accumulated, cal, gl);
      CollectStep(accountType, ps, accumulated, cal, gl, prev, a);
      Success((if ps[n].key in prev.0 then prev.0 else prev.0[ps[n].key := a], prev.1 + a))
  }

  /** No periods: no keys, no amounts, nothing kept and a zero sum. */
  lemma AmountsNone(accountType: string, accumulated: bool, cal: Calendar, gl: (Date, Date) -> int)
    ensures AllAmounts(accountType, [], accumulated, cal, gl)
    ensures KeepFirst(PeriodKeys([]), AmountsOf(accountType, [], accumulated, cal, gl)) == map[]
    ensures AmountSum(accountType, [], accumulated, cal, gl) == 0
  {
    assert PeriodKeys([]) == [] && AmountsOf(accountType, [], accumulated, cal, gl) == [];
  }

  /**
   The `setdefault` and `total +=` step: from the entries and total of all
   but the last period, the last period's amount gives those of all of them.
   */
  lemma CollectStep(accountType: string, ps: seq<Period>, accumulated: bool, cal: Calendar, gl: (Date, Date) -> int,
                    prev: (map<Key, int>, int), a: int)
    requires ps != []
    requires AllAmounts(accountType, ps[..|ps| - 1], accumulated, cal, gl)
    requires prev.0 == KeepFirst(PeriodKeys(ps[..|ps| - 1]), AmountsOf(accountType, ps[..|ps| - 1], accumulated, cal, gl))
    requires prev.1 == AmountSum(accountType, ps[..|ps| - 1], accumulated, cal, gl)
    requires PeriodAmount(accountType, ps[|ps| - 1], accumulated, cal, gl) == Success(a)
    ensures AllAmounts(accountType, ps, accumulated, cal, gl)
    ensures var k := ps[|ps| - 1].key;
      (if k in prev.0 then prev.0 else prev.0[k := a]) == KeepFirst(PeriodKeys(ps), AmountsOf(accountType, ps, accumulated, cal, gl))
    ensures prev.1 + a == AmountSum(accountType, ps, accumulated, cal, gl)
  {
    var init := ps[..|ps| - 1];
    AllAmountsStep(accountType, ps, accumulated, cal, gl);
    PeriodKeysStep(ps);
    AmountsOfStep(accountType, ps, accumulated, cal, gl, a);
    KeepFirstStep(PeriodKeys(init), AmountsOf(accountType, init, accumulated, cal, gl), ps[|ps| - 1].key, a);
  }

  /** Amounts for all but the last period and for the last give amounts for all. */
  lemma AllAmountsStep(accountType: string, ps: seq<Period>, accumulated: bool, cal: Calendar, gl: (Date, Date) -> int)
    requires ps != []
    requires AllAmounts(accountType, ps[..|ps| - 1], accumulated, cal, gl)
    requires PeriodAmount(accountType, ps[|ps| - 1], accumulated, cal, gl).Success?
    ensures AllAmounts(accountType, ps, accumulated, cal, gl)
  {
    var init := ps[..|ps| - 1];
    forall i | 0 <= i < |ps|
      ensures PeriodAmount(accountType, ps[i], accumulated, cal, gl).Success?
    {
      if i < |init| {
        assert init[i] == ps[i];
      }
    }
  }

  /** The keys of a period list are those of all but its last period, then the last one's. */
  lemma PeriodKeysStep(ps: seq<Period>)
    requires ps != []
    ensures PeriodKeys(ps) == PeriodKeys(ps[..|ps| - 1]) + [ps[|ps| - 1].key]
  {
  }

  /** The amounts of a period list are those of all but its last period, then the last one's. */
  lemma AmountsOfStep(accountType: string, ps: seq<Period>, accumulated: bool, cal: Calendar, gl: (Date, Date) -> int, a: int)
    requires ps != []
    requires AllAmounts(accountType, ps, accumulated, cal, gl)
    requires PeriodAmount(accountType, ps[|ps| - 1], accumulated, cal, gl) == Success(a)
    ensures AllAmounts(accountType, ps[..|ps| - 1], accumulated, cal, gl)
    ensures AmountsOf(accountType, ps, accumulated, cal, gl) == AmountsOf(accountType, ps[..|ps| - 1], accumulated, cal, gl) + [a]
  {
    var init := ps[..|ps| - 1];
    assert forall i :: 0 <= i < |init| ==> init[i] == ps[i];
    var vs, us := AmountsOf(accountType, ps, accumulated, cal, gl), AmountsOf(accountType, init, accumulated, cal, gl);
    forall i | 0 <= i < |ps|
      ensures vs[i] == (us + [a])[i]
    {
      if i < |init| {
        assert PeriodAmount(accountType, ps[i], accumulated, cal, gl) == Success(us[i]);
      }
    }
  }

  /** With distinct keys every period is the first listing of its key. */
  lemma DistinctFirstListings(ps: seq<Period>)
    requires Distinct(PeriodKeys(ps))
    ensures forall i :: 0 <= i < |ps| ==> FirstListing(ps, i)
  {
    forall i, l | 0 <= l < i < |ps|
      ensures ps[l].key != ps[i].key
    {
      assert PeriodKeys(ps)[l] != PeriodKeys(ps)[i];
    }
  }

  /**
   On a period list with distinct keys, none of them "total", the amounts
   added up are the sum of the per-period entries.
   */
  lemma {:induction false} AmountSumOverKeys(
    accountType: string, ps: seq<Period>, accumulated: bool, cal: Calendar, gl: (Date, Date) -> int, m: map<Key, int>)
    requires AllAmounts(accountType, ps, accumulated, cal, gl)
    requires forall i :: 0 <= i < |ps| ==> ps[i].key in m && m[ps[i].key] == PeriodAmount(accountType, ps[i], accumulated, cal, gl).value
    ensures AmountSum(accountType, ps, accumulated, cal, gl) == SumOver(PeriodKeys(ps), m)
    decreases |ps|
  {
    if ps != [] {
      var init := ps[..|ps| - 1];
      assert PeriodKeys(ps)[..|ps| - 1] == PeriodKeys(init);
      AmountSumOverKeys(accountType, init, accumulated, cal, gl, m);
    }
  }
}
