/**
 The rows of the cash-flow report. In the report each row is a dictionary
 mixing display fields with one amount per period key and a "total"; here
 the fields the report logic reads are named, and the amounts sit in
 `values`.
 */
module ReportRows {
  import opened Results
  import opened Text
  import opened Periods

  /**
   One report row. An absent `section`, `parentSection` or `currency` is
   `None`; `includeInOpTotal` and `includeInNetCash` are false when the row
   lacks the flag; an amount that is missing or empty is absent from `values`.
   */
  datatype Row = Row(
    section: Option<string>,
    parentSection: Option<string>,
    currency: Option<string>,
    includeInOpTotal: bool,
    includeInNetCash: bool,
    values: map<Key, int>)

  /** The empty dictionary `{}` the report inserts as a blank line. */
  const Spacer: Row := Row(None, None, None, false, false, map[])

  /** Python truthiness of an optional string: present and non-empty. */
  predicate Truthy(o: Option<string>) {
    o.Some? && o.value != ""
  }

  /** `row.get(k, 0)` */
  function Amount(row: Row, k: Key): int {
    Get0(row.values, k)
  }

  /** The section name with its quotes removed, "" when the row has none. */
  function PlainSection(row: Row): string {
    StripQuotes(row.section.GetOr(""))
  }

  /**
   `build_cashflow_single_value_row`: a row showing the same amount in every
   period and, as its "total", that amount once.
   */
  function SingleValueRow(
    name: string, value: int, ps: seq<Key>, parentSection: string, currency: Option<string>,
    includeInOpTotal: bool, includeInNetCash: bool): (r: Row)
    ensures r.section == Some(name) && r.parentSection == Some(parentSection) && r.currency == currency
    ensures r.includeInOpTotal == includeInOpTotal && r.includeInNetCash == includeInNetCash
    ensures r.values.Keys == (set k | k in ps) + {TotalKey}
    ensures forall k :: k in r.values ==> r.values[k] == value
  {
    Row(Some(name), Some(parentSection), currency, includeInOpTotal, includeInNetCash,
        Fill(map[TotalKey := value], ps, value))
  }

  /**
   The "total" of a single-value row is the value itself, while its period
   amounts add up to the value once per period.
   */
  lemma SingleValueRowTotal(
    name: string, value: int, ps: seq<Key>, parentSection: string, currency: Option<string>,
    includeInOpTotal: bool, includeInNetCash: bool)
    ensures var r := SingleValueRow(name, value, ps, parentSection, currency, includeInOpTotal, includeInNetCash);
      && r.values[TotalKey] == value
      && SumOver(ps, r.values) == |ps| * value
  {
    var r := SingleValueRow(name, value, ps, parentSection, currency, includeInOpTotal, includeInNetCash);
    SumOverConstant(ps, r.values, value);
  }

  // ---------------------------------------------------------------------
  // Sums over the rows a predicate selects
  // ---------------------------------------------------------------------

  /** The rows `select` keeps, in order. */
  function Filter(rows: seq<Row>, select: Row -> bool): (r: seq<Row>)
    ensures |r| <= |rows|
    ensures forall x {:trigger x in r} :: x in r <==> x in rows && select(x)
    decreases |rows|
  {
    if rows == [] then []
    else
      var init, last := rows[..|rows| - 1], rows[|rows| - 1];
      assert forall x :: x in rows <==> x in init || x == last by {
        assert rows == init + [last];
      }
      Filter(init, select) + (if select(last) then [last] else [])
  }

  /** The amounts under `k` of a list of rows, added up. */
  function Column(rows: seq<Row>, k: Key): int
    decreases |rows|
  {
    if rows == [] then 0 else Column(rows[..|rows| - 1], k) + Amount(rows[|rows| - 1], k)
  }

  /** Sum of the `k` amounts of the rows `select` keeps. */
  function SelectedSum(rows: seq<Row>, select: Row -> bool, k: Key): int {
    Column(Filter(rows, select), k)
  }

  /** A column of two lists of rows put together is the sum of their columns. */
  lemma {:induction false} ColumnAppend(a: seq<Row>, b: seq<Row>, k: Key)
    ensures Column(a + b, k) == Column(a, k) + Column(b, k)
    decreases |b|
  {
    if b == [] {
      assert a + b == a;
    } else {
      var init := b[..|b| - 1];
      assert (a + b)[..|a + b| - 1] == a + init;
      ColumnAppend(a, init, k);
    }
  }

  /** Filtering two lists of rows put together filters each in turn. */
  lemma {:induction false} FilterAppend(a: seq<Row>, b: seq<Row>, select: Row -> bool)
    ensures Filter(a + b, select) == Filter(a, select) + Filter(b, select)
    decreases |b|
  {
    if b == [] {
      assert a + b == a;
    } else {
      var init := b[..|b| - 1];
      assert (a + b)[..|a + b| - 1] == a + init;
      FilterAppend(a, init, select);
    }
  }

  /**
   A per-period amount row over the selected rows: each period key holds the
   selected rows' sum for that key.
   */
  function ColumnSums(rows: seq<Row>, select: Row -> bool, ps: seq<Key>): (m: map<Key, int>)
    ensures m.Keys == set k | k in ps
    ensures forall k :: k in m ==> m[k] == SelectedSum(rows, select, k)
  {
    Tabulate(ps, k => SelectedSum(rows, select, k))
  }

  /** The selected rows' amounts summed over every listed period. */
  function PeriodsTotal(rows: seq<Row>, select: Row -> bool, ps: seq<Key>): int
    decreases |ps|
  {
    if ps == [] then 0
    else PeriodsTotal(rows, select, ps[..|ps| - 1]) + SelectedSum(rows, select, ps[|ps| - 1])
  }

  /** Summing a column-sum row over the periods gives `PeriodsTotal`. */
  lemma {:induction false} SumOverColumnSums(rows: seq<Row>, select: Row -> bool, ps: seq<Key>, m: map<Key, int>)
    requires forall k :: k in ps ==> k in m && m[k] == SelectedSum(rows, select, k)
    ensures SumOver(ps, m) == PeriodsTotal(rows, select, ps)
    decreases |ps|
  {
    if ps != [] {
      var init := ps[..|ps| - 1];
      assert forall k :: k in init ==> k in ps;
      SumOverColumnSums(rows, select, init, m);
      assert ps[|ps| - 1] in ps;
    }
  }
}
