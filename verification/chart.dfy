/**
 The bar chart under the report: one bar series per top-level report line
 that carries a currency, one bar per period column.
 */
module Chart {
  import opened Results
  import opened Text
  import opened Periods
  import opened ReportRows

  /** A report column as the chart reads it: its heading and the row field it shows. */
  datatype ChartColumn = ChartColumn(heading: Option<string>, fieldname: Option<Key>)

  /** One bar series: the line's name and, per period column, its amount if the line has one. */
  datatype Dataset = Dataset(name: string, values: seq<Option<int>>)

  datatype ChartData = ChartData(labels: seq<Option<string>>, datasets: seq<Dataset>, currency: Option<string>)

  /** Reading a line's section name for the chart fails when the line has none. */
  datatype ChartError = SectionMissing

  /** A line becomes a series when it has no parent section and a non-empty currency. */
  predicate IsChartRow(row: Row) {
    row.parentSection.None? && Truthy(row.currency)
  }

  /** The first two columns (account and currency) are not periods. */
  function PeriodColumns(columns: seq<ChartColumn>): (r: seq<ChartColumn>)
    ensures |r| == if |columns| < 2 then 0 else |columns| - 2
    ensures forall j :: 0 <= j < |r| ==> r[j] == columns[j + 2]
  {
    if |columns| < 2 then [] else columns[2..]
  }

  /** `row.get(fieldname)`: the amount under the field, `None` when the row has none. */
  function FieldValue(row: Row, fieldname: Option<Key>): Option<int> {
    if fieldname.Some? && fieldname.value in row.values then Some(row.values[fieldname.value]) else None
  }

  /** The series of one chart line. */
  function DatasetOf(row: Row, columns: seq<ChartColumn>): (d: Dataset)
    requires row.section.Some?
    ensures d.name == PlainSection(row)
    ensures |d.values| == |columns|
    ensures forall j :: 0 <= j < |columns| ==> d.values[j] == FieldValue(row, columns[j].fieldname)
  {
    Dataset(StripQuotes(row.section.value), seq(|columns|, j requires 0 <= j < |columns| => FieldValue(row, columns[j].fieldname)))
  }

  /** Every line the chart picks has a section name to show. */
  ghost predicate ChartRowsNamed(data: seq<Row>) {
    forall i :: 0 <= i < |data| && IsChartRow(data[i]) ==> data[i].section.Some?
  }

  /**
   One series per chart line of `data`, in report order; a chart line
   without a section name makes the whole chart fail.
   */
  function AllDatasets(data: seq<Row>, columns: seq<ChartColumn>): (r: Result<seq<Dataset>, ChartError>)
    ensures r.Success? <==> ChartRowsNamed(data)
    ensures r.Success? ==> |r.value| == |Filter(data, IsChartRow)|
    ensures r.Success? ==> forall i :: 0 <= i < |r.value| ==>
      Filter(data, IsChartRow)[i].section.Some? && r.value[i] == DatasetOf(Filter(data, IsChartRow)[i], columns)
    decreases |data|
  {
    if data == [] then Success([])
    else
      var init := data[..|data| - 1];
      var last := data[|data| - 1];
      assert forall i :: 0 <= i < |init| ==> init[i] == data[i];
      var prev :- AllDatasets(init, columns);
      if !IsChartRow(last) then Success(prev)
      else if last.section.None? then Failure(SectionMissing)
      else Success(prev + [DatasetOf(last, columns)])
  }

  /** `datasets[:-2]`: everything but the last two series. */
  function DropLastTwo(ds: seq<Dataset>): (r: seq<Dataset>)
    ensures |r| == if |ds| < 2 then 0 else |ds| - 2
    ensures forall i :: 0 <= i < |r| ==> r[i] == ds[i]
  {
    if |ds| < 2 then [] else ds[..|ds| - 2]
  }

  /**
   `get_chart_data`: the period columns' headings as labels, and one series
   per chart line except the last two, each with that line's amount for
   every period column.
   */
  function ChartOf(columns: seq<ChartColumn>, data: seq<Row>, currency: Option<string>): (r: Result<ChartData, ChartError>)
    ensures r.Success? <==> ChartRowsNamed(data)
    ensures r.Success? ==> r.value.currency == currency
    ensures r.Success? ==>
      && |r.value.labels| == |PeriodColumns(columns)|
      && forall j :: 0 <= j < |r.value.labels| ==> r.value.labels[j] == columns[j + 2].heading
    ensures r.Success? ==>
      && |r.value.datasets| == (if |Filter(data, IsChartRow)| < 2 then 0 else |Filter(data, IsChartRow)| - 2)
      && forall i :: 0 <= i < |r.value.datasets| ==>
           Filter(data, IsChartRow)[i].section.Some?
           && r.value.datasets[i] == DatasetOf(Filter(data, IsChartRow)[i], PeriodColumns(columns))
  {
    var periods := PeriodColumns(columns);
    var labels := seq(|periods|, j requires 0 <= j < |periods| => periods[j].heading);
    var all :- AllDatasets(data, periods);
    Success(ChartData(labels, DropLastTwo(all), currency))
  }

  /**
   The report ends with the opening and closing cash lines, each followed by
   a blank line; those two are exactly the series the chart drops, so every
   chart line before them keeps its series.
   */
  lemma {:induction false} BalanceLinesNotCharted(
    columns: seq<ChartColumn>, data: seq<Row>, opening: Row, closing: Row, currency: Option<string>)
    requires IsChartRow(opening) && opening.section.Some?
    requires IsChartRow(closing) && closing.section.Some?
    requires ChartRowsNamed(data)
    ensures var r := ChartOf(columns, data + [opening, Spacer, closing, Spacer], currency);
      && r.Success?
      && r.value.datasets == AllDatasets(data, PeriodColumns(columns)).value
  {
    var tail := [opening, Spacer, closing, Spacer];
    var full := data + tail;
    assert ChartRowsNamed(full) by {
      forall i | 0 <= i < |full| && IsChartRow(full[i]) ensures full[i].section.Some? {
        if i < |data| {
          assert full[i] == data[i];
        } else {
          assert full[i] == tail[i - |data|];
        }
      }
    }
    FilterAppend(data, tail, IsChartRow);
    BalanceTailCharted(opening, closing);
    var fs := Filter(data, IsChartRow);
    assert Filter(full, IsChartRow) == fs + [opening, closing];
    var periods := PeriodColumns(columns);
    var all := AllDatasets(data, periods).value;
    var r := ChartOf(columns, full, currency).value;
    assert |r.datasets| == |all|;
    forall i | 0 <= i < |all| ensures r.datasets[i] == all[i] {
      assert (fs + [opening, closing])[i] == fs[i];
    }
  }

  /** Of the four lines the report ends with, the chart picks the opening and closing lines. */
  lemma BalanceTailCharted(opening: Row, closing: Row)
    requires IsChartRow(opening) && IsChartRow(closing)
    ensures Filter([opening, Spacer, closing, Spacer], IsChartRow) == [opening, closing]
  {
    assert !IsChartRow(Spacer);
    assert [opening][..0] == [];
    assert Filter([opening], IsChartRow) == [opening];
    assert [opening, Spacer][..1] == [opening];
    assert Filter([opening, Spacer], IsChartRow) == [opening];
    assert [opening, Spacer, closing][..2] == [opening, Spacer];
    assert Filter([opening, Spacer, closing], IsChartRow) == [opening, closing];
    assert [opening, Spacer, closing, Spacer][..3] == [opening, Spacer, closing];
  }
}
