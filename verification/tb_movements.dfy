/**
 The per-period rows the report reads out of the trial balance by exact
 account name (working-capital changes, property-plant-and-equipment
 movements, cash and bank balances) and out of the profit-and-loss
 statement by case-insensitive substring of parent and name (interest
 expense). Each returns one amount per period key plus a "total".
 */
module TbMovements {
  import opened Results
  import opened Text
  import opened Periods
  import opened TrialBalance

  // ---------------------------------------------------------------------
  // Looking rows up by exact account name
  // ---------------------------------------------------------------------

  /** `rows[i]` is the last row carrying `name`. */
  ghost predicate IsLastNamed(rows: seq<TbAccount>, name: string, i: int) {
    && 0 <= i < |rows|
    && rows[i].accountName == name
    && forall j :: i < j < |rows| ==> rows[j].accountName != name
  }

  /**
   The row a scan that keeps overwriting its candidate ends with: the last
   row whose account name equals `name`.
   */
  function LastNamed(rows: seq<TbAccount>, name: string): (r: Option<TbAccount>)
    ensures r.None? <==> forall i :: 0 <= i < |rows| ==> rows[i].accountName != name
    ensures r.Some? ==> exists i :: IsLastNamed(rows, name, i) && rows[i] == r.value
  {
    var i := LastNamedIndex(rows, name);
    if i < 0 then None else Some(rows[i])
  }

  /** The position of the last row carrying `name`, or -1 when none does. */
  function LastNamedIndex(rows: seq<TbAccount>, name: string): (i: int)
    ensures -1 <= i < |rows|
    ensures i == -1 ==> forall j :: 0 <= j < |rows| ==> rows[j].accountName != name
    ensures i >= 0 ==> IsLastNamed(rows, name, i)
    decreases |rows|
  {
    if rows == [] then -1
    else if rows[|rows| - 1].accountName == name then |rows| - 1
    else
      var init := rows[..|rows| - 1];
      assert forall j :: 0 <= j < |init| ==> init[j] == rows[j];
      LastNamedIndex(init, name)
  }

  // ---------------------------------------------------------------------
  // Working capital
  // ---------------------------------------------------------------------

  const Receivables: string := "Accounts Receivable"
  const Inventory: string := "INVENTORY"
  const Payables: string := "Accounts Payable"

  /** Which balances the working-capital reader takes for an account name. */
  datatype WorkingCapitalSide = DebitAsset | CreditLiability | NoRule

  /** Receivables and inventory are read on the debit side, payables on the credit side; no other name has a rule. */
  function SideOf(name: string): WorkingCapitalSide {
    if name == Receivables || name == Inventory then DebitAsset
    else if name == Payables then CreditLiability
    else NoRule
  }

  /**
   The cash effect of one working-capital row: an asset that shrank released
   cash (opening debit minus closing debit); a liability that grew kept cash
   (closing credit minus opening credit). A name without a rule gets this far
   only when there are no periods, so its 0 is never shown.
   */
  function WorkingCapitalValue(side: WorkingCapitalSide, a: TbAccount): int {
    match side
    case DebitAsset => a.openingDebit - a.closingDebit
    case CreditLiability => (a.openingCredit - a.closingCredit) * -1
    case NoRule => 0
  }

  /** The sum of `WorkingCapitalValue` over every row named `name`. */
  function NamedTotal(rows: seq<TbAccount>, name: string, side: WorkingCapitalSide): int
    decreases |rows|
  {
    if rows == [] then 0
    else
      NamedTotal(rows[..|rows| - 1], name, side)
      + (if rows[|rows| - 1].accountName == name then WorkingCapitalValue(side, rows[|rows| - 1]) else 0)
  }

  /** The per-period value the reader leaves behind: each row named `name` overwrites it. */
  function LastNamedValue(rows: seq<TbAccount>, name: string, side: WorkingCapitalSide): int
    decreases |rows|
  {
    if rows == [] then 0
    else if rows[|rows| - 1].accountName == name then WorkingCapitalValue(side, rows[|rows| - 1])
    else LastNamedValue(rows[..|rows| - 1], name, side)
  }

  /** The value left behind is that of the last row named `name`, or 0 when there is none. */
  lemma {:induction false} LastNamedValueOfLast(rows: seq<TbAccount>, name: string, side: WorkingCapitalSide)
    ensures LastNamedValue(rows, name, side)
      == match LastNamed(rows, name) case None => 0 case Some(a) => WorkingCapitalValue(side, a)
    decreases |rows|
  {
    if rows != [] && rows[|rows| - 1].accountName != name {
      var init := rows[..|rows| - 1];
      LastNamedValueOfLast(init, name, side);
      assert LastNamedIndex(rows, name) == LastNamedIndex(init, name);
      var i := LastNamedIndex(init, name);
      if i >= 0 {
        assert init[i] == rows[i];
      }
    }
  }

  /** One more row changes the reader's state only when it carries `name`. */
  lemma NamedStep(rows: seq<TbAccount>, i: nat, name: string, side: WorkingCapitalSide)
    requires i < |rows|
    ensures rows[i].accountName == name ==>
      && LastNamedValue(rows[..i + 1], name, side) == WorkingCapitalValue(side, rows[i])
      && NamedTotal(rows[..i + 1], name, side) == NamedTotal(rows[..i], name, side) + WorkingCapitalValue(side, rows[i])
    ensures rows[i].accountName != name ==>
      && LastNamedValue(rows[..i + 1], name, side) == LastNamedValue(rows[..i], name, side)
      && NamedTotal(rows[..i + 1], name, side) == NamedTotal(rows[..i], name, side)
  {
    assert rows[..i + 1][..i] == rows[..i];
  }

  /**
   A row named after an account the reader has no rule for makes the period
   loop read a value that was never assigned.
   */
  datatype WorkingCapitalError = ValueUnassigned(accountName: string)

  /**
   `get_working_capital_change_from_tb`: every period gets the value of the
   last row named exactly `accountName`; "total" adds every matching row's
   value once per period.
   */
  method WorkingCapitalChange(accountName: string, ps: seq<Key>, rows: seq<TbAccount>)
    returns (r: Result<map<Key, int>, WorkingCapitalError>)
    ensures r.Failure? <==>
      && SideOf(accountName) == NoRule && |ps| > 0
      && exists i :: 0 <= i < |rows| && rows[i].accountName == accountName
    ensures r.Success? ==> r.value.Keys == (set k | k in ps) + {TotalKey}
    ensures r.Success? ==> forall k :: k in ps && k != TotalKey ==>
      r.value[k] == LastNamedValue(rows, accountName, SideOf(accountName))
    ensures r.Success? ==> r.value[TotalKey] == |ps| * NamedTotal(rows, accountName, SideOf(accountName))
    ensures forall i :: r.Success? && ValidPeriods(ps) && OnlyNamedAt(rows, accountName, i) ==>
      r.value[TotalKey] == SumOver(ps, r.value)
  {
    var side := SideOf(accountName);
    var scan := ScanNamed(accountName, side, |ps|, rows);
    if scan.Failure? {
      return Failure(scan.error);
    }
    var (value, total) := scan.value;
    var result := Fill(Zeros(ps), ps, value)[TotalKey := total];
    forall j | ValidPeriods(ps) && OnlyNamedAt(rows, accountName, j)
      ensures result[TotalKey] == SumOver(ps, result)
    {
      SingleRowTotal(accountName, side, ps, rows, j, result);
    }
    r := Success(result);
  }

  /**
   The row loop of `get_working_capital_change_from_tb`: each matching row
   overwrites the value every one of the `n` periods shows and adds it to the
   total once per period. Only that inner period loop reads the value, so a
   name without a rule fails only when there is a period to read it for.
   */
  method ScanNamed(accountName: string, side: WorkingCapitalSide, n: nat, rows: seq<TbAccount>)
    returns (r: Result<(int, int), WorkingCapitalError>)
    ensures r.Failure? <==>
      side == NoRule && n > 0 && exists i :: 0 <= i < |rows| && rows[i].accountName == accountName
    ensures r.Success? ==> r.value == (LastNamedValue(rows, accountName, side), n * NamedTotal(rows, accountName, side))
  {
    var value, total := 0, 0;
    var i := 0;
    while i < |rows|
      invariant 0 <= i <= |rows|
      invariant value == LastNamedValue(rows[..i], accountName, side)
      invariant total == n * NamedTotal(rows[..i], accountName, side)
      invariant side == NoRule && n > 0 ==> forall j :: 0 <= j < i ==> rows[j].accountName != accountName
    {
      NamedStep(rows, i, accountName, side);
      if rows[i].accountName == accountName {
        if side == NoRule && n > 0 {
          return Failure(ValueUnassigned(accountName));
        }
        Distribute(n, NamedTotal(rows[..i], accountName, side), WorkingCapitalValue(side, rows[i]));
        value := WorkingCapitalValue(side, rows[i]);
        total := total + n * value;
      }
      i := i + 1;
    }
    assert rows[..i] == rows;
    r := Success((value, total));
  }

  /** `rows[i]` is the only row named `name`. */
  ghost predicate OnlyNamedAt(rows: seq<TbAccount>, name: string, i: int) {
    && 0 <= i < |rows|
    && rows[i].accountName == name
    && forall j :: 0 <= j < |rows| && j != i ==> rows[j].accountName != name
  }

  /** The only row carrying a name is the last one carrying it. */
  lemma SingleLastNamed(rows: seq<TbAccount>, name: string, i: int)
    requires OnlyNamedAt(rows, name, i)
    ensures LastNamed(rows, name) == Some(rows[i])
  {
    var r := LastNamed(rows, name);
    assert r.Some? by {
      assert rows[i].accountName == name;
    }
    var w :| IsLastNamed(rows, name, w) && rows[w] == r.value;
    assert w == i;
  }

  /** With a single matching row every period shows its value, so "total" is their sum. */
  lemma SingleRowTotal(
    accountName: string, side: WorkingCapitalSide, ps: seq<Key>, rows: seq<TbAccount>, j: int, result: map<Key, int>)
    requires ValidPeriods(ps) && OnlyNamedAt(rows, accountName, j)
    requires forall k :: k in ps && k != TotalKey ==> k in result && result[k] == LastNamedValue(rows, accountName, side)
    requires TotalKey in result && result[TotalKey] == |ps| * NamedTotal(rows, accountName, side)
    ensures result[TotalKey] == SumOver(ps, result)
  {
    var v := WorkingCapitalValue(side, rows[j]);
    SingleLastNamed(rows, accountName, j);
    LastNamedValueOfLast(rows, accountName, side);
    SingleNamedTotal(rows, accountName, side, j);
    assert forall k :: k in ps ==> k != TotalKey;
    SumOverConstant(ps, result, v);
  }

  /** With one matching row, `NamedTotal` is that row's value. */
  lemma {:induction false} SingleNamedTotal(rows: seq<TbAccount>, name: string, side: WorkingCapitalSide, i: int)
    requires OnlyNamedAt(rows, name, i)
    ensures NamedTotal(rows, name, side) == WorkingCapitalValue(side, rows[i])
    decreases |rows|
  {
    var init := rows[..|rows| - 1];
    if i == |rows| - 1 {
      NoneNamedTotal(init, name, side);
    } else {
      SingleNamedTotal(init, name, side, i);
    }
  }

  /** Rows none of which is named `name` contribute nothing. */
  lemma {:induction false} NoneNamedTotal(rows: seq<TbAccount>, name: string, side: WorkingCapitalSide)
    requires forall j :: 0 <= j < |rows| ==> rows[j].accountName != name
    ensures NamedTotal(rows, name, side) == 0
    decreases |rows|
  {
    if rows != [] {
      NoneNamedTotal(rows[..|rows| - 1], name, side);
    }
  }

  // ---------------------------------------------------------------------
  // Property, plant and equipment
  // ---------------------------------------------------------------------

  const PpeAccount: string := "PROPERTY, PLANT & EQUIPMENT AIRPORT"
  const DepreciationAccount: string := "ACCUMULATED DEPRECIATION"

  /** Which side of the fixed-asset accounts the row reports. */
  datatype PpeMovementType = Purchase | Disposal

  function Abs(x: int): int {
    if x < 0 then -x else x
  }

  /**
   A purchase is the debit movement of the asset net of accumulated
   depreciation, always shown as an outflow; a disposal is the credit
   movement net of depreciation. A missing depreciation row counts as 0.
   */
  function PpeValue(ppe: TbAccount, dep: Option<TbAccount>, movement: PpeMovementType): int {
    match movement
    case Purchase => -Abs(ppe.debit - (if dep.Some? then dep.value.debit else 0))
    case Disposal => ppe.credit - (if dep.Some? then dep.value.credit else 0)
  }

  /**
   `get_ppe_movement_from_tb`: the same value in every period, read from the
   last asset row and the last depreciation row; all zeros when the asset
   row is missing.
   */
  function PpeMovement(ps: seq<Key>, rows: seq<TbAccount>, movement: PpeMovementType): (r: map<Key, int>)
    ensures r.Keys == (set k | k in ps) + {TotalKey}
    ensures LastNamed(rows, PpeAccount).None? ==> forall k :: k in r ==> r[k] == 0
    ensures LastNamed(rows, PpeAccount).Some? ==>
      var v := PpeValue(LastNamed(rows, PpeAccount).value, LastNamed(rows, DepreciationAccount), movement);
      && (forall k :: k in ps && k != TotalKey ==> r[k] == v)
      && r[TotalKey] == |ps| * v
    ensures movement == Purchase ==> forall k :: k in r ==> r[k] <= 0
  {
    match LastNamed(rows, PpeAccount)
    case None => Zeros(ps)[TotalKey := 0]
    case Some(ppe) =>
      RepeatValue(ps, PpeValue(ppe, LastNamed(rows, DepreciationAccount), movement))
  }

  /**
   The period loop of `get_ppe_movement_from_tb`: `v` under every period key,
   and a total adding `v` once per listed period, so a value that is never
   positive gives no positive entry.
   */
  function RepeatValue(ps: seq<Key>, v: int): (r: map<Key, int>)
    ensures r.Keys == (set k | k in ps) + {TotalKey}
    ensures forall k :: k in ps && k != TotalKey ==> r[k] == v
    ensures r[TotalKey] == |ps| * v
    ensures v <= 0 ==> forall k :: k in r ==> r[k] <= 0
  {
    Fill(map[], ps, v)[TotalKey := |ps| * v]
  }

  // ---------------------------------------------------------------------
  // Cash and bank
  // ---------------------------------------------------------------------

  /** Which balance of the cash accounts is read. */
  datatype BalanceType = OpeningBalance | ClosingBalance

  /** The two trial-balance accounts holding cash. */
  predicate IsCashAccount(a: TbAccount) {
    a.accountName == "Bank Accounts" || a.accountName == "Cash In Hand"
  }

  /** The opening side is read from the debit column, the closing side from the credit column. */
  function CashValue(a: TbAccount, balance: BalanceType): int {
    match balance
    case OpeningBalance => a.openingDebit
    case ClosingBalance => a.closingCredit
  }

  /** The balance summed over every selected row. */
  function CashSum(rows: seq<TbAccount>, balance: BalanceType, select: TbAccount -> bool): int
    decreases |rows|
  {
    if rows == [] then 0
    else
      var last := rows[|rows| - 1];
      CashSum(rows[..|rows| - 1], balance, select) + (if select(last) then CashValue(last, balance) else 0)
  }

  /**
   `get_cash_and_bank_balance`: each period holds the summed balance of the
   bank and cash-in-hand rows; "total" counts that balance once per period.
   */
  method CashAndBankBalance(ps: seq<Key>, rows: seq<TbAccount>, balance: BalanceType)
    returns (data: map<Key, int>)
    ensures data.Keys == (set k | k in ps) + {TotalKey}
    ensures forall k :: k in ps && k != TotalKey ==> data[k] == Count(ps, k) * CashSum(rows, balance, IsCashAccount)
    ensures ValidPeriods(ps) ==> forall k :: k in ps ==> data[k] == CashSum(rows, balance, IsCashAccount)
    ensures data[TotalKey] == |ps| * CashSum(rows, balance, IsCashAccount)
    ensures ValidPeriods(ps) ==> data[TotalKey] == SumOver(ps, data)
  {
    data := SumBalances(ps, rows, balance, IsCashAccount);
    if ValidPeriods(ps) {
      SumOverConstant(ps, data, CashSum(rows, balance, IsCashAccount));
    }
  }

  /**
   The row loop of `get_cash_and_bank_balance` for any row test: a selected
   row adds its balance to every period, and to the total once per period.
   */
  method SumBalances(ps: seq<Key>, rows: seq<TbAccount>, balance: BalanceType, select: TbAccount -> bool)
    returns (data: map<Key, int>)
    ensures data.Keys == (set k | k in ps) + {TotalKey}
    ensures forall k :: k in ps && k != TotalKey ==> data[k] == Count(ps, k) * CashSum(rows, balance, select)
    ensures ValidPeriods(ps) ==> forall k :: k in ps ==> data[k] == CashSum(rows, balance, select)
    ensures data[TotalKey] == |ps| * CashSum(rows, balance, select)
  {
    data := Zeros(ps);
    var total := 0;
    var i := 0;
    while i < |rows|
      invariant 0 <= i <= |rows|
      invariant CashFold(rows[..i], ps, balance, select) == (data, total)
    {
      CashFoldStep(rows, i, ps, balance, select);
      if select(rows[i]) {
        var value := CashValue(rows[i], balance);
        data := AddEach(data, ps, value);
        total := total + |ps| * value;
      }
      i := i + 1;
    }
    CashFoldResult(rows, ps, balance, select);
    data := data[TotalKey := total];
  }

  /** One more row extends the fold by that row. */
  lemma CashFoldStep(rows: seq<TbAccount>, i: nat, ps: seq<Key>, balance: BalanceType, select: TbAccount -> bool)
    requires i < |rows|
    ensures CashFold(rows[..i + 1], ps, balance, select)
      == CashAdd(CashFold(rows[..i], ps, balance, select), ps, rows[i], balance, select)
  {
    assert rows[..i + 1][..i] == rows[..i] && rows[..i + 1][i] == rows[i];
  }

  /** The fold over all rows, read per period and in total; with distinct keys each period holds the balance once. */
  lemma CashFoldResult(rows: seq<TbAccount>, ps: seq<Key>, balance: BalanceType, select: TbAccount -> bool)
    ensures var r := CashFold(rows[..|rows|], ps, balance, select);
      && r.0.Keys == (set k | k in ps)
      && (forall k :: k in ps ==> r.0[k] == Count(ps, k) * CashSum(rows, balance, select))
      && (ValidPeriods(ps) ==> forall k :: k in ps ==> r.0[k] == CashSum(rows, balance, select))
      && r.1 == |ps| * CashSum(rows, balance, select)
  {
    assert rows[..|rows|] == rows;
    CashFoldMeaning(rows, ps, balance, select);
    if ValidPeriods(ps) {
      forall k | k in ps
        ensures Count(ps, k) == 1
      {
        DistinctOnce(ps, k);
      }
    }
  }

  /** Reference definition of the row loop: the per-period map and the running total after `rows`. */
  function CashFold(rows: seq<TbAccount>, ps: seq<Key>, balance: BalanceType, select: TbAccount -> bool)
    : (map<Key, int>, int)
    decreases |rows|
  {
    if rows == [] then (Zeros(ps), 0)
    else CashAdd(CashFold(rows[..|rows| - 1], ps, balance, select), ps, rows[|rows| - 1], balance, select)
  }

  /** One pass of the row loop: a cash row adds its balance to every period, and to the total once per period. */
  function CashAdd(
    state: (map<Key, int>, int), ps: seq<Key>, row: TbAccount, balance: BalanceType, select: TbAccount -> bool)
    : (map<Key, int>, int)
  {
    if select(row) then
      var value := CashValue(row, balance);
      (AddEach(state.0, ps, value), state.1 + |ps| * value)
    else state
  }

  /**
   After `rows` every period holds its listing count times the cash balance
   and the total holds the balance once per period.
   */
  lemma {:induction false} CashFoldMeaning(
    rows: seq<TbAccount>, ps: seq<Key>, balance: BalanceType, select: TbAccount -> bool)
    ensures var r := CashFold(rows, ps, balance, select);
      && r.0.Keys == (set k | k in ps)
      && (forall k :: k in ps ==> r.0[k] == Count(ps, k) * CashSum(rows, balance, select))
      && r.1 == |ps| * CashSum(rows, balance, select)
    decreases |rows|
  {
    if rows != [] {
      var init, last := rows[..|rows| - 1], rows[|rows| - 1];
      CashFoldMeaning(init, ps, balance, select);
      var s := CashSum(init, balance, select);
      if select(last) {
        var value := CashValue(last, balance);
        var prev := CashFold(init, ps, balance, select);
        forall k | k in ps
          ensures Get0(AddEach(prev.0, ps, value), k) == Count(ps, k) * (s + value)
        {
          ScaledStep(Count(ps, k), s, value, prev.0[k], Get0(AddEach(prev.0, ps, value), k));
        }
        Distribute(|ps|, s, value);
      }
    }
  }

  // ---------------------------------------------------------------------
  // Interest expense from the profit-and-loss statement
  // ---------------------------------------------------------------------

  /**
   One profit-and-loss line: parent account, account name (missing reads as
   "") and its amount per period key (missing or empty reads as 0).
   */
  datatype PlRow = PlRow(parentAccount: string, accountName: string, values: map<Key, int>)

  const FinanceCostMarker: string := "FINANCE COST"
  const InterestMarker: string := "INTEREST"

  /** An interest line: the upper-cased parent account mentions finance cost and the upper-cased name mentions interest. */
  predicate IsInterestRow(row: PlRow) {
    Contains(FinanceCostMarker, Upper(row.parentAccount)) && Contains(InterestMarker, Upper(row.accountName))
  }

  /** The selected lines' amounts for period `k`, added up. */
  function SelectedFor(rows: seq<PlRow>, k: Key, select: PlRow -> bool): int
    decreases |rows|
  {
    if rows == [] then 0
    else
      var last := rows[|rows| - 1];
      SelectedFor(rows[..|rows| - 1], k, select)
      + (if select(last) then Get0(last.values, k) else 0)
  }

  /** The selected lines' amounts summed over every listed period. */
  function SelectedOverPeriods(rows: seq<PlRow>, ps: seq<Key>, select: PlRow -> bool): int
    decreases |rows|
  {
    if rows == [] then 0
    else
      var last := rows[|rows| - 1];
      SelectedOverPeriods(rows[..|rows| - 1], ps, select)
      + (if select(last) then SumOver(ps, last.values) else 0)
  }

  /**
   `get_interest_expense_from_pl`: each period holds the interest lines'
   amounts for that period; "total" sums them over all periods.
   */
  method InterestExpenseFromPl(ps: seq<Key>, rows: seq<PlRow>) returns (data: map<Key, int>)
    ensures data.Keys == (set k | k in ps) + {TotalKey}
    ensures forall k :: k in ps && k != TotalKey ==>
      data[k] == Count(ps, k) * SelectedFor(rows, k, IsInterestRow)
    ensures ValidPeriods(ps) ==> forall k :: k in ps ==>
      data[k] == SelectedFor(rows, k, IsInterestRow)
    ensures data[TotalKey] == SelectedOverPeriods(rows, ps, IsInterestRow)
    ensures ValidPeriods(ps) ==> data[TotalKey] == SumOver(ps, data)
  {
    data := SumSelectedLines(ps, rows, IsInterestRow);
    if ValidPeriods(ps) {
      SumOverSelected(rows, ps, IsInterestRow, data);
    }
  }

  /**
   The loop of `get_interest_expense_from_pl` for any line test: add every
   selected line's amounts into each period and into the total.
   */
  method SumSelectedLines(ps: seq<Key>, rows: seq<PlRow>, select: PlRow -> bool)
    returns (data: map<Key, int>)
    ensures data.Keys == (set k | k in ps) + {TotalKey}
    ensures forall k :: k in ps && k != TotalKey ==>
      data[k] == Count(ps, k) * SelectedFor(rows, k, select)
    ensures ValidPeriods(ps) ==> forall k :: k in ps ==> data[k] == SelectedFor(rows, k, select)
    ensures data[TotalKey] == SelectedOverPeriods(rows, ps, select)
  {
    data := Zeros(ps);
    var total := 0;
    var i := 0;
    while i < |rows|
      invariant 0 <= i <= |rows|
      invariant SelectedFold(rows[..i], ps, select) == (data, total)
    {
      SelectedFoldStep(rows, i, ps, select);
      if select(rows[i]) {
        data := AddAmounts(data, ps, rows[i].values);
        total := total + SumOver(ps, rows[i].values);
      }
      i := i + 1;
    }
    SelectedFoldResult(rows, ps, select);
    data := data[TotalKey := total];
  }

  /** Reference definition of the line loop: the per-period map and the running total after `rows`. */
  function SelectedFold(rows: seq<PlRow>, ps: seq<Key>, select: PlRow -> bool): (map<Key, int>, int)
    decreases |rows|
  {
    if rows == [] then (Zeros(ps), 0)
    else SelectedAdd(SelectedFold(rows[..|rows| - 1], ps, select), ps, rows[|rows| - 1], select)
  }

  /** One pass of the line loop: a selected line adds its amounts per period and into the total. */
  function SelectedAdd(state: (map<Key, int>, int), ps: seq<Key>, row: PlRow, select: PlRow -> bool): (map<Key, int>, int) {
    if select(row) then (AddAmounts(state.0, ps, row.values), state.1 + SumOver(ps, row.values))
    else state
  }

  /** One more line extends the fold by that line. */
  lemma SelectedFoldStep(rows: seq<PlRow>, i: nat, ps: seq<Key>, select: PlRow -> bool)
    requires i < |rows|
    ensures SelectedFold(rows[..i + 1], ps, select) == SelectedAdd(SelectedFold(rows[..i], ps, select), ps, rows[i], select)
  {
    assert rows[..i + 1][..i] == rows[..i] && rows[..i + 1][i] == rows[i];
  }

  /** The fold over all lines, read per period and in total; with distinct keys each period holds its sum once. */
  lemma SelectedFoldResult(rows: seq<PlRow>, ps: seq<Key>, select: PlRow -> bool)
    ensures var r := SelectedFold(rows[..|rows|], ps, select);
      && r.0.Keys == (set k | k in ps)
      && (forall k :: k in ps ==> r.0[k] == Count(ps, k) * SelectedFor(rows, k, select))
      && (ValidPeriods(ps) ==> forall k :: k in ps ==> r.0[k] == SelectedFor(rows, k, select))
      && r.1 == SelectedOverPeriods(rows, ps, select)
  {
    assert rows[..|rows|] == rows;
    SelectedFoldMeaning(rows, ps, select);
    if ValidPeriods(ps) {
      forall k | k in ps
        ensures Count(ps, k) == 1
      {
        DistinctOnce(ps, k);
      }
    }
  }

  /**
   After `rows` every period holds its listing count times that period's sum
   over the selected lines, and the total holds their amounts over all periods.
   */
  lemma {:induction false} SelectedFoldMeaning(rows: seq<PlRow>, ps: seq<Key>, select: PlRow -> bool)
    ensures var r := SelectedFold(rows, ps, select);
      && r.0.Keys == (set k | k in ps)
      && (forall k :: k in ps ==> r.0[k] == Count(ps, k) * SelectedFor(rows, k, select))
      && r.1 == SelectedOverPeriods(rows, ps, select)
    decreases |rows|
  {
    if rows != [] {
      var init, last := rows[..|rows| - 1], rows[|rows| - 1];
      SelectedFoldMeaning(init, ps, select);
      if select(last) {
        var prev := SelectedFold(init, ps, select);
        var r := AddAmounts(prev.0, ps, last.values);
        forall k | k in ps
          ensures r[k] == Count(ps, k) * SelectedFor(rows, k, select)
        {
          var n, s, a := Count(ps, k), SelectedFor(init, k, select), Get0(last.values, k);
          ScaledStep(n, s, a, prev.0[k], r[k]);
        }
      }
    }
  }

  /**
   Adding up the per-period sums over the periods gives the selected lines'
   amounts over all periods: the order of the two sums does not matter.
   */
  lemma {:induction false} SumOverSelected(rows: seq<PlRow>, ps: seq<Key>, select: PlRow -> bool, m: map<Key, int>)
    requires forall k :: k in ps ==> k in m && m[k] == SelectedFor(rows, k, select)
    ensures SumOver(ps, m) == SelectedOverPeriods(rows, ps, select)
    decreases |ps|
  {
    if ps == [] {
      NoPeriodsSelected(rows, select);
    } else {
      var init := ps[..|ps| - 1];
      assert forall k :: k in init ==> k in ps;
      SumOverSelected(rows, init, select, m);
      assert ps[|ps| - 1] in ps;
      SelectedOverLastPeriod(rows, ps, select);
    }
  }

  /** Over no periods the selected lines add up to nothing. */
  lemma {:induction false} NoPeriodsSelected(rows: seq<PlRow>, select: PlRow -> bool)
    ensures SelectedOverPeriods(rows, [], select) == 0
    decreases |rows|
  {
    if rows != [] {
      NoPeriodsSelected(rows[..|rows| - 1], select);
    }
  }

  /** One more period adds that period's sum over the selected lines. */
  lemma {:induction false} SelectedOverLastPeriod(rows: seq<PlRow>, ps: seq<Key>, select: PlRow -> bool)
    requires ps != []
    ensures SelectedOverPeriods(rows, ps, select)
         == SelectedOverPeriods(rows, ps[..|ps| - 1], select) + SelectedFor(rows, ps[|ps| - 1], select)
    decreases |rows|
  {
    if rows != [] {
      SelectedOverLastPeriod(rows[..|rows| - 1], ps, select);
    }
  }
}
