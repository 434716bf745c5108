/**
 Reading movements out of trial-balance rows by account pattern: the
 difference between a row's opening and closing balances, found by a
 case-insensitive substring search over the account names.
 */
module TrialBalance {
  import opened Text

  /**
   One account line of a trial balance. A numeric column that is missing or
   empty reads as 0; a missing account name reads as "".
   */
  datatype TbAccount = TbAccount(
    accountName: string,
    openingDebit: int,
    closingDebit: int,
    openingCredit: int,
    closingCredit: int,
    debit: int,
    credit: int)

  /** An element of the list the trial balance returns, which need not be a record. */
  datatype TbEntry = Record(account: TbAccount) | NotARecord

  /**
   The growth of an account's credit side net of the growth of its debit
   side between opening and closing.
   */
  function CreditMovement(a: TbAccount): int {
    (a.closingCredit - a.openingCredit) - (a.closingDebit - a.openingDebit)
  }

  /** A record whose account name contains `pattern`, ignoring case; other entries never match. */
  predicate MatchesLabel(pattern: string, e: TbEntry) {
    e.Record? && ContainsIgnoringCase(pattern, e.account.accountName)
  }

  ghost predicate NoMatch(pattern: string, rows: seq<TbEntry>) {
    forall i :: 0 <= i < |rows| ==> !MatchesLabel(pattern, rows[i])
  }

  /** `rows[i]` matches and no earlier entry does. */
  ghost predicate IsFirstMatch(pattern: string, rows: seq<TbEntry>, i: int) {
    && 0 <= i < |rows|
    && MatchesLabel(pattern, rows[i])
    && forall j :: 0 <= j < i ==> !MatchesLabel(pattern, rows[j])
  }

  /** Reference definition: the credit movement of the first matching record, 0 when none matches. */
  function FirstMatchMovement(pattern: string, rows: seq<TbEntry>): (d: int)
    ensures NoMatch(pattern, rows) ==> d == 0
    ensures forall i :: IsFirstMatch(pattern, rows, i) ==> d == CreditMovement(rows[i].account)
  {
    var i := FirstMatchIndex(pattern, rows);
    if i < 0 then 0 else CreditMovement(rows[i].account)
  }

  /** The position of the first matching record, or -1 when none matches. */
  function FirstMatchIndex(pattern: string, rows: seq<TbEntry>): (i: int)
    ensures -1 <= i < |rows|
    ensures i == -1 <==> NoMatch(pattern, rows)
    ensures i >= 0 ==> IsFirstMatch(pattern, rows, i)
    decreases |rows|
  {
    if rows == [] then -1
    else if MatchesLabel(pattern, rows[0]) then 0
    else
      var j := FirstMatchIndex(pattern, rows[1..]);
      assert forall k :: 1 <= k < |rows| ==> rows[k] == rows[1..][k - 1];
      if j < 0 then -1 else j + 1
  }

  /**
   `get_tb_diff_by_label` over the rows the trial balance returned: skip
   non-records, stop at the first account whose name contains the pattern.
   */
  method TbDiffByLabel(pattern: string, rows: seq<TbEntry>) returns (difference: int)
    ensures difference == FirstMatchMovement(pattern, rows)
  {
    var i := 0;
    while i < |rows|
      invariant 0 <= i <= |rows|
      invariant forall j :: 0 <= j < i ==> !MatchesLabel(pattern, rows[j])
    {
      if rows[i].Record? {
        var accountName := rows[i].account.accountName;
        if ContainsIgnoringCase(pattern, accountName) {
          assert IsFirstMatch(pattern, rows, i);
          return CreditMovement(rows[i].account);
        }
      }
      i := i + 1;
    }
    return 0;
  }

  /** Records appended after a match cannot change which record matches first. */
  lemma {:induction false} LaterRowsIgnored(pattern: string, rows: seq<TbEntry>, more: seq<TbEntry>)
    requires !NoMatch(pattern, rows)
    ensures FirstMatchMovement(pattern, rows + more) == FirstMatchMovement(pattern, rows)
  {
    var i :| 0 <= i < |rows| && MatchesLabel(pattern, rows[i]);
    FirstIndexExists(pattern, rows, i);
    var f :| IsFirstMatch(pattern, rows, f);
    assert IsFirstMatch(pattern, rows + more, f) by {
      forall j | 0 <= j < f ensures !MatchesLabel(pattern, (rows + more)[j]) {
        assert (rows + more)[j] == rows[j];
      }
      assert (rows + more)[f] == rows[f];
    }
  }

  /** Any matching position has a first matching position at or before it. */
  lemma {:induction false} FirstIndexExists(pattern: string, rows: seq<TbEntry>, i: int)
    requires 0 <= i < |rows| && MatchesLabel(pattern, rows[i])
    ensures exists f :: IsFirstMatch(pattern, rows, f)
    decreases i
  {
    if forall j :: 0 <= j < i ==> !MatchesLabel(pattern, rows[j]) {
      assert IsFirstMatch(pattern, rows, i);
    } else {
      var j :| 0 <= j < i && MatchesLabel(pattern, rows[j]);
      FirstIndexExists(pattern, rows, j);
    }
  }

  /** An entry that is not a record is skipped wherever it stands. */
  lemma {:induction false} NonRecordsSkipped(pattern: string, before: seq<TbEntry>, after: seq<TbEntry>)
    ensures FirstMatchMovement(pattern, before + [NotARecord] + after)
         == FirstMatchMovement(pattern, before + after)
    decreases |before|
  {
    if before == [] {
      assert before + [NotARecord] + after == [NotARecord] + after;
      assert ([NotARecord] + after)[1..] == after;
      assert before + after == after;
    } else {
      assert (before + [NotARecord] + after)[0] == before[0];
      assert (before + [NotARecord] + after)[1..] == before[1..] + [NotARecord] + after;
      assert (before + after)[0] == before[0];
      assert (before + after)[1..] == before[1..] + after;
      NonRecordsSkipped(pattern, before[1..], after);
    }
  }

  /** The two withholding-tax accounts the report nets together. */
  const WithholdingLabels: seq<string> := ["WITHHOLDING TAX 7.5%", "WITHHOLDING TAX 3%"]

  /** Reference definition: the first-match movements of the patterns, added up. */
  function LabelsTotal(patterns: seq<string>, rows: seq<TbEntry>): int
    decreases |patterns|
  {
    if patterns == [] then 0
    else LabelsTotal(patterns[..|patterns| - 1], rows) + FirstMatchMovement(patterns[|patterns| - 1], rows)
  }

  /**
   `get_withholding_tax_total`: for each pattern, add the movement of the first
   record whose name contains it; the inner search, which skips non-records
   and breaks at the first match, is the single-label scan. A pattern nobody
   matches adds nothing.
   */
  method SumFirstMatches(patterns: seq<string>, rows: seq<TbEntry>) returns (total: int)
    ensures total == LabelsTotal(patterns, rows)
  {
    total := 0;
    var li := 0;
    while li < |patterns|
      invariant 0 <= li <= |patterns|
      invariant total == LabelsTotal(patterns[..li], rows)
    {
      var difference := TbDiffByLabel(patterns[li], rows);
      assert patterns[..li + 1][..li] == patterns[..li];
      total := total + difference;
      li := li + 1;
    }
    assert patterns[..li] == patterns;
  }

  /** The withholding total is the pattern lookup applied to each of the two accounts. */
  lemma WithholdingIsTwoLookups(rows: seq<TbEntry>)
    ensures LabelsTotal(WithholdingLabels, rows)
         == FirstMatchMovement("WITHHOLDING TAX 7.5%", rows) + FirstMatchMovement("WITHHOLDING TAX 3%", rows)
  {
    assert WithholdingLabels[..1] == ["WITHHOLDING TAX 7.5%"];
    assert WithholdingLabels[..1][..0] == [];
  }
}
