/**
 * Filing-reference resolution: `CompanyData._handle_df_of_references` and the
 * `tail(year_span)` step of `CompanyData.fetch_references`.
 *
 * The reference table of one company is sorted in place by
 * (`ExerciseDates.endDate`, `DepositDate`), loses the rows without an
 * `AccountingDataURL`, then loses every row whose accounting period
 * (`startDate`, `endDate`) occurs again further down, and finally the last
 * `year_span` rows are kept. There is no sort after the deduplication.
 * An empty reference list has no column to sort by and raises.
 */
module References {
  import opened Wrappers
  import opened Sorting

  /** An ISO "yyyy-mm-dd" date; such strings compare in calendar order, as these integers do. */
  type Date = int

  /** One row of the reference table: the columns the resolution reads. */
  datatype FilingReference = FilingReference(
    referenceNumber: string,
    startDate: Date,
    endDate: Date,
    depositDate: Date,
    accountingDataUrl: Option<string>)

  /** The accounting period: the pair `drop_duplicates` compares. */
  function Period(r: FilingReference): (Date, Date) {
    (r.startDate, r.endDate)
  }

  /** The sort order: by `endDate`, then by `DepositDate`. */
  predicate ByEndThenDeposit(a: FilingReference, b: FilingReference) {
    a.endDate < b.endDate || (a.endDate == b.endDate && a.depositDate <= b.depositDate)
  }

  lemma EndThenDepositIsTotalPreorder()
    ensures TotalPreorder(ByEndThenDeposit)
  {
  }

  /** `sort_values(['ExerciseDates.endDate', 'DepositDate'])`: a stable sort on both keys. */
  function SortReferences(rows: seq<FilingReference>): seq<FilingReference> {
    SortBy(rows, ByEndThenDeposit)
  }

  /** `dropna(subset=['AccountingDataURL'])`: the rows that carry a URL, in order. */
  function WithUrl(rows: seq<FilingReference>): seq<FilingReference> {
    if rows == [] then []
    else
      var last := rows[|rows| - 1];
      WithUrl(rows[..|rows| - 1]) + (if last.accountingDataUrl.Some? then [last] else [])
  }

  function Periods(rows: seq<FilingReference>): set<(Date, Date)> {
    set r | r in rows :: Period(r)
  }

  /**
   * `drop_duplicates(subset=[startDate, endDate], keep='last')`: a row stays
   * exactly when no later row has the same accounting period.
   */
  function DropDuplicatePeriods(rows: seq<FilingReference>): seq<FilingReference> {
    if rows == [] then []
    else if Period(rows[0]) in Periods(rows[1..]) then DropDuplicatePeriods(rows[1..])
    else [rows[0]] + DropDuplicatePeriods(rows[1..])
  }

  /** `_handle_df_of_references`: sort, drop rows without URL, drop earlier duplicates. */
  function Handled(rows: seq<FilingReference>): seq<FilingReference> {
    DropDuplicatePeriods(WithUrl(SortReferences(rows)))
  }

  /**
   * `DataFrame.tail(n)`: the last `n` rows for `n > 0` (all when there are
   * fewer), none for `n == 0`, and all but the first `-n` rows for `n < 0`.
   */
  function Tail<T>(rows: seq<T>, n: int): (r: seq<T>)
    ensures n >= 0 ==> |r| == (if n < |rows| then n else |rows|)
    ensures |r| <= |rows| && r == rows[|rows| - |r|..]
    ensures n < 0 ==> |r| == (if -n < |rows| then |rows| + n else 0)
  {
    if n == 0 then []
    else if n > 0 then (if n < |rows| then rows[|rows| - n..] else rows)
    else (if -n < |rows| then rows[-n..] else [])
  }

  /** `fetch_references` once the table has arrived: handle it, then keep `year_span` rows. */
  function Resolve(rows: seq<FilingReference>, yearSpan: int): seq<FilingReference> {
    Tail(Handled(rows), yearSpan)
  }

  /** The reference table, which `_handle_df_of_references` changes in place. */
  class ReferenceTable {
    var rows: seq<FilingReference>

    constructor (rows: seq<FilingReference>)
      ensures this.rows == rows
    {
      this.rows := rows;
    }

    method SortValues()
      modifies this
      ensures rows == SortReferences(old(rows))
    {
      rows := InsertionSort(rows, ByEndThenDeposit);
    }

    method DropMissingUrl()
      modifies this
      ensures rows == WithUrl(old(rows))
    {
      var kept := [];
      var i := 0;
      while i < |rows|
        invariant 0 <= i <= |rows|
        invariant kept == WithUrl(rows[..i])
      {
        assert rows[..i + 1][..i] == rows[..i];
        if rows[i].accountingDataUrl.Some? {
          kept := kept + [rows[i]];
        }
        i := i + 1;
      }
      assert rows[..|rows|] == rows;
      rows := kept;
    }

    method DropDuplicates()
      modifies this
      ensures rows == DropDuplicatePeriods(old(rows))
    {
      var kept := [];
      var seenPeriods: set<(Date, Date)> := {};
      var i := |rows|;
      while i > 0
        invariant 0 <= i <= |rows|
        invariant kept == DropDuplicatePeriods(rows[i..])
        invariant seenPeriods == Periods(rows[i..])
      {
        i := i - 1;
        var r := rows[i];
        assert rows[i..][1..] == rows[i + 1..];
        assert rows[i..] == [r] + rows[i + 1..];
        if Period(r) !in seenPeriods {
          kept := [r] + kept;
        }
        seenPeriods := seenPeriods + {Period(r)};
      }
      rows := kept;
    }

    /** `_handle_df_of_references`. */
    method HandleReferences()
      modifies this
      ensures rows == Handled(old(rows))
    {
      SortValues();
      DropMissingUrl();
      DropDuplicates();
    }
  }

  /**
   * The `KeyError` of `sort_values`: an empty reference list normalises to a
   * table without any column, so the end-date and deposit-date columns are missing.
   */
  datatype ReferenceError = MissingSortColumns

  /**
   * `fetch_references` from the decoded table on: an empty list raises,
   * anything else is resolved and cut to its last `yearSpan` rows.
   */
  method FetchReferences(raw: seq<FilingReference>, yearSpan: int) returns (resolved: Result<seq<FilingReference>, ReferenceError>)
    ensures resolved.Err? <==> raw == []
    ensures resolved.Ok? ==> resolved.value == Resolve(raw, yearSpan)
  {
    if raw == [] {
      return Err(MissingSortColumns);
    }
    var table := new ReferenceTable(raw);
    table.HandleReferences();
    resolved := Ok(Tail(table.rows, yearSpan));
  }

  // ---------------------------------------------------------------------
  // What each step keeps

  lemma {:induction false} WithUrlMembers(rows: seq<FilingReference>)
    ensures forall x :: x in WithUrl(rows) <==> x in rows && x.accountingDataUrl.Some?
  {
    if rows != [] {
      WithUrlMembers(rows[..|rows| - 1]);
      assert rows == rows[..|rows| - 1] + [rows[|rows| - 1]];
    }
  }

  lemma {:induction false} WithUrlSorted(rows: seq<FilingReference>)
    requires SortedBy(rows, ByEndThenDeposit)
    ensures SortedBy(WithUrl(rows), ByEndThenDeposit)
  {
    if rows != [] {
      var init, last := rows[..|rows| - 1], rows[|rows| - 1];
      WithUrlSorted(init);
      WithUrlMembers(init);
      forall x | x in WithUrl(init) ensures ByEndThenDeposit(x, last) {
        var i :| 0 <= i < |init| && init[i] == x;
      }
    }
  }

  lemma {:induction false} DropDuplicatesMembers(rows: seq<FilingReference>)
    ensures forall x :: x in DropDuplicatePeriods(rows) ==> x in rows
    ensures Periods(DropDuplicatePeriods(rows)) == Periods(rows)
  {
    if rows != [] {
      DropDuplicatesMembers(rows[1..]);
      assert rows == [rows[0]] + rows[1..];
      assert Periods(rows) == {Period(rows[0])} + Periods(rows[1..]);
      if Period(rows[0]) !in Periods(rows[1..]) {
        var d := DropDuplicatePeriods(rows[1..]);
        assert Periods([rows[0]] + d) == {Period(rows[0])} + Periods(d);
      }
    }
  }

  lemma {:induction false} DropDuplicatesSorted(rows: seq<FilingReference>)
    requires SortedBy(rows, ByEndThenDeposit)
    ensures SortedBy(DropDuplicatePeriods(rows), ByEndThenDeposit)
  {
    if rows != [] {
      DropDuplicatesSorted(rows[1..]);
      DropDuplicatesMembers(rows[1..]);
      var d := DropDuplicatePeriods(rows[1..]);
      forall x | x in d ensures ByEndThenDeposit(rows[0], x) {
        var i :| 1 <= i < |rows| && rows[i] == x;
      }
    }
  }

  /** No two rows left by `drop_duplicates` share an accounting period. */
  lemma {:induction false} DropDuplicatesDistinct(rows: seq<FilingReference>)
    ensures forall i, j :: 0 <= i < j < |DropDuplicatePeriods(rows)| ==>
      Period(DropDuplicatePeriods(rows)[i]) != Period(DropDuplicatePeriods(rows)[j])
  {
    if rows != [] {
      DropDuplicatesDistinct(rows[1..]);
      DropDuplicatesMembers(rows[1..]);
      var d := DropDuplicatePeriods(rows[1..]);
      if Period(rows[0]) !in Periods(rows[1..]) {
        forall j | 0 <= j < |d| ensures Period(rows[0]) != Period(d[j]) {
          assert d[j] in d;
        }
      }
    }
  }

  /**
   * On a table sorted by (end, deposit), the row `drop_duplicates` keeps for a
   * period was deposited no earlier than any other row of that period.
   */
  lemma {:induction false} DropDuplicatesKeepsLatest(rows: seq<FilingReference>)
    requires SortedBy(rows, ByEndThenDeposit)
    ensures forall r, x :: r in DropDuplicatePeriods(rows) && x in rows && Period(x) == Period(r) ==>
      x.depositDate <= r.depositDate
  {
    if rows != [] {
      var tail := rows[1..];
      DropDuplicatesKeepsLatest(tail);
      DropDuplicatesMembers(tail);
      forall r, x | r in DropDuplicatePeriods(rows) && x in rows && Period(x) == Period(r)
        ensures x.depositDate <= r.depositDate
      {
        if r in DropDuplicatePeriods(tail) {
          if x !in tail {
            assert x == rows[0];
            var i :| 1 <= i < |rows| && rows[i] == r;
          }
        } else {
          assert r == rows[0];
        }
      }
    }
  }

  // ---------------------------------------------------------------------
  // Properties of the resolved references

  /** What the three steps of `_handle_df_of_references` guarantee together. */
  lemma HandledProperties(raw: seq<FilingReference>)
    ensures forall r :: r in Handled(raw) ==> r in raw && r.accountingDataUrl.Some?
    ensures SortedBy(Handled(raw), ByEndThenDeposit)
    ensures forall i, j :: 0 <= i < j < |Handled(raw)| ==> Period(Handled(raw)[i]) != Period(Handled(raw)[j])
    ensures forall r, x :: r in Handled(raw) && x in raw && x.accountingDataUrl.Some? && Period(x) == Period(r) ==>
      x.depositDate <= r.depositDate
    ensures Periods(Handled(raw)) == Periods(WithUrl(raw))
  {
    var sorted := SortReferences(raw);
    EndThenDepositIsTotalPreorder();
    SortBySorted(raw, ByEndThenDeposit);
    SortByPermutes(raw, ByEndThenDeposit);
    assert forall x :: x in sorted <==> x in raw by {
      forall x ensures x in sorted <==> x in raw {
        assert x in sorted <==> x in multiset(sorted);
        assert x in raw <==> x in multiset(raw);
      }
    }
    var eligible := WithUrl(sorted);
    WithUrlMembers(sorted);
    WithUrlMembers(raw);
    WithUrlSorted(sorted);
    DropDuplicatesMembers(eligible);
    DropDuplicatesSorted(eligible);
    DropDuplicatesDistinct(eligible);
    DropDuplicatesKeepsLatest(eligible);
    assert Periods(eligible) == Periods(WithUrl(raw));
  }

  /**
   * The resolved references: every one has a URL and comes from the input,
   * they are ascending by (end, deposit), no two share a period, and each is
   * the latest deposit of its period among the rows with a URL.
   */
  lemma ResolveProperties(raw: seq<FilingReference>, yearSpan: int)
    ensures forall r :: r in Resolve(raw, yearSpan) ==> r in raw && r.accountingDataUrl.Some?
    ensures SortedBy(Resolve(raw, yearSpan), ByEndThenDeposit)
    ensures forall i, j :: 0 <= i < j < |Resolve(raw, yearSpan)| ==>
      Period(Resolve(raw, yearSpan)[i]) != Period(Resolve(raw, yearSpan)[j])
    ensures forall r, x :: r in Resolve(raw, yearSpan) && x in raw && x.accountingDataUrl.Some? && Period(x) == Period(r) ==>
      x.depositDate <= r.depositDate
  {
    HandledProperties(raw);
    var h := Handled(raw);
    var res := Resolve(raw, yearSpan);
    var off := |h| - |res|;
    assert res == h[off..];
    forall i, j | 0 <= i < j < |res| ensures ByEndThenDeposit(res[i], res[j]) && Period(res[i]) != Period(res[j]) {
      assert res[i] == h[off + i] && res[j] == h[off + j];
    }
  }

  /**
   * A row without a URL never hides another filing of its period: every
   * period that has a filing with a URL is represented, and with a year span
   * covering the whole handled table it survives the tail.
   */
  lemma EveryEligiblePeriodResolved(raw: seq<FilingReference>, yearSpan: int)
    requires yearSpan >= |Handled(raw)|
    ensures Periods(Resolve(raw, yearSpan)) == Periods(WithUrl(raw))
  {
    HandledProperties(raw);
  }
}
