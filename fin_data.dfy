/**
 * `fetch_fin_data`: one row of financial figures per (period symbol,
 * filing) pair whose filing has line items for that symbol. A row maps every
 * label of the lookup table (label -> account code) to the filed value of
 * its code, or 0 when the filing has no line item with that code, and also
 * carries the filing's enterprise name, its exercise dates and the symbol.
 * The rows are finally ordered by reference key.
 *
 * The lookup table is a parameter; a label repeated in the table keeps its
 * last code, which a map already expresses.
 */
module FinData {
  import opened Wrappers
  import opened Text
  import opened Sorting

  /** One line item of a filing: account code, period symbol ("N", "NM1") and value. */
  datatype Rubric = Rubric(code: string, period: string, value: real)

  /** A filing as `_extract_fin_data` prepares it: its reference key, its meta fields and its line items. */
  datatype Filing = Filing(reference: string, enterpriseName: string, startDate: string, endDate: string, rubrics: seq<Rubric>)

  /** The `period` argument: one symbol as a string, or a list of symbols. */
  datatype PeriodArg = One(symbol: string) | Many(symbols: seq<string>)

  datatype FinRow = FinRow(reference: string, values: map<string, real>, enterpriseName: string, startDate: string, endDate: string, symbol: string)

  /**
   * `NoPeriodColumn`: the `KeyError` of `df['Period']` on a filing with no line
   * items, whose frame holds only the meta columns. `DuplicateCode`: the
   * `TypeError` of `float(...)` when a code occurs more than once in a slice.
   */
  datatype FinError = NoPeriodColumn | DuplicateCode

  /** `for symbol in period` as written: a single string is iterated character by character. */
  function SymbolsAsWritten(p: PeriodArg): seq<string>
  {
    match p
    case One(s) => seq(|s|, i requires 0 <= i < |s| => [s[i]])
    case Many(ss) => ss
  }

  /** The evidently intended reading: a single string is one symbol. */
  function Symbols(p: PeriodArg): seq<string>
  {
    match p
    case One(s) => [s]
    case Many(ss) => ss
  }

  /** `df[df['Period'] == symbol]`: the line items for one symbol, in order. */
  function Slice(rs: seq<Rubric>, symbol: string): (s: seq<Rubric>)
    ensures |s| <= |rs|
    ensures forall k :: 0 <= k < |s| ==> s[k].period == symbol
  {
    if rs == [] then []
    else (if rs[0].period == symbol then [rs[0]] else []) + Slice(rs[1..], symbol)
  }

  /** The slice keeps every line item of the symbol and nothing else. */
  lemma {:induction false} SliceMembers(rs: seq<Rubric>, symbol: string)
    ensures forall x :: x in Slice(rs, symbol) <==> x in rs && x.period == symbol
  {
    if rs != [] {
      SliceMembers(rs[1..], symbol);
      assert rs == [rs[0]] + rs[1..];
    }
  }

  function CodeCount(s: seq<Rubric>, code: string): nat {
    if s == [] then 0 else (if s[0].code == code then 1 else 0) + CodeCount(s[1..], code)
  }

  /** `float(sliced.loc[code, 'Value'])` when the code is present, `0` otherwise. */
  function Filed(s: seq<Rubric>, code: string): real {
    if s == [] then 0.0 else if s[0].code == code then s[0].value else Filed(s[1..], code)
  }

  /** Some label's code occurs more than once in the slice. */
  predicate HasDuplicate(s: seq<Rubric>, table: map<string, string>) {
    exists lbl :: lbl in table && CodeCount(s, table[lbl]) > 1
  }

  /** The row of a filing for a symbol whose slice is not empty. */
  function BuildRow(f: Filing, symbol: string, table: map<string, string>): (r: FinRow)
    ensures r.values.Keys == table.Keys
    ensures r.reference == f.reference && r.symbol == symbol && r.enterpriseName == f.enterpriseName
    ensures r.startDate == f.startDate && r.endDate == f.endDate
  {
    var s := Slice(f.rubrics, symbol);
    FinRow(f.reference, map lbl | lbl in table :: Filed(s, table[lbl]), f.enterpriseName, f.startDate, f.endDate, symbol)
  }

  /** A (filing, symbol) pair that yields a row. */
  predicate HasRow(f: Filing, symbol: string) {
    Slice(f.rubrics, symbol) != []
  }

  /**
   * A (filing, symbol) pair that makes the code raise: the filing has no line
   * items and so no `Period` column, or the slice repeats a looked-up code.
   */
  predicate Unrowable(f: Filing, symbol: string, table: map<string, string>) {
    f.rubrics == [] || (HasRow(f, symbol) && HasDuplicate(Slice(f.rubrics, symbol), table))
  }

  /** The rows of one symbol, filing by filing. */
  function SymbolRows(fs: seq<Filing>, symbol: string, table: map<string, string>): seq<FinRow> {
    if fs == [] then []
    else
      var f := fs[|fs| - 1];
      SymbolRows(fs[..|fs| - 1], symbol, table) + (if HasRow(f, symbol) then [BuildRow(f, symbol, table)] else [])
  }

  /** The rows before sorting: symbol by symbol, and within a symbol filing by filing. */
  function Rows(fs: seq<Filing>, ss: seq<string>, table: map<string, string>): seq<FinRow> {
    if ss == [] then [] else Rows(fs, ss[..|ss| - 1], table) + SymbolRows(fs, ss[|ss| - 1], table)
  }

  /** Some filing makes the code raise while it handles `symbol`. */
  predicate SymbolClash(fs: seq<Filing>, symbol: string, table: map<string, string>) {
    exists j :: 0 <= j < |fs| && Unrowable(fs[j], symbol, table)
  }

  predicate Clash(fs: seq<Filing>, ss: seq<string>, table: map<string, string>) {
    exists i :: 0 <= i < |ss| && SymbolClash(fs, ss[i], table)
  }

  /** A clash among the first `i + 1` symbols is one among the first `i` or one on symbol `i`. */
  lemma ClashExtend(fs: seq<Filing>, ss: seq<string>, i: nat, table: map<string, string>)
    requires i < |ss|
    ensures Clash(fs, ss[..i + 1], table) <==> Clash(fs, ss[..i], table) || SymbolClash(fs, ss[i], table)
    ensures SymbolClash(fs, ss[i], table) ==> Clash(fs, ss, table)
  {
    var a, b := ss[..i], ss[..i + 1];
    if Clash(fs, b, table) {
      var i' :| 0 <= i' < |b| && SymbolClash(fs, b[i'], table);
      if i' < i {
        assert a[i'] == b[i'];
      }
    }
    if Clash(fs, a, table) {
      var i' :| 0 <= i' < |a| && SymbolClash(fs, a[i'], table);
      assert b[i'] == a[i'];
    }
    if SymbolClash(fs, ss[i], table) {
      assert b[i] == ss[i];
    }
  }

  /**
   * The two ways the loops raise: a filing without line items, as soon as one
   * symbol is requested, or a requested symbol whose slice in some filing
   * repeats a looked-up code.
   */
  lemma ClashCases(fs: seq<Filing>, ss: seq<string>, table: map<string, string>)
    ensures Clash(fs, ss, table) <==>
      (ss != [] && exists j :: 0 <= j < |fs| && fs[j].rubrics == [])
      || exists i, j :: 0 <= i < |ss| && 0 <= j < |fs| && HasRow(fs[j], ss[i]) && HasDuplicate(Slice(fs[j].rubrics, ss[i]), table)
  {
    if ss != [] && exists j :: 0 <= j < |fs| && fs[j].rubrics == [] {
      var j :| 0 <= j < |fs| && fs[j].rubrics == [];
      assert Unrowable(fs[j], ss[0], table);
      assert SymbolClash(fs, ss[0], table);
    }
    if exists i, j :: 0 <= i < |ss| && 0 <= j < |fs| && HasRow(fs[j], ss[i]) && HasDuplicate(Slice(fs[j].rubrics, ss[i]), table) {
      var i, j :| 0 <= i < |ss| && 0 <= j < |fs| && HasRow(fs[j], ss[i]) && HasDuplicate(Slice(fs[j].rubrics, ss[i]), table);
      assert Unrowable(fs[j], ss[i], table);
    }
    if Clash(fs, ss, table) {
      var i :| 0 <= i < |ss| && SymbolClash(fs, ss[i], table);
      var j :| 0 <= j < |fs| && Unrowable(fs[j], ss[i], table);
      if fs[j].rubrics != [] {
        assert HasRow(fs[j], ss[i]) && HasDuplicate(Slice(fs[j].rubrics, ss[i]), table);
      }
    }
  }

  /** `sort_index`: ascending reference keys. */
  predicate ByReference(a: FinRow, b: FinRow) {
    LexLe(a.reference, b.reference)
  }

  lemma ByReferenceIsTotalPreorder()
    ensures TotalPreorder(ByReference)
  {
    forall a: FinRow, b: FinRow ensures ByReference(a, b) || ByReference(b, a) {
      LexLeTotal(a.reference, b.reference);
    }
    forall a: FinRow, b: FinRow, c: FinRow | ByReference(a, b) && ByReference(b, c) ensures ByReference(a, c) {
      LexLeTransitive(a.reference, b.reference, c.reference);
    }
  }

  /** The label loop: the copied lookup table overwritten label by label, or the error on a repeated code. */
  method MakeRow(f: Filing, symbol: string, table: map<string, string>) returns (r: Result<FinRow, FinError>)
    ensures r.Err? <==> HasDuplicate(Slice(f.rubrics, symbol), table)
    ensures r.Ok? ==> r.value == BuildRow(f, symbol, table)
  {
    var s := Slice(f.rubrics, symbol);
    var values: map<string, real> := map[];
    var remaining := table.Keys;
    while remaining != {}
      invariant remaining <= table.Keys
      invariant values == map lbl | lbl in table && lbl !in remaining :: Filed(s, table[lbl])
      invariant forall lbl :: lbl in table && lbl !in remaining ==> CodeCount(s, table[lbl]) <= 1
      decreases |remaining|
    {
      var lbl :| lbl in remaining;
      var code := table[lbl];
      if CodeCount(s, code) > 1 {
        return Err(DuplicateCode);
      }
      values := values[lbl := Filed(s, code)];
      remaining := remaining - {lbl};
    }
    r := Ok(FinRow(f.reference, values, f.enterpriseName, f.startDate, f.endDate, symbol));
  }

  /** The inner loop of `fetch_fin_data`: the rows of one symbol, filing by filing. */
  method CollectSymbol(fs: seq<Filing>, symbol: string, table: map<string, string>) returns (r: Result<seq<FinRow>, FinError>)
    ensures r.Err? <==> SymbolClash(fs, symbol, table)
    ensures r.Ok? ==> r.value == SymbolRows(fs, symbol, table)
  {
    var rows := [];
    for j := 0 to |fs|
      invariant rows == SymbolRows(fs[..j], symbol, table)
      invariant forall j' :: 0 <= j' < j ==> !Unrowable(fs[j'], symbol, table)
    {
      assert fs[..j + 1][..j] == fs[..j];
      if fs[j].rubrics == [] {
        assert Unrowable(fs[j], symbol, table);
        return Err(NoPeriodColumn);
      }
      if HasRow(fs[j], symbol) {
        var row := MakeRow(fs[j], symbol, table);
        if row.Err? {
          assert Unrowable(fs[j], symbol, table);
          return Err(DuplicateCode);
        }
        rows := rows + [row.value];
      }
    }
    assert fs[..|fs|] == fs;
    r := Ok(rows);
  }

  /** The outer loop of `fetch_fin_data`: the rows of each symbol in turn, or the first error. */
  method CollectRows(fs: seq<Filing>, ss: seq<string>, table: map<string, string>) returns (r: Result<seq<FinRow>, FinError>)
    ensures r.Err? <==> Clash(fs, ss, table)
    ensures r.Ok? ==> r.value == Rows(fs, ss, table)
  {
    var rows := [];
    for i := 0 to |ss|
      invariant rows == Rows(fs, ss[..i], table)
      invariant !Clash(fs, ss[..i], table)
    {
      var symbolRows := CollectSymbol(fs, ss[i], table);
      ClashExtend(fs, ss, i, table);
      if symbolRows.Err? {
        return Err(symbolRows.error);
      }
      assert ss[..i + 1][..i] == ss[..i];
      rows := rows + symbolRows.value;
    }
    assert ss[..|ss|] == ss;
    r := Ok(rows);
  }

  /**
   * `fetch_fin_data`: the rows for every symbol of `period` and every
   * filing, ordered by reference key; the error when a lookup raises. A
   * single period string is read as one symbol (`Symbols`), not character
   * by character as the code does (`SymbolsAsWritten`).
   */
  method FetchFinData(fs: seq<Filing>, table: map<string, string>, period: PeriodArg) returns (r: Result<seq<FinRow>, FinError>)
    ensures r.Err? <==> Clash(fs, Symbols(period), table)
    ensures r.Ok? ==> SortedBy(r.value, ByReference)
    ensures r.Ok? ==> multiset(r.value) == multiset(Rows(fs, Symbols(period), table))
  {
    var unsorted := CollectRows(fs, Symbols(period), table);
    if unsorted.Err? {
      return Err(unsorted.error);
    }
    var sorted := InsertionSort(unsorted.value, ByReference);
    ByReferenceIsTotalPreorder();
    SortBySorted(unsorted.value, ByReference);
    SortByPermutes(unsorted.value, ByReference);
    r := Ok(sorted);
  }

  /** The filed value: the value of the code's line item when it occurs once, 0 when it does not occur. */
  lemma {:induction false} FiledValue(s: seq<Rubric>, code: string)
    requires CodeCount(s, code) <= 1
    ensures forall k :: 0 <= k < |s| && s[k].code == code ==> Filed(s, code) == s[k].value
    ensures (forall k :: 0 <= k < |s| ==> s[k].code != code) ==> Filed(s, code) == 0.0
  {
    if s != [] {
      if s[0].code == code {
        CodeAbsent(s[1..], code);
      } else {
        FiledValue(s[1..], code);
        assert forall k :: 1 <= k < |s| ==> s[k] == s[1..][k - 1];
      }
    }
  }

  lemma {:induction false} CodeAbsent(s: seq<Rubric>, code: string)
    requires CodeCount(s, code) == 0
    ensures forall k :: 0 <= k < |s| ==> s[k].code != code
  {
    if s != [] {
      CodeAbsent(s[1..], code);
      assert forall k :: 1 <= k < |s| ==> s[k] == s[1..][k - 1];
    }
  }

  /**
   * Every label of a row holds the filed value of its code for the row's
   * filing and symbol, or 0 when the filing has no such line item.
   */
  lemma RowValues(f: Filing, symbol: string, table: map<string, string>, lbl: string)
    requires lbl in table && !HasDuplicate(Slice(f.rubrics, symbol), table)
    ensures var s := Slice(f.rubrics, symbol); var v := BuildRow(f, symbol, table).values[lbl];
      && (forall k :: 0 <= k < |s| && s[k].code == table[lbl] ==> v == s[k].value)
      && ((forall k :: 0 <= k < |s| ==> s[k].code != table[lbl]) ==> v == 0.0)
  {
    FiledValue(Slice(f.rubrics, symbol), table[lbl]);
  }

  /** A row of `SymbolRows` is the row of one of the filings with lines for the symbol. */
  lemma {:induction false} SymbolRowsSound(fs: seq<Filing>, symbol: string, table: map<string, string>, r: FinRow)
    requires r in SymbolRows(fs, symbol, table)
    ensures exists j :: 0 <= j < |fs| && HasRow(fs[j], symbol) && r == BuildRow(fs[j], symbol, table)
  {
    var init, f := fs[..|fs| - 1], fs[|fs| - 1];
    var last := if HasRow(f, symbol) then [BuildRow(f, symbol, table)] else [];
    assert SymbolRows(fs, symbol, table) == SymbolRows(init, symbol, table) + last;
    if r in SymbolRows(init, symbol, table) {
      SymbolRowsSound(init, symbol, table, r);
      var j :| 0 <= j < |init| && HasRow(init[j], symbol) && r == BuildRow(init[j], symbol, table);
      assert fs[j] == init[j];
    } else {
      assert r in last;
      assert HasRow(fs[|fs| - 1], symbol) && r == BuildRow(fs[|fs| - 1], symbol, table);
    }
  }

  /** The row of every filing with lines for the symbol is in `SymbolRows`. */
  lemma {:induction false} SymbolRowsComplete(fs: seq<Filing>, symbol: string, table: map<string, string>, j: nat)
    requires j < |fs| && HasRow(fs[j], symbol)
    ensures BuildRow(fs[j], symbol, table) in SymbolRows(fs, symbol, table)
  {
    var init, f := fs[..|fs| - 1], fs[|fs| - 1];
    var last := if HasRow(f, symbol) then [BuildRow(f, symbol, table)] else [];
    SymbolRowsStep(fs, symbol, table);
    if j < |init| {
      assert init[j] == fs[j];
      SymbolRowsComplete(init, symbol, table, j);
      InLeft(BuildRow(fs[j], symbol, table), SymbolRows(init, symbol, table), last);
    } else {
      assert last == [BuildRow(fs[j], symbol, table)];
      InRight(BuildRow(fs[j], symbol, table), SymbolRows(init, symbol, table), last);
    }
  }

  lemma SymbolRowsStep(fs: seq<Filing>, symbol: string, table: map<string, string>)
    requires fs != []
    ensures var f := fs[|fs| - 1];
            SymbolRows(fs, symbol, table)
            == SymbolRows(fs[..|fs| - 1], symbol, table) + (if HasRow(f, symbol) then [BuildRow(f, symbol, table)] else [])
  {
  }

  lemma RowsStep(fs: seq<Filing>, ss: seq<string>, table: map<string, string>)
    requires ss != []
    ensures Rows(fs, ss, table) == Rows(fs, ss[..|ss| - 1], table) + SymbolRows(fs, ss[|ss| - 1], table)
  {
  }

  lemma InLeft<T>(x: T, a: seq<T>, b: seq<T>)
    requires x in a
    ensures x in a + b
  {
  }

  lemma InRight<T>(x: T, a: seq<T>, b: seq<T>)
    requires x in b
    ensures x in a + b
  {
  }

  lemma SymbolRowsMembers(fs: seq<Filing>, symbol: string, table: map<string, string>, r: FinRow)
    ensures r in SymbolRows(fs, symbol, table) <==>
      exists j :: 0 <= j < |fs| && HasRow(fs[j], symbol) && r == BuildRow(fs[j], symbol, table)
  {
    if r in SymbolRows(fs, symbol, table) {
      SymbolRowsSound(fs, symbol, table, r);
    }
    if exists j :: 0 <= j < |fs| && HasRow(fs[j], symbol) && r == BuildRow(fs[j], symbol, table) {
      var j :| 0 <= j < |fs| && HasRow(fs[j], symbol) && r == BuildRow(fs[j], symbol, table);
      SymbolRowsComplete(fs, symbol, table, j);
    }
  }

  lemma {:induction false} RowsMembersSound(fs: seq<Filing>, ss: seq<string>, table: map<string, string>, r: FinRow)
    requires r in Rows(fs, ss, table)
    ensures exists i :: 0 <= i < |ss| && r in SymbolRows(fs, ss[i], table)
  {
    var init, last := ss[..|ss| - 1], ss[|ss| - 1];
    assert Rows(fs, ss, table) == Rows(fs, init, table) + SymbolRows(fs, last, table);
    if r in Rows(fs, init, table) {
      RowsMembersSound(fs, init, table, r);
      var i :| 0 <= i < |init| && r in SymbolRows(fs, init[i], table);
      assert ss[i] == init[i];
    }
  }

  lemma {:induction false} RowsMembersComplete(fs: seq<Filing>, ss: seq<string>, table: map<string, string>, r: FinRow, i: nat)
    requires i < |ss| && r in SymbolRows(fs, ss[i], table)
    ensures r in Rows(fs, ss, table)
  {
    var init := ss[..|ss| - 1];
    if i < |init| {
      assert init[i] == ss[i];
      RowsMembersComplete(fs, init, table, r, i);
      RowsGrowLeft(fs, ss, table, r);
    } else {
      RowsGrowRight(fs, ss, table, r);
    }
  }

  lemma RowsGrowLeft(fs: seq<Filing>, ss: seq<string>, table: map<string, string>, r: FinRow)
    requires ss != [] && r in Rows(fs, ss[..|ss| - 1], table)
    ensures r in Rows(fs, ss, table)
  {
    RowsStep(fs, ss, table);
    InLeft(r, Rows(fs, ss[..|ss| - 1], table), SymbolRows(fs, ss[|ss| - 1], table));
  }

  lemma RowsGrowRight(fs: seq<Filing>, ss: seq<string>, table: map<string, string>, r: FinRow)
    requires ss != [] && r in SymbolRows(fs, ss[|ss| - 1], table)
    ensures r in Rows(fs, ss, table)
  {
    RowsStep(fs, ss, table);
    InRight(r, Rows(fs, ss[..|ss| - 1], table), SymbolRows(fs, ss[|ss| - 1], table));
  }

  /**
   * A row exists exactly for each symbol and each filing that has line items
   * for that symbol, and it is that pair's row.
   */
  lemma RowsExactly(fs: seq<Filing>, ss: seq<string>, table: map<string, string>, r: FinRow)
    ensures r in Rows(fs, ss, table) <==>
      exists i, j :: 0 <= i < |ss| && 0 <= j < |fs| && HasRow(fs[j], ss[i]) && r == BuildRow(fs[j], ss[i], table)
  {
    if r in Rows(fs, ss, table) {
      RowsMembersSound(fs, ss, table, r);
      var i :| 0 <= i < |ss| && r in SymbolRows(fs, ss[i], table);
      SymbolRowsMembers(fs, ss[i], table, r);
    }
    if exists i, j :: 0 <= i < |ss| && 0 <= j < |fs| && HasRow(fs[j], ss[i]) && r == BuildRow(fs[j], ss[i], table) {
      var i, j :| 0 <= i < |ss| && 0 <= j < |fs| && HasRow(fs[j], ss[i]) && r == BuildRow(fs[j], ss[i], table);
      SymbolRowsMembers(fs, ss[i], table, r);
      RowsMembersComplete(fs, ss, table, r, i);
    }
  }

  /**
   * As written, a period given as one string of two or more characters is
   * never selected: every row carries a one-character symbol, so "NM1"
   * yields the rows of "N", "M" and "1" and never those of "NM1".
   */
  lemma AsWrittenSplitsPeriod(fs: seq<Filing>, s: string, table: map<string, string>, r: FinRow)
    requires |s| >= 2 && r in Rows(fs, SymbolsAsWritten(One(s)), table)
    ensures |r.symbol| == 1 && r.symbol != s
  {
    RowsExactly(fs, SymbolsAsWritten(One(s)), table, r);
  }

  /**
   * With the intended reading, one string selects exactly the rows of that
   * symbol: one per filing that has line items for it.
   */
  lemma IntendedSelectsPeriod(fs: seq<Filing>, s: string, table: map<string, string>, r: FinRow)
    ensures r in Rows(fs, Symbols(One(s)), table) <==>
      exists j :: 0 <= j < |fs| && HasRow(fs[j], s) && r == BuildRow(fs[j], s, table)
  {
    RowsExactly(fs, Symbols(One(s)), table, r);
    if exists j :: 0 <= j < |fs| && HasRow(fs[j], s) && r == BuildRow(fs[j], s, table) {
      var j :| 0 <= j < |fs| && HasRow(fs[j], s) && r == BuildRow(fs[j], s, table);
      assert Symbols(One(s))[0] == s;
    }
  }
}
