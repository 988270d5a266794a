/**
 * `_fetch_participating_interests`: the participating-interest list of a
 * filing flattened into twelve parallel columns.
 *
 * For a participation whose entity is present, with `d` holdings, each of
 * the seven entity-level columns grows by `d` copies. Each of the five
 * per-holding columns grows by `d` copies of every holding's value, so by
 * `d * d` entries in all. The two groups of columns therefore differ in
 * length as soon as one participation has two or more holdings. The
 * `OnePerHolding` layout is the evidently intended one: one entry per
 * holding. Finally every collected currency has its marker removed, which
 * raises when a currency is not a string.
 */
module Participations {
  import opened Wrappers
  import opened Text
  import opened FilingText
  import opened Administrators

  datatype Holding = Holding(line: Value, nature: Value, number: Value, percentageDirectlyHeld: Value, percentageSubsidiaries: Value)

  /** One participation; `entity` is `None` when the entity is null or empty, and the participation is skipped. */
  datatype Participation = Participation(entity: Option<Entity>, accountDate: Value, currency: Value, equity: Value, netResult: Value, held: seq<Holding>)

  /** The twelve columns, named as in the returned dictionary. */
  datatype PiTable = PiTable(
    participantName: seq<Value>,
    entityId: seq<Value>,
    entityAddress: seq<string>,
    accountDate: seq<Value>,
    currency: seq<Value>,
    equity: seq<Value>,
    netResult: seq<Value>,
    line: seq<Value>,
    nature: seq<Value>,
    number: seq<Value>,
    percentageDirectlyHeld: seq<Value>,
    percentageSubsidiaries: seq<Value>)

  /** The `AttributeError` of `replace` on a currency that is not a string. */
  datatype PiError = CurrencyNotText

  /** How many copies of each holding's values the per-holding columns receive. */
  datatype Layout = AsWritten | OnePerHolding

  const EmptyPiTable := PiTable([], [], [], [], [], [], [], [], [], [], [], [])

  function Copies(layout: Layout, d: nat): nat {
    if layout == AsWritten then d else 1
  }

  function AddHolding(t: PiTable, h: Holding, copies: nat): PiTable {
    t.(line := t.line + Repeat(h.line, copies),
       nature := t.nature + Repeat(h.nature, copies),
       number := t.number + Repeat(h.number, copies),
       percentageDirectlyHeld := t.percentageDirectlyHeld + Repeat(h.percentageDirectlyHeld, copies),
       percentageSubsidiaries := t.percentageSubsidiaries + Repeat(h.percentageSubsidiaries, copies))
  }

  function AddHoldings(t: PiTable, hs: seq<Holding>, copies: nat): PiTable
    decreases |hs|
  {
    if hs == [] then t else AddHoldings(AddHolding(t, hs[0], copies), hs[1..], copies)
  }

  /** The entity-level columns' share of one participation: `d` copies of each value. */
  function AddEntity(t: PiTable, e: Entity, p: Participation): PiTable {
    var d := |p.held|;
    t.(participantName := t.participantName + Repeat(e.name, d),
       entityId := t.entityId + Repeat(e.identifier, d),
       entityAddress := t.entityAddress + Repeat(AddressText(e.address), d),
       accountDate := t.accountDate + Repeat(p.accountDate, d),
       currency := t.currency + Repeat(p.currency, d),
       equity := t.equity + Repeat(p.equity, d),
       netResult := t.netResult + Repeat(p.netResult, d))
  }

  function AddParticipation(t: PiTable, p: Participation, layout: Layout): PiTable {
    match p.entity
    case None => t
    case Some(e) => AddHoldings(AddEntity(t, e, p), p.held, Copies(layout, |p.held|))
  }

  function AddParticipations(t: PiTable, ps: seq<Participation>, layout: Layout): PiTable
    decreases |ps|
  {
    if ps == [] then t else AddParticipations(AddParticipation(t, ps[0], layout), ps[1..], layout)
  }

  predicate AllText(cs: seq<Value>) {
    forall i :: 0 <= i < |cs| ==> cs[i].Str?
  }

  /** Each currency with its currency marker removed. */
  function Cleaned(cs: seq<Value>): (r: seq<Value>)
    requires AllText(cs)
    ensures |r| == |cs| && AllText(r)
  {
    if cs == [] then []
    else Cleaned(cs[..|cs| - 1]) + [Str(ReplaceAll(cs[|cs| - 1].text, "ccy:m", ""))]
  }

  function CleanCurrencies(cs: seq<Value>): (r: Result<seq<Value>, PiError>)
    ensures r.Ok? <==> AllText(cs)
    ensures r.Ok? ==> |r.value| == |cs|
  {
    if AllText(cs) then Ok(Cleaned(cs)) else Err(CurrencyNotText)
  }

  /** The columns for `ps` in the given layout, currencies cleaned. */
  function Flatten(ps: seq<Participation>, layout: Layout): Result<PiTable, PiError> {
    var t := AddParticipations(EmptyPiTable, ps, layout);
    match CleanCurrencies(t.currency)
    case Err(e) => Err(e)
    case Ok(cs) => Ok(t.(currency := cs))
  }

  /** `_fetch_participating_interests` as written. */
  function ParticipatingInterests(ps: seq<Participation>): Result<PiTable, PiError> {
    Flatten(ps, AsWritten)
  }

  /** The evidently intended flattening: one row per holding in every column. */
  function ParticipatingInterestsByHolding(ps: seq<Participation>): Result<PiTable, PiError> {
    Flatten(ps, OnePerHolding)
  }

  /** The per-holding columns of one participation, holding by holding. */
  method AppendHoldings(t: PiTable, hs: seq<Holding>, copies: nat) returns (u: PiTable)
    ensures u == AddHoldings(t, hs, copies)
  {
    u := t;
    var k := 0;
    while k < |hs|
      invariant 0 <= k <= |hs|
      invariant AddHoldings(u, hs[k..], copies) == AddHoldings(t, hs, copies)
    {
      assert hs[k..][1..] == hs[k + 1..];
      var item := hs[k];
      u := u.(line := u.line + Repeat(item.line, copies),
              nature := u.nature + Repeat(item.nature, copies),
              number := u.number + Repeat(item.number, copies),
              percentageDirectlyHeld := u.percentageDirectlyHeld + Repeat(item.percentageDirectlyHeld, copies),
              percentageSubsidiaries := u.percentageSubsidiaries + Repeat(item.percentageSubsidiaries, copies));
      k := k + 1;
    }
  }

  /** The final comprehension over the currency column. */
  method CleanCurrencyColumn(cs: seq<Value>) returns (r: Result<seq<Value>, PiError>)
    ensures r == CleanCurrencies(cs)
  {
    var cleaned := [];
    for k := 0 to |cs|
      invariant AllText(cs[..k]) && cleaned == Cleaned(cs[..k])
    {
      if !cs[k].Str? {
        return Err(CurrencyNotText);
      }
      assert cs[..k + 1][..k] == cs[..k];
      cleaned := cleaned + [Str(ReplaceAll(cs[k].text, "ccy:m", ""))];
    }
    assert cs[..|cs|] == cs;
    r := Ok(cleaned);
  }

  /**
   * `_fetch_participating_interests`: the columns grown participation by
   * participation; `AsWritten` is the code as it stands, `OnePerHolding`
   * the corrected layout.
   */
  method FetchParticipatingInterests(ps: seq<Participation>, layout: Layout) returns (r: Result<PiTable, PiError>)
    ensures r == Flatten(ps, layout)
  {
    var t := EmptyPiTable;
    var i := 0;
    while i < |ps|
      invariant 0 <= i <= |ps|
      invariant AddParticipations(t, ps[i..], layout) == AddParticipations(EmptyPiTable, ps, layout)
    {
      assert ps[i..][1..] == ps[i + 1..];
      var p := ps[i];
      if p.entity.Some? {
        var e := p.entity.value;
        var d := |p.held|;
        var entityAddress := BuildText(AddressRule, e.address);
        t := t.(participantName := t.participantName + Repeat(e.name, d),
                entityId := t.entityId + Repeat(e.identifier, d),
                entityAddress := t.entityAddress + Repeat(entityAddress, d),
                accountDate := t.accountDate + Repeat(p.accountDate, d),
                currency := t.currency + Repeat(p.currency, d),
                equity := t.equity + Repeat(p.equity, d),
                netResult := t.netResult + Repeat(p.netResult, d));
        t := AppendHoldings(t, p.held, Copies(layout, d));
      }
      i := i + 1;
    }
    var currency := CleanCurrencyColumn(t.currency);
    match currency {
      case Err(e) => r := Err(e);
      case Ok(cs) => r := Ok(t.(currency := cs));
    }
  }

  /** Entity-level rows: the holdings of every participation that has an entity. */
  function EntityRows(ps: seq<Participation>): nat {
    if ps == [] then 0 else (if ps[0].entity.Some? then |ps[0].held| else 0) + EntityRows(ps[1..])
  }

  /** Per-holding entries as written: the square of the holding count of every participation that has an entity. */
  function HoldingEntries(ps: seq<Participation>): nat {
    if ps == [] then 0 else (if ps[0].entity.Some? then |ps[0].held| * |ps[0].held| else 0) + HoldingEntries(ps[1..])
  }

  predicate EntityGrown(t: PiTable, u: PiTable, n: nat) {
    && |u.participantName| == |t.participantName| + n
    && |u.entityId| == |t.entityId| + n
    && |u.entityAddress| == |t.entityAddress| + n
    && |u.accountDate| == |t.accountDate| + n
    && |u.currency| == |t.currency| + n
    && |u.equity| == |t.equity| + n
    && |u.netResult| == |t.netResult| + n
  }

  predicate HoldingGrown(t: PiTable, u: PiTable, n: int) {
    && |u.line| == |t.line| + n
    && |u.nature| == |t.nature| + n
    && |u.number| == |t.number| + n
    && |u.percentageDirectlyHeld| == |t.percentageDirectlyHeld| + n
    && |u.percentageSubsidiaries| == |t.percentageSubsidiaries| + n
  }

  lemma {:induction false} AddHoldingsGrowth(t: PiTable, hs: seq<Holding>, copies: nat)
    ensures EntityGrown(t, AddHoldings(t, hs, copies), 0)
    ensures HoldingGrown(t, AddHoldings(t, hs, copies), |hs| * copies)
    decreases |hs|
  {
    if hs != [] {
      AddHoldingsGrowth(AddHolding(t, hs[0], copies), hs[1..], copies);
      assert |hs| * copies == copies + (|hs| - 1) * copies;
    }
  }

  /** What one participation with an entity adds: `d` entity rows and `d` times the copies per holding. */
  lemma AddParticipationGrowth(t: PiTable, p: Participation, layout: Layout)
    requires p.entity.Some?
    ensures EntityGrown(t, AddParticipation(t, p, layout), |p.held|)
    ensures HoldingGrown(t, AddParticipation(t, p, layout), |p.held| * Copies(layout, |p.held|))
  {
    var v := AddEntity(t, p.entity.value, p);
    var c := Copies(layout, |p.held|);
    var u := AddHoldings(v, p.held, c);
    assert AddParticipation(t, p, layout) == u;
    assert EntityGrown(t, v, |p.held|) && HoldingGrown(t, v, 0);
    AddHoldingsGrowth(v, p.held, c);
    GrownTrans(t, v, u, |p.held|, |p.held| * c);
  }

  lemma GrownTrans(t: PiTable, v: PiTable, u: PiTable, n: nat, m: int)
    requires EntityGrown(t, v, n) && HoldingGrown(t, v, 0)
    requires EntityGrown(v, u, 0) && HoldingGrown(v, u, m)
    ensures EntityGrown(t, u, n) && HoldingGrown(t, u, m)
  {
  }

  lemma GrownCompose(t: PiTable, u: PiTable, w: PiTable, n1: nat, m1: int, n2: nat, m2: int)
    requires EntityGrown(t, u, n1) && HoldingGrown(t, u, m1)
    requires EntityGrown(u, w, n2) && HoldingGrown(u, w, m2)
    ensures EntityGrown(t, w, n1 + n2) && HoldingGrown(t, w, m1 + m2)
  {
  }

  lemma {:induction false} AddParticipationsGrowth(t: PiTable, ps: seq<Participation>, layout: Layout)
    ensures EntityGrown(t, AddParticipations(t, ps, layout), EntityRows(ps))
    ensures HoldingGrown(t, AddParticipations(t, ps, layout), if layout == AsWritten then HoldingEntries(ps) else EntityRows(ps))
    decreases |ps|
  {
    if ps != [] {
      var u := AddParticipation(t, ps[0], layout);
      var d := if ps[0].entity.Some? then |ps[0].held| else 0;
      var m := d * Copies(layout, d);
      if ps[0].entity.Some? {
        AddParticipationGrowth(t, ps[0], layout);
      } else {
        assert u == t;
      }
      assert EntityGrown(t, u, d) && HoldingGrown(t, u, m);
      AddParticipationsGrowth(u, ps[1..], layout);
      var rest := if layout == AsWritten then HoldingEntries(ps[1..]) else EntityRows(ps[1..]);
      assert EntityRows(ps) == d + EntityRows(ps[1..]);
      assert (if layout == AsWritten then HoldingEntries(ps) else EntityRows(ps)) == m + rest;
      assert AddParticipations(t, ps, layout) == AddParticipations(u, ps[1..], layout);
      GrownCompose(t, u, AddParticipations(u, ps[1..], layout), d, m, EntityRows(ps[1..]), rest);
    }
  }

  /**
   * As written: the seven entity-level columns have one entry per holding,
   * the five per-holding columns the square of each participation's holding
   * count.
   */
  lemma AsWrittenColumnLengths(ps: seq<Participation>)
    requires ParticipatingInterests(ps).Ok?
    ensures var t := ParticipatingInterests(ps).value;
      EntityGrown(EmptyPiTable, t, EntityRows(ps)) && HoldingGrown(EmptyPiTable, t, HoldingEntries(ps))
  {
    AddParticipationsGrowth(EmptyPiTable, ps, AsWritten);
  }

  lemma {:induction false} SquaresExceed(ps: seq<Participation>, k: nat)
    requires k < |ps| && ps[k].entity.Some? && |ps[k].held| >= 2
    ensures HoldingEntries(ps) > EntityRows(ps)
  {
    var d := |ps[0].held|;
    assert d <= d * d;
    if k == 0 {
      SquaresAtLeast(ps[1..]);
      assert d < d * d;
    } else {
      SquaresExceed(ps[1..], k - 1);
    }
  }

  lemma {:induction false} SquaresAtLeast(ps: seq<Participation>)
    ensures HoldingEntries(ps) >= EntityRows(ps)
  {
    if ps != [] {
      var d := |ps[0].held|;
      assert d <= d * d;
      SquaresAtLeast(ps[1..]);
    }
  }

  /**
   * The defect as written: one participation with two or more holdings
   * leaves the per-holding columns longer than the entity columns, so the
   * columns no longer line up row by row.
   */
  lemma AsWrittenColumnsMismatch(ps: seq<Participation>, k: nat)
    requires ParticipatingInterests(ps).Ok?
    requires k < |ps| && ps[k].entity.Some? && |ps[k].held| >= 2
    ensures |ParticipatingInterests(ps).value.line| > |ParticipatingInterests(ps).value.participantName|
  {
    AsWrittenColumnLengths(ps);
    SquaresExceed(ps, k);
  }

  /** The intended layout: all twelve columns have one entry per holding. */
  lemma ByHoldingColumnLengths(ps: seq<Participation>)
    requires ParticipatingInterestsByHolding(ps).Ok?
    ensures var t := ParticipatingInterestsByHolding(ps).value;
      EntityGrown(EmptyPiTable, t, EntityRows(ps)) && HoldingGrown(EmptyPiTable, t, EntityRows(ps))
  {
    AddParticipationsGrowth(EmptyPiTable, ps, OnePerHolding);
  }

  /** A participation whose currency column share is non-empty and not a string. */
  predicate BadCurrency(p: Participation) {
    p.entity.Some? && p.held != [] && !p.currency.Str?
  }

  lemma {:induction false} AllTextConcat(a: seq<Value>, b: seq<Value>)
    ensures AllText(a + b) <==> AllText(a) && AllText(b)
  {
    if AllText(a) && AllText(b) {
      forall i | 0 <= i < |a + b| ensures (a + b)[i].Str? {
        if i >= |a| {
          assert (a + b)[i] == b[i - |a|];
        }
      }
    }
    if AllText(a + b) {
      forall i | 0 <= i < |b| ensures b[i].Str? {
        assert (a + b)[|a| + i] == b[i];
      }
      forall i | 0 <= i < |a| ensures a[i].Str? {
        assert (a + b)[i] == a[i];
      }
    }
  }

  lemma {:induction false} CurrencyColumnText(t: PiTable, ps: seq<Participation>, layout: Layout)
    ensures AllText(AddParticipations(t, ps, layout).currency) <==>
      AllText(t.currency) && forall i :: 0 <= i < |ps| ==> !BadCurrency(ps[i])
    decreases |ps|
  {
    if ps != [] {
      var u := AddParticipation(t, ps[0], layout);
      ParticipationCurrencyText(t, ps[0], layout);
      CurrencyColumnText(u, ps[1..], layout);
      assert AddParticipations(t, ps, layout) == AddParticipations(u, ps[1..], layout);
      NoBadCurrencySplit(ps);
    }
  }

  /** One participation keeps the currency column all text exactly when its own currency is not bad. */
  lemma ParticipationCurrencyText(t: PiTable, p: Participation, layout: Layout)
    ensures AllText(AddParticipation(t, p, layout).currency) <==> AllText(t.currency) && !BadCurrency(p)
  {
    if p.entity.Some? {
      var v := AddEntity(t, p.entity.value, p);
      AddHoldingsCurrency(v, p.held, Copies(layout, |p.held|));
      AllTextConcat(t.currency, Repeat(p.currency, |p.held|));
      if p.held != [] {
        assert Repeat(p.currency, |p.held|)[0] == p.currency;
      }
    }
  }

  lemma NoBadCurrencySplit(ps: seq<Participation>)
    requires ps != []
    ensures (forall i :: 0 <= i < |ps| ==> !BadCurrency(ps[i])) <==>
      !BadCurrency(ps[0]) && forall i :: 0 <= i < |ps[1..]| ==> !BadCurrency(ps[1..][i])
  {
    assert forall i :: 0 <= i < |ps| - 1 ==> ps[1..][i] == ps[i + 1];
  }

  lemma {:induction false} AddHoldingsCurrency(t: PiTable, hs: seq<Holding>, copies: nat)
    ensures AddHoldings(t, hs, copies).currency == t.currency
    decreases |hs|
  {
    if hs != [] {
      AddHoldingsCurrency(AddHolding(t, hs[0], copies), hs[1..], copies);
    }
  }

  /**
   * The flattening fails exactly when a participation with an entity and at
   * least one holding has a currency that is not a string; a bad currency on
   * a skipped or holding-less participation never reaches the column.
   */
  lemma CurrencyErrors(ps: seq<Participation>, layout: Layout)
    ensures Flatten(ps, layout).Err? <==> exists i :: 0 <= i < |ps| && BadCurrency(ps[i])
  {
    CurrencyColumnText(EmptyPiTable, ps, layout);
  }
}
