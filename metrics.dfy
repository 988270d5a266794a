/**
 * The metrics derived from one record of the financial table:
 * `days_sales_outstanding`, `days_payables_outstanding`,
 * `inventory_cycle_finished`, `inventory_cycle_crude` and `ebit_da`.
 *
 * A record maps the table's labels (Dutch account names ending in their
 * account code) to cells. Each metric reads its labels in the order the
 * source reads them, computes a ratio or a signed sum, and writes it under
 * its own key into the same record. Reading a label the record lacks
 * raises `KeyError`. `+` concatenates two texts; any other arithmetic on a
 * text cell raises `TypeError`.
 */
module Metrics {
  import opened Wrappers

  /** A cell: a number, or a text such as the `'Zero Division'` a metric writes. */
  datatype Cell = Num(x: real) | Text(s: string)

  /** The label read is missing (`KeyError`), or holds text where a number is needed (`TypeError`). */
  datatype MetricError = MissingLabel(name: string) | NotANumber(name: string)

  // Labels of the days-sales-outstanding ratio.
  const TradeReceivables := "Handelsvorderingen (40)"
  const EndorsedBills := "Door de vennootschap geëndosseerde handelseffecten in omloop (9150)"
  const Turnover := "Omzet (70)"
  const OtherOperatingIncome := "Andere bedrijfsopbrengsten (74)"
  const OperatingSubsidies := "Andere - exploitatiesubsidies en vanwege de overheid ontvangen compenserende bedragen (740)"
  const VatCharged := "In rekening gebrachte belasting op de toegevoegde waarde - door vennootschap (9146)"

  // Labels of the days-payables-outstanding ratio.
  const TradeDebts := "Handelsschulden (44)"
  const Purchases := "Aankopen (600/8)"
  const ServicesAndGoods := "Diensten en diverse goederen (61)"
  const VatPaid := "In rekening gebrachte belasting op de toegevoegde waarde - aan vennootschap (9145)"

  // Labels of the two inventory cycles.
  const MaterialsAndGoods := "Handelsgoederen, grond- en hulpstoffen (60)"
  const Remuneration := "Bezoldigingen, sociale lasten en pensioenen (62)"
  const Depreciation := "Afschrijvingen en waardeverminderingen op oprichtingskosten, op immateriële en materiële vaste activa (630)"
  const InventoryWriteDowns := "Waardeverminderingen op voorraden, op bestellingen in uitvoering en op handelsvorderingen: toevoegingen (terugnemingen) (631/4)"
  const Provisions := "Voorzieningen voor risico's en kosten: toevoegingen (bestedingen en terugnemingen) (635/8)"
  const OtherOperatingCharges := "Andere bedrijfskosten (640/8)"
  const RestructuringCosts := "Als herstructureringskosten geactiveerde bedrijfskosten (649)"
  const StockChange := "Voorraad goederen in bewerking en gereed product en bestellingen in uitvoering: toename (afname) (71)"
  const OwnWorkCapitalised := "Geproduceerde vaste activa (72)"
  const CapitalSubsidies := "Door de overheid toegekende subsidies, aangerekend op de resultatenrekening: Kapitaalsubsidies (9125)"
  const WorkInProgress := "Goederen in bewerking (32)"
  const FinishedGoods := "Gereed product (33)"
  const PropertyForSale := "Onroerende goederen bestemd voor verkoop (35)"
  const ContractsInProgress := "Bestellingen in uitvoering (37)"
  const RawMaterials := "Grond- en hulpstoffen (30/31)"
  const GoodsForResale := "Handelsgoederen (34)"
  const Prepayments := "Vooruitbetalingen (36)"

  // Labels of EBIT and EBITDA.
  const ProfitBeforeTax := "Winst (Verlies) van het boekjaar vóór belasting (9903)"
  const FixedAssetIncome := "Opbrengsten uit financiële vaste activa (750)"
  const CurrentAssetIncome := "Opbrengsten uit vlottende activa (751)"
  const OtherFinancialIncome := "Andere financiële opbrengsten (752/9)"
  const DebtCharges := "Kosten van schulden (650)"
  const OtherFinancialCharges := "Andere financiële kosten (652/9)"
  const NonRecurringIncome := "Niet-recurrente financiële opbrengsten (76B)"
  const NonRecurringCharges := "Niet-recurrente financiële kosten (66B)"
  const CurrentAssetWriteDowns := "Waardeverminderingen op vlottende activa andere dan voorraden, bestellingen in uitvoering en handelsvorderingen: toevoegingen (terugnemingen) (651)"

  /** The labels each metric reads, in reading order. */
  const DsoLabels := [TradeReceivables, EndorsedBills, Turnover, OtherOperatingIncome, OperatingSubsidies, VatCharged]
  const DpoLabels := [TradeDebts, Purchases, ServicesAndGoods, VatPaid]
  const DioFinishedLabels := [MaterialsAndGoods, ServicesAndGoods, Remuneration, Depreciation, InventoryWriteDowns,
                              Provisions, OtherOperatingCharges, RestructuringCosts, StockChange, OwnWorkCapitalised,
                              OperatingSubsidies, CapitalSubsidies, WorkInProgress, FinishedGoods, PropertyForSale,
                              ContractsInProgress]
  const DioCrudeLabels := [MaterialsAndGoods, RawMaterials, GoodsForResale, PropertyForSale, Prepayments]

  /** The labels of the denominators a ratio tests against zero before it divides. */
  const DsoDenominatorLabels := [Turnover, OtherOperatingIncome, OperatingSubsidies, VatCharged]
  const DpoDenominatorLabels := [Purchases, ServicesAndGoods, VatPaid]
  const DioCrudeDenominatorLabels := [RawMaterials, GoodsForResale, PropertyForSale, Prepayments]
  const EbitLabels := [ProfitBeforeTax, FixedAssetIncome, CurrentAssetIncome, OtherFinancialIncome, DebtCharges,
                       OtherFinancialCharges, NonRecurringIncome, NonRecurringCharges]
  const WriteDownLabels := [Depreciation, InventoryWriteDowns, CurrentAssetWriteDowns]

  /** The keys the metrics write. */
  const DsoKey := "DSO"
  const DpoKey := "DPO"
  const DioFinishedKey := "DIO_finished"
  const DioCrudeKey := "DIO_crude"
  const EbitKey := "ebit"
  const EbitdaKey := "ebitda"
  const MetricKeys := {DsoKey, DpoKey, DioFinishedKey, DioCrudeKey, EbitKey, EbitdaKey}

  const ZeroDivision := "Zero Division"

  /** Python's `round` of a number to an integer: the nearest one, a tie going to the even neighbour. */
  function RoundHalfEven(x: real): (n: int)
    ensures x - 0.5 <= n as real <= x + 0.5
    ensures (n as real == x - 0.5 || n as real == x + 0.5) ==> n % 2 == 0
  {
    var f := x.Floor;
    var frac := x - f as real;
    if frac < 0.5 then f
    else if frac > 0.5 then f + 1
    else if f % 2 == 0 then f
    else f + 1
  }

  /** Every label is present and holds a number. */
  predicate Numeric(cells: map<string, Cell>, labels: seq<string>) {
    forall l :: l in labels ==> l in cells && cells[l].Num?
  }

  /** The number under a label. */
  function Amount(cells: map<string, Cell>, lbl: string): real
    requires lbl in cells && cells[lbl].Num?
  {
    cells[lbl].x
  }

  /** The position of the first label the record lacks, or the number of labels. */
  function FirstMissing(cells: map<string, Cell>, labels: seq<string>): (i: nat)
    ensures i <= |labels|
    ensures i < |labels| ==> labels[i] !in cells
    ensures forall j :: 0 <= j < i ==> labels[j] in cells
  {
    if labels == [] || labels[0] !in cells then 0
    else 1 + FirstMissing(cells, labels[1..])
  }

  /** The position of the first label holding text, or the number of labels. */
  function FirstText(cells: map<string, Cell>, labels: seq<string>): (i: nat)
    requires forall j :: 0 <= j < |labels| ==> labels[j] in cells
    ensures i <= |labels|
    ensures i < |labels| ==> cells[labels[i]].Text?
    ensures forall j :: 0 <= j < i ==> cells[labels[j]].Num?
  {
    if labels == [] || cells[labels[0]].Text? then 0
    else 1 + FirstText(cells, labels[1..])
  }

  /**
   * The numbers under `labels`, read in order. A missing label is reported
   * before a text one; the code adds operands as it reads them, so there a
   * text operand met in a sum before the missing label raises first.
   */
  function Operands(cells: map<string, Cell>, labels: seq<string>): (r: Result<seq<real>, MetricError>)
    ensures r.Ok? <==> Numeric(cells, labels)
    ensures r.Ok? ==> |r.value| == |labels| && forall i :: 0 <= i < |labels| ==> cells[labels[i]] == Num(r.value[i])
    ensures r.Err? ==> r.error.name in labels
    ensures r.Err? ==> (r.error.MissingLabel? <==> exists i :: 0 <= i < |labels| && labels[i] !in cells)
  {
    var m := FirstMissing(cells, labels);
    if m < |labels| then Err(MissingLabel(labels[m]))
    else
      var t := FirstText(cells, labels);
      if t < |labels| then Err(NotANumber(labels[t]))
      else Ok(seq(|labels|, i requires 0 <= i < |labels| => cells[labels[i]].x))
  }

  /** Every label is present; reading a missing one raises `KeyError`. */
  predicate Present(cells: map<string, Cell>, labels: seq<string>) {
    forall l :: l in labels ==> l in cells
  }

  /** `a + b` on two cells: numbers add, texts concatenate, a number and a text raise `TypeError`. */
  function PlusCells(a: Cell, b: Cell): (r: Option<Cell>)
    ensures r.Some? <==> a.Num? == b.Num?
  {
    match (a, b)
    case (Num(x), Num(y)) => Some(Num(x + y))
    case (Text(u), Text(w)) => Some(Text(u + w))
    case _ => None
  }

  /**
   * A days ratio (DSO, DPO): `'Zero Division'` for a zero denominator, else
   * the ratio times 365, rounded. The test comes first, so a text numerator
   * raises (named `name`) only when the division is reached.
   */
  function DaysOutcome(numerator: Cell, denominator: real, name: string): Result<Cell, MetricError> {
    if denominator == 0.0 then Ok(Text(ZeroDivision))
    else match numerator
      case Num(x) => Ok(Num(RoundHalfEven(x / denominator * 365.0) as real))
      case Text(_) => Err(NotANumber(name))
  }

  /** An inventory cycle: 0 for a zero denominator, else the ratio, rounded. */
  function CycleRatio(numerator: real, denominator: real): Cell {
    if denominator == 0.0 then Num(0.0)
    else Num(RoundHalfEven(numerator / denominator) as real)
  }

  /** The crude cycle with the numerator as read: as for the days ratios, a text numerator raises only at the division. */
  function CycleOutcome(numerator: Cell, denominator: real, name: string): Result<Cell, MetricError> {
    match numerator
    case Num(x) => Ok(CycleRatio(x, denominator))
    case Text(_) => if denominator == 0.0 then Ok(Num(0.0)) else Err(NotANumber(name))
  }

  /** 70 + 74 - 740 + 9146. */
  function DsoDenominator(cells: map<string, Cell>): real
    requires Numeric(cells, DsoDenominatorLabels)
  {
    Amount(cells, Turnover) + Amount(cells, OtherOperatingIncome) - Amount(cells, OperatingSubsidies) + Amount(cells, VatCharged)
  }

  /** 600/8 + 61 + 9145. */
  function DpoDenominator(cells: map<string, Cell>): real
    requires Numeric(cells, DpoDenominatorLabels)
  {
    Amount(cells, Purchases) + Amount(cells, ServicesAndGoods) + Amount(cells, VatPaid)
  }

  /** 30/31 + 34 + 35 + 36. */
  function DioCrudeDenominator(cells: map<string, Cell>): real
    requires Numeric(cells, DioCrudeDenominatorLabels)
  {
    Amount(cells, RawMaterials) + Amount(cells, GoodsForResale) + Amount(cells, PropertyForSale) + Amount(cells, Prepayments)
  }

  /**
   * `days_sales_outstanding` as a value: the cell it writes under `DSO`, or
   * the error it raises. All six labels are read first; then 40 + 9150,
   * which concatenates two texts; then the denominator, which must be a
   * number.
   */
  function Dso(cells: map<string, Cell>): (r: Result<Cell, MetricError>)
    ensures r.Ok? <==>
      && Present(cells, DsoLabels) && Numeric(cells, DsoDenominatorLabels)
      && cells[TradeReceivables].Num? == cells[EndorsedBills].Num?
      && (cells[TradeReceivables].Num? || DsoDenominator(cells) == 0.0)
  {
    var m := FirstMissing(cells, DsoLabels);
    if m < |DsoLabels| then Err(MissingLabel(DsoLabels[m]))
    else
      assert DsoLabels[1] == EndorsedBills;
      match PlusCells(cells[TradeReceivables], cells[EndorsedBills])
      case None => Err(NotANumber(if cells[TradeReceivables].Text? then TradeReceivables else EndorsedBills))
      case Some(numerator) =>
        match Operands(cells, DsoDenominatorLabels)
        case Err(e) => Err(e)
        case Ok(v) => DaysOutcome(numerator, v[0] + v[1] - v[2] + v[3], TradeReceivables)
  }

  /** `days_payables_outstanding` as a value: the numerator 44 is not touched before the division. */
  function Dpo(cells: map<string, Cell>): (r: Result<Cell, MetricError>)
    ensures r.Ok? <==>
      && Present(cells, DpoLabels) && Numeric(cells, DpoDenominatorLabels)
      && (cells[TradeDebts].Num? || DpoDenominator(cells) == 0.0)
  {
    var m := FirstMissing(cells, DpoLabels);
    if m < |DpoLabels| then Err(MissingLabel(DpoLabels[m]))
    else
      match Operands(cells, DpoDenominatorLabels)
      case Err(e) => Err(e)
      case Ok(v) => DaysOutcome(cells[TradeDebts], v[0] + v[1] + v[2], TradeDebts)
  }

  /** `inventory_cycle_finished` as a value: operating charges net of own production over finished stock. */
  function DioFinished(cells: map<string, Cell>): (r: Result<Cell, MetricError>)
    ensures r.Ok? <==> Numeric(cells, DioFinishedLabels)
  {
    match Operands(cells, DioFinishedLabels)
    case Err(e) => Err(e)
    case Ok(v) => Ok(CycleRatio(FinishedNumerator(v), FinishedStock(v)))
  }

  /** The operating charges (the first eight operands) less the four that count as own production. */
  function FinishedNumerator(v: seq<real>): real
    requires |v| == 16
  {
    var charges := v[0] + v[1] + v[2] + v[3] + v[4] + v[5] + v[6] + v[7];
    charges - v[8] - v[9] - v[10] - v[11]
  }

  /** The finished stock: the last four operands. */
  function FinishedStock(v: seq<real>): real
    requires |v| == 16
  {
    v[12] + v[13] + v[14] + v[15]
  }

  /** `inventory_cycle_crude` as a value: the numerator 60 is not touched before the division. */
  function DioCrude(cells: map<string, Cell>): (r: Result<Cell, MetricError>)
    ensures r.Ok? <==>
      && Present(cells, DioCrudeLabels) && Numeric(cells, DioCrudeDenominatorLabels)
      && (cells[MaterialsAndGoods].Num? || DioCrudeDenominator(cells) == 0.0)
  {
    var m := FirstMissing(cells, DioCrudeLabels);
    if m < |DioCrudeLabels| then Err(MissingLabel(DioCrudeLabels[m]))
    else
      match Operands(cells, DioCrudeDenominatorLabels)
      case Err(e) => Err(e)
      case Ok(v) => CycleOutcome(cells[MaterialsAndGoods], v[0] + v[1] + v[2] + v[3], MaterialsAndGoods)
  }

  /** What `ebit_da` does to the record: write one amount under a key, or nothing (it then returns `None`). */
  datatype EbitOutcome = Written(key: string, amount: real) | NoValue

  /**
   * `ebit_da` as a value. The EBIT labels are read first; with `mode` other
   * than `'ebit'` the three write-down labels are read too, whatever `mode` is.
   */
  function EbitDaOutcome(cells: map<string, Cell>, mode: string): (r: Result<EbitOutcome, MetricError>)
    ensures r.Ok? <==> Numeric(cells, EbitLabels) && (mode == EbitKey || Numeric(cells, WriteDownLabels))
    ensures r.Ok? && r.value.Written? ==> r.value.key == mode
    ensures r.Ok? ==> (r.value.NoValue? <==> mode != EbitKey && mode != EbitdaKey)
  {
    match Operands(cells, EbitLabels)
    case Err(e) => Err(e)
    case Ok(v) =>
      var ebit := v[0] - v[1] - v[2] - v[3] + v[4] + v[5] - v[6] + v[7];
      if mode == EbitKey then Ok(Written(EbitKey, ebit))
      else
        match Operands(cells, WriteDownLabels)
        case Err(e) => Err(e)
        case Ok(w) =>
          var ebitda := ebit + w[0] + w[1] + w[2];
          if mode == EbitdaKey then Ok(Written(EbitdaKey, ebitda)) else Ok(NoValue)
  }

  /**
   * With every operand a number, DSO is `'Zero Division'` exactly when
   * 70 + 74 - 740 + 9146 is zero, and otherwise (40 + 9150) over that sum,
   * times 365, rounded.
   */
  lemma DsoFormula(cells: map<string, Cell>)
    requires Numeric(cells, DsoLabels)
    ensures var numerator := Amount(cells, TradeReceivables) + Amount(cells, EndorsedBills);
            var denominator := Amount(cells, Turnover) + Amount(cells, OtherOperatingIncome)
                               - Amount(cells, OperatingSubsidies) + Amount(cells, VatCharged);
            && (Dso(cells) == Ok(Text(ZeroDivision)) <==> denominator == 0.0)
            && (denominator != 0.0 ==> Dso(cells) == Ok(Num(RoundHalfEven(numerator / denominator * 365.0) as real)))
  {
    var v := Operands(cells, DsoLabels).value;
    assert cells[DsoLabels[0]] == Num(v[0]) && cells[DsoLabels[1]] == Num(v[1]) && cells[DsoLabels[2]] == Num(v[2]);
    assert cells[DsoLabels[3]] == Num(v[3]) && cells[DsoLabels[4]] == Num(v[4]) && cells[DsoLabels[5]] == Num(v[5]);
  }

  /** With every operand a number, DPO is `'Zero Division'` exactly when 600/8 + 61 + 9145 is zero, else 44 over it, times 365, rounded. */
  lemma DpoFormula(cells: map<string, Cell>)
    requires Numeric(cells, DpoLabels)
    ensures var denominator := Amount(cells, Purchases) + Amount(cells, ServicesAndGoods) + Amount(cells, VatPaid);
            && (Dpo(cells) == Ok(Text(ZeroDivision)) <==> denominator == 0.0)
            && (denominator != 0.0 ==> Dpo(cells) == Ok(Num(RoundHalfEven(Amount(cells, TradeDebts) / denominator * 365.0) as real)))
  {
    var v := Operands(cells, DpoLabels).value;
    assert cells[DpoLabels[0]] == Num(v[0]) && cells[DpoLabels[1]] == Num(v[1]);
    assert cells[DpoLabels[2]] == Num(v[2]) && cells[DpoLabels[3]] == Num(v[3]);
  }

  /**
   * With every operand a number, the finished-goods cycle is 0 when the
   * stock 32 + 33 + 35 + 37 (the last four labels) is zero, and otherwise
   * the charges 60 + 61 + 62 + 630 + 631/4 + 635/8 + 640/8 + 649 (the first
   * eight), less 71, 72, 740 and 9125 (the next four), over that stock,
   * rounded.
   */
  lemma DioFinishedFormula(cells: map<string, Cell>)
    requires Numeric(cells, DioFinishedLabels)
    ensures var l := DioFinishedLabels;
            var charges := Amount(cells, l[0]) + Amount(cells, l[1]) + Amount(cells, l[2]) + Amount(cells, l[3])
                           + Amount(cells, l[4]) + Amount(cells, l[5]) + Amount(cells, l[6]) + Amount(cells, l[7]);
            var numerator := charges - Amount(cells, l[8]) - Amount(cells, l[9]) - Amount(cells, l[10]) - Amount(cells, l[11]);
            var stock := Amount(cells, l[12]) + Amount(cells, l[13]) + Amount(cells, l[14]) + Amount(cells, l[15]);
            DioFinished(cells) == Ok(CycleRatio(numerator, stock))
  {
    FinishedOperands(cells, DioFinishedLabels);
  }

  /** The numerator and the stock, read off any sixteen numeric labels in order. */
  lemma FinishedOperands(cells: map<string, Cell>, labels: seq<string>)
    requires |labels| == 16 && Numeric(cells, labels)
    ensures FinishedNumerator(Operands(cells, labels).value)
            == Amount(cells, labels[0]) + Amount(cells, labels[1]) + Amount(cells, labels[2]) + Amount(cells, labels[3])
               + Amount(cells, labels[4]) + Amount(cells, labels[5]) + Amount(cells, labels[6]) + Amount(cells, labels[7])
               - Amount(cells, labels[8]) - Amount(cells, labels[9]) - Amount(cells, labels[10]) - Amount(cells, labels[11])
    ensures FinishedStock(Operands(cells, labels).value)
            == Amount(cells, labels[12]) + Amount(cells, labels[13]) + Amount(cells, labels[14]) + Amount(cells, labels[15])
  {
  }

  /** With every operand a number, the crude cycle is 0 when 30/31 + 34 + 35 + 36 is zero, else 60 over it, rounded. */
  lemma DioCrudeFormula(cells: map<string, Cell>)
    requires Numeric(cells, DioCrudeLabels)
    ensures var stock := Amount(cells, RawMaterials) + Amount(cells, GoodsForResale)
                         + Amount(cells, PropertyForSale) + Amount(cells, Prepayments);
            && (stock == 0.0 ==> DioCrude(cells) == Ok(Num(0.0)))
            && (stock != 0.0 ==> DioCrude(cells) == Ok(Num(RoundHalfEven(Amount(cells, MaterialsAndGoods) / stock) as real)))
  {
    var v := Operands(cells, DioCrudeLabels).value;
    assert forall i :: 0 <= i < 5 ==> cells[DioCrudeLabels[i]] == Num(v[i]);
  }

  /**
   * The zero test comes before the division: with text under 40 and 9150 (which
   * `+` concatenates) and numbers under the denominator's labels, DSO is
   * `'Zero Division'` when the denominator is zero and raises otherwise.
   */
  lemma DsoTextNumerator(cells: map<string, Cell>)
    requires Present(cells, DsoLabels) && Numeric(cells, DsoDenominatorLabels)
    requires TradeReceivables in cells && cells[TradeReceivables].Text?
    requires EndorsedBills in cells && cells[EndorsedBills].Text?
    ensures DsoDenominator(cells) == 0.0 ==> Dso(cells) == Ok(Text(ZeroDivision))
    ensures DsoDenominator(cells) != 0.0 ==> Dso(cells) == Err(NotANumber(TradeReceivables))
  {
  }

  /** With text under 44, DPO is `'Zero Division'` when 600/8 + 61 + 9145 is zero, and raises otherwise. */
  lemma DpoTextNumerator(cells: map<string, Cell>)
    requires Present(cells, DpoLabels) && Numeric(cells, DpoDenominatorLabels)
    requires TradeDebts in cells && cells[TradeDebts].Text?
    ensures DpoDenominator(cells) == 0.0 ==> Dpo(cells) == Ok(Text(ZeroDivision))
    ensures DpoDenominator(cells) != 0.0 ==> Dpo(cells) == Err(NotANumber(TradeDebts))
  {
  }

  /** With text under 60, the crude cycle is 0 when 30/31 + 34 + 35 + 36 is zero, and raises otherwise. */
  lemma DioCrudeTextNumerator(cells: map<string, Cell>)
    requires Present(cells, DioCrudeLabels) && Numeric(cells, DioCrudeDenominatorLabels)
    requires MaterialsAndGoods in cells && cells[MaterialsAndGoods].Text?
    ensures DioCrudeDenominator(cells) == 0.0 ==> DioCrude(cells) == Ok(Num(0.0))
    ensures DioCrudeDenominator(cells) != 0.0 ==> DioCrude(cells) == Err(NotANumber(MaterialsAndGoods))
  {
  }

  /** EBIT is 9903 - 750 - 751 - 752/9 + 650 + 652/9 - 76B + 66B, and with `'ebit'` nothing else is read. */
  lemma EbitFormula(cells: map<string, Cell>)
    requires Numeric(cells, EbitLabels)
    ensures EbitDaOutcome(cells, EbitKey) == Ok(Written(EbitKey,
              Amount(cells, ProfitBeforeTax) - Amount(cells, FixedAssetIncome) - Amount(cells, CurrentAssetIncome)
              - Amount(cells, OtherFinancialIncome) + Amount(cells, DebtCharges) + Amount(cells, OtherFinancialCharges)
              - Amount(cells, NonRecurringIncome) + Amount(cells, NonRecurringCharges)))
  {
    var v := Operands(cells, EbitLabels).value;
    assert forall i :: 0 <= i < 8 ==> cells[EbitLabels[i]] == Num(v[i]);
  }

  /** EBITDA is EBIT plus the write-downs 630, 631/4 and 651. */
  lemma EbitdaExtendsEbit(cells: map<string, Cell>)
    requires EbitDaOutcome(cells, EbitdaKey).Ok?
    ensures EbitDaOutcome(cells, EbitKey).Ok?
    ensures EbitDaOutcome(cells, EbitdaKey).value.amount
            == EbitDaOutcome(cells, EbitKey).value.amount
               + Amount(cells, Depreciation) + Amount(cells, InventoryWriteDowns) + Amount(cells, CurrentAssetWriteDowns)
  {
    var w := Operands(cells, WriteDownLabels).value;
    assert forall i :: 0 <= i < 3 ==> cells[WriteDownLabels[i]] == Num(w[i]);
  }

  lemma {:induction false} FirstMissingUnaffected(cells: map<string, Cell>, labels: seq<string>, k: string, c: Cell)
    requires k !in labels
    ensures FirstMissing(cells[k := c], labels) == FirstMissing(cells, labels)
    decreases |labels|
  {
    if labels != [] && labels[0] in cells {
      FirstMissingUnaffected(cells, labels[1..], k, c);
    }
  }

  lemma {:induction false} FirstTextUnaffected(cells: map<string, Cell>, labels: seq<string>, k: string, c: Cell)
    requires k !in labels
    requires forall j :: 0 <= j < |labels| ==> labels[j] in cells
    ensures FirstText(cells[k := c], labels) == FirstText(cells, labels)
    decreases |labels|
  {
    if labels != [] && cells[labels[0]].Num? {
      FirstTextUnaffected(cells, labels[1..], k, c);
    }
  }

  /** Writing a key a computation does not read leaves its operands as they were. */
  lemma OperandsUnaffected(cells: map<string, Cell>, labels: seq<string>, k: string, c: Cell)
    requires k !in labels
    ensures Operands(cells[k := c], labels) == Operands(cells, labels)
  {
    FirstMissingUnaffected(cells, labels, k, c);
    if FirstMissing(cells, labels) == |labels| {
      FirstTextUnaffected(cells, labels, k, c);
      if FirstText(cells, labels) == |labels| {
        var before, after := Operands(cells, labels).value, Operands(cells[k := c], labels).value;
        forall i | 0 <= i < |labels| ensures after[i] == before[i] {
          assert labels[i] in labels;
        }
        assert after == before;
      }
    }
  }

  /** No label a metric reads is a key a metric writes. */
  lemma DsoLabelsAreNotMetricKeys(k: string)
    requires k in MetricKeys
    ensures k !in DsoLabels && k !in DsoDenominatorLabels
  {
  }

  lemma DpoLabelsAreNotMetricKeys(k: string)
    requires k in MetricKeys
    ensures k !in DpoLabels && k !in DpoDenominatorLabels
  {
  }

  lemma DioFinishedLabelsAreNotMetricKeys(k: string)
    requires k in MetricKeys
    ensures k !in DioFinishedLabels
  {
  }

  lemma DioCrudeLabelsAreNotMetricKeys(k: string)
    requires k in MetricKeys
    ensures k !in DioCrudeLabels && k !in DioCrudeDenominatorLabels
  {
  }

  lemma EbitLabelsAreNotMetricKeys(k: string)
    requires k in MetricKeys
    ensures k !in EbitLabels && k !in WriteDownLabels
  {
  }

  lemma DsoIgnoresMetricKeys(cells: map<string, Cell>, k: string, c: Cell)
    requires k in MetricKeys
    ensures Dso(cells[k := c]) == Dso(cells)
  {
    DsoLabelsAreNotMetricKeys(k);
    FirstMissingUnaffected(cells, DsoLabels, k, c);
    OperandsUnaffected(cells, DsoDenominatorLabels, k, c);
  }

  lemma DpoIgnoresMetricKeys(cells: map<string, Cell>, k: string, c: Cell)
    requires k in MetricKeys
    ensures Dpo(cells[k := c]) == Dpo(cells)
  {
    DpoLabelsAreNotMetricKeys(k);
    FirstMissingUnaffected(cells, DpoLabels, k, c);
    OperandsUnaffected(cells, DpoDenominatorLabels, k, c);
  }

  lemma DioFinishedIgnoresMetricKeys(cells: map<string, Cell>, k: string, c: Cell)
    requires k in MetricKeys
    ensures DioFinished(cells[k := c]) == DioFinished(cells)
  {
    DioFinishedLabelsAreNotMetricKeys(k);
    OperandsUnaffected(cells, DioFinishedLabels, k, c);
  }

  lemma DioCrudeIgnoresMetricKeys(cells: map<string, Cell>, k: string, c: Cell)
    requires k in MetricKeys
    ensures DioCrude(cells[k := c]) == DioCrude(cells)
  {
    DioCrudeLabelsAreNotMetricKeys(k);
    FirstMissingUnaffected(cells, DioCrudeLabels, k, c);
    OperandsUnaffected(cells, DioCrudeDenominatorLabels, k, c);
  }

  lemma EbitDaIgnoresMetricKeys(cells: map<string, Cell>, k: string, c: Cell, mode: string)
    requires k in MetricKeys
    ensures EbitDaOutcome(cells[k := c], mode) == EbitDaOutcome(cells, mode)
  {
    EbitLabelsAreNotMetricKeys(k);
    OperandsUnaffected(cells, EbitLabels, k, c);
    OperandsUnaffected(cells, WriteDownLabels, k, c);
  }

  /**
   * No metric reads a key any metric writes: each metric gives the same
   * outcome before and after any metric has written its result, so the
   * metrics may run in any order and running one twice changes nothing.
   */
  lemma MetricsIndependent(cells: map<string, Cell>, k: string, c: Cell, mode: string)
    requires k in MetricKeys
    ensures Dso(cells[k := c]) == Dso(cells)
    ensures Dpo(cells[k := c]) == Dpo(cells)
    ensures DioFinished(cells[k := c]) == DioFinished(cells)
    ensures DioCrude(cells[k := c]) == DioCrude(cells)
    ensures EbitDaOutcome(cells[k := c], mode) == EbitDaOutcome(cells, mode)
  {
    DsoIgnoresMetricKeys(cells, k, c);
    DpoIgnoresMetricKeys(cells, k, c);
    DioFinishedIgnoresMetricKeys(cells, k, c);
    DioCrudeIgnoresMetricKeys(cells, k, c);
    EbitDaIgnoresMetricKeys(cells, k, c, mode);
  }

  /** A row of the financial table, updated in place by the metric functions. */
  class FinancialRecord {
    var cells: map<string, Cell>

    constructor (cells: map<string, Cell>)
      ensures this.cells == cells
    {
      this.cells := cells;
    }

    /** `days_sales_outstanding`: writes `DSO` and nothing else, or raises and writes nothing. */
    method DaysSalesOutstanding() returns (r: Result<Cell, MetricError>)
      modifies this
      ensures r == Dso(old(cells))
      ensures cells == (if r.Ok? then old(cells)[DsoKey := r.value] else old(cells))
    {
      var m := FirstMissing(cells, DsoLabels);
      if m < |DsoLabels| {
        return Err(MissingLabel(DsoLabels[m]));
      }
      assert DsoLabels[1] == EndorsedBills;
      var numerator := PlusCells(cells[TradeReceivables], cells[EndorsedBills]);
      if numerator.None? {
        return Err(NotANumber(if cells[TradeReceivables].Text? then TradeReceivables else EndorsedBills));
      }
      var operands := Operands(cells, DsoDenominatorLabels);
      if operands.Err? {
        return Err(operands.error);
      }
      var v := operands.value;
      var denominator := v[0] + v[1] - v[2] + v[3];
      var dso;
      if denominator == 0.0 {
        dso := Text(ZeroDivision);
      } else if numerator.value.Text? {
        return Err(NotANumber(TradeReceivables));
      } else {
        dso := Num(RoundHalfEven(numerator.value.x / denominator * 365.0) as real);
      }
      cells := cells[DsoKey := dso];
      r := Ok(dso);
    }

    /** `days_payables_outstanding`: writes `DPO` and nothing else, or raises and writes nothing. */
    method DaysPayablesOutstanding() returns (r: Result<Cell, MetricError>)
      modifies this
      ensures r == Dpo(old(cells))
      ensures cells == (if r.Ok? then old(cells)[DpoKey := r.value] else old(cells))
    {
      var m := FirstMissing(cells, DpoLabels);
      if m < |DpoLabels| {
        return Err(MissingLabel(DpoLabels[m]));
      }
      var operands := Operands(cells, DpoDenominatorLabels);
      if operands.Err? {
        return Err(operands.error);
      }
      var v := operands.value;
      var numerator := cells[TradeDebts];
      var denominator := v[0] + v[1] + v[2];
      var dpo;
      if denominator == 0.0 {
        dpo := Text(ZeroDivision);
      } else if numerator.Text? {
        return Err(NotANumber(TradeDebts));
      } else {
        dpo := Num(RoundHalfEven(numerator.x / denominator * 365.0) as real);
      }
      cells := cells[DpoKey := dpo];
      r := Ok(dpo);
    }

    /** `inventory_cycle_finished`: writes `DIO_finished` and nothing else, or raises and writes nothing. */
    method InventoryCycleFinished() returns (r: Result<Cell, MetricError>)
      modifies this
      ensures r == DioFinished(old(cells))
      ensures cells == (if r.Ok? then old(cells)[DioFinishedKey := r.value] else old(cells))
    {
      var operands := Operands(cells, DioFinishedLabels);
      if operands.Err? {
        return Err(operands.error);
      }
      var numerator := FinishedNumerator(operands.value);
      var denominator := FinishedStock(operands.value);
      var dio;
      if denominator == 0.0 {
        dio := Num(0.0);
      } else {
        dio := Num(RoundHalfEven(numerator / denominator) as real);
      }
      cells := cells[DioFinishedKey := dio];
      r := Ok(dio);
    }

    /** `inventory_cycle_crude`: writes `DIO_crude` and nothing else, or raises and writes nothing. */
    method InventoryCycleCrude() returns (r: Result<Cell, MetricError>)
      modifies this
      ensures r == DioCrude(old(cells))
      ensures cells == (if r.Ok? then old(cells)[DioCrudeKey := r.value] else old(cells))
    {
      var m := FirstMissing(cells, DioCrudeLabels);
      if m < |DioCrudeLabels| {
        return Err(MissingLabel(DioCrudeLabels[m]));
      }
      var operands := Operands(cells, DioCrudeDenominatorLabels);
      if operands.Err? {
        return Err(operands.error);
      }
      var v := operands.value;
      var numerator := cells[MaterialsAndGoods];
      var denominator := v[0] + v[1] + v[2] + v[3];
      var dio;
      if denominator == 0.0 {
        dio := Num(0.0);
      } else if numerator.Text? {
        return Err(NotANumber(MaterialsAndGoods));
      } else {
        dio := Num(RoundHalfEven(numerator.x / denominator) as real);
      }
      cells := cells[DioCrudeKey := dio];
      r := Ok(dio);
    }

    /**
     * `ebit_da`: with `'ebit'` or `'ebitda'` writes that key and nothing
     * else; with any other `mode` writes nothing; raises and writes nothing
     * when a label it reads is missing or not a number.
     */
    method EbitDa(mode: string) returns (r: Result<EbitOutcome, MetricError>)
      modifies this
      ensures r == EbitDaOutcome(old(cells), mode)
      ensures cells == (if r.Ok? && r.value.Written? then old(cells)[mode := Num(r.value.amount)] else old(cells))
    {
      var operands := Operands(cells, EbitLabels);
      if operands.Err? {
        return Err(operands.error);
      }
      var v := operands.value;
      var ebit := v[0] - v[1] - v[2] - v[3] + v[4] + v[5] - v[6] + v[7];
      if mode == EbitKey {
        cells := cells[EbitKey := Num(ebit)];
        return Ok(Written(EbitKey, ebit));
      }
      var writeDowns := Operands(cells, WriteDownLabels);
      if writeDowns.Err? {
        return Err(writeDowns.error);
      }
      var w := writeDowns.value;
      var ebitda := ebit + w[0] + w[1] + w[2];
      if mode == EbitdaKey {
        cells := cells[EbitdaKey := Num(ebitda)];
        return Ok(Written(EbitdaKey, ebitda));
      }
      r := Ok(NoValue);
    }
  }
}
