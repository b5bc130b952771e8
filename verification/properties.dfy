/** Properties that relate several calls of the viability calculation. */
module ViabilityProperties {
  import opened Wrappers
  import opened Types
  import opened Constants
  import opened Viability
  import Selection

  /** Writes normalised numbers back into the form, each field holding its value. */
  function AsInputs(n: Numbers): FarmInputs
  {
    FarmInputs(
      preco := Some(n.pBase), peso := Some(n.pInicial), comissao := Some(n.comm),
      frete := Some(n.fr), castracao := Some(n.cast), gastoDiario := Some(n.gDiario),
      gmd := Some(n.gmdVal), rendimentoCarcaca := Some(n.rend),
      precoVendaArroba := Some(n.pVendaAt))
  }

  /** Normalisation is idempotent: re-entering its own output changes nothing. */
  lemma NormalizeIdempotent(inputs: FarmInputs)
    ensures Normalize(AsInputs(Normalize(inputs))) == Normalize(inputs)
  {
  }

  /** Every field empty or zero. */
  predicate AllBlank(inputs: FarmInputs) {
    && IsBlank(inputs.preco) && IsBlank(inputs.peso) && IsBlank(inputs.comissao)
    && IsBlank(inputs.frete) && IsBlank(inputs.castracao) && IsBlank(inputs.gastoDiario)
    && IsBlank(inputs.gmd) && IsBlank(inputs.rendimentoCarcaca) && IsBlank(inputs.precoVendaArroba)
  }

  /** All figures of a projection row except its day count are zero. */
  predicate ZeroRow(p: ProjectionData) {
    && p.pesoFinal == 0.0 && p.arrobasCarneLiquidaTotal == 0.0
    && p.custoPorArrobaProduzida == 0.0 && p.custoTotalPeriodo == 0.0
    && p.receitaTotal == 0.0 && p.lucroPrejuizo == 0.0 && p.rentabilidadeMensal == 0.0
  }

  /** Numbers with no price, weight, gain or costs; the yield and sale price are free. */
  predicate NothingEntered(n: Numbers) {
    && n.pBase == 0.0 && n.pInicial == 0.0 && n.comm == 0.0 && n.fr == 0.0
    && n.cast == 0.0 && n.gDiario == 0.0 && n.gmdVal == 0.0
  }

  /** An all-blank form normalises to numbers with nothing entered. */
  lemma BlankNormalizesToNothing(inputs: FarmInputs)
    requires AllBlank(inputs)
    ensures NothingEntered(Normalize(inputs))
  {
  }

  /** The memo is the evaluation of the normalised form over the configured periods. */
  lemma ResultsOverConfiguredPeriods(inputs: FarmInputs)
    ensures ComputeResults(inputs) == Evaluate(Normalize(inputs), Periodos())
  {
  }

  /** With nothing entered, every period's row is zero, whatever its length. */
  lemma BlankRow(n: Numbers, acq: Acquisition, dias: nat)
    requires NothingEntered(n)
    requires acq.custoTotalAquisicao == 0.0
    ensures ZeroRow(Project(n, acq, dias))
  {
  }

  /**
   * With nothing entered, all figures are zero and every period ties at 0%:
   * the source's fold returns the last period, the earliest-on-tie rule the first.
   */
  lemma BlankEvaluation(n: Numbers, periodos: seq<nat>)
    requires NothingEntered(n)
    requires |periodos| > 0
    ensures Evaluate(n, periodos).acquisition == Acquisition(0.0, 0.0, 0.0, 0.0, 0.0)
    ensures forall i :: 0 <= i < |periodos| ==> ZeroRow(Evaluate(n, periodos).projections[i])
    ensures Evaluate(n, periodos).bestProjection.dias == periodos[|periodos| - 1]
    ensures EvaluateEarliest(n, periodos).bestProjection.dias == periodos[0]
  {
    var r := Evaluate(n, periodos);
    forall i | 0 <= i < |r.projections|
      ensures ZeroRow(r.projections[i])
    {
      BlankRow(n, r.acquisition, periodos[i]);
    }
    Selection.LastMaximumWins(r.projections, |periodos| - 1);
    Selection.FirstMaximumWins(r.projections, 0);
  }

  /**
   * An empty form shows zeros everywhere (the yield becomes 50, but the final
   * weight is 0), and every period ties at 0% so the fold lands on 360 days.
   */
  lemma BlankInputsGiveZeroOutputs(inputs: FarmInputs)
    requires AllBlank(inputs)
    ensures var r := ComputeResults(inputs);
      && r.acquisition == Acquisition(0.0, 0.0, 0.0, 0.0, 0.0)
      && (forall i :: 0 <= i < |r.projections| ==> ZeroRow(r.projections[i]))
      && r.bestProjection.dias == 360
  {
    BlankNormalizesToNothing(inputs);
    BlankEvaluation(Normalize(inputs), Periodos());
    ResultsOverConfiguredPeriods(inputs);
    PeriodosEndpoints();
  }

  /** The form after "clear fields": every field empty. */
  function ClearedForm(): (f: FarmInputs)
    ensures AllBlank(f)
  {
    FarmInputs(None, None, None, None, None, None, None, None, None)
  }

  /**
   * The source's tie-break differs from the earliest-on-tie rule: for any
   * form whose fields are all empty or zero the code reports 360 days while
   * the earliest-on-tie rule reports 60.
   */
  lemma BlankInputsSelectLastPeriod(inputs: FarmInputs)
    requires AllBlank(inputs)
    ensures ComputeResults(inputs).bestProjection.dias == 360
    ensures EvaluateEarliest(Normalize(inputs), Periodos()).bestProjection.dias == 60
  {
    BlankNormalizesToNothing(inputs);
    BlankEvaluation(Normalize(inputs), Periodos());
    ResultsOverConfiguredPeriods(inputs);
    PeriodosEndpoints();
  }

  /** The cleared form is one such input: 360 days as written, 60 under the earliest-on-tie rule. */
  lemma ClearedFormSelectsLastPeriod()
    ensures ComputeResults(ClearedForm()).bestProjection.dias == 360
    ensures EvaluateEarliest(Normalize(ClearedForm()), Periodos()).bestProjection.dias == 60
  {
    BlankInputsSelectLastPeriod(ClearedForm());
  }

  /** Where the maximum monthly return is attained only once, both tie-breaks agree. */
  lemma TieBreaksAgreeOnUniqueMaximum(n: Numbers, periodos: seq<nat>, j: nat)
    requires j < |periodos|
    requires forall i :: 0 <= i < |periodos| && i != j ==>
      Evaluate(n, periodos).projections[i].rentabilidadeMensal
        < Evaluate(n, periodos).projections[j].rentabilidadeMensal
    ensures Evaluate(n, periodos).bestProjection == EvaluateEarliest(n, periodos).bestProjection
    ensures Evaluate(n, periodos).bestProjection.dias == periodos[j]
  {
    Selection.UniqueMaximumAgrees(Evaluate(n, periodos).projections, j);
  }

  /** `hi` is `lo` with the sale price raised (or kept): every other number is the same. */
  predicate HigherSalePrice(lo: Numbers, hi: Numbers) {
    && hi.pBase == lo.pBase && hi.pInicial == lo.pInicial && hi.comm == lo.comm
    && hi.fr == lo.fr && hi.cast == lo.cast && hi.gDiario == lo.gDiario
    && hi.gmdVal == lo.gmdVal && hi.rend == lo.rend
    && lo.pVendaAt <= hi.pVendaAt
  }

  /**
   * Raising the sale price never lowers a period's revenue or profit, provided
   * the final weight and the yield are not negative.
   */
  lemma SalePriceMonotone(lo: Numbers, hi: Numbers, acq: Acquisition, dias: nat)
    requires HigherSalePrice(lo, hi)
    requires lo.pInicial + lo.gmdVal * dias as real >= 0.0
    requires lo.rend >= 0.0
    ensures Project(lo, acq, dias).receitaTotal <= Project(hi, acq, dias).receitaTotal
    ensures Project(lo, acq, dias).lucroPrejuizo <= Project(hi, acq, dias).lucroPrejuizo
  {
    CarcassArrobasNonNegative(lo, acq, dias);
    SalePriceOnlyMovesRevenue(lo, hi, acq, dias);
    RowsMonotone(Project(lo, acq, dias), Project(hi, acq, dias), lo.pVendaAt, hi.pVendaAt);
  }

  /** Carcass arrobas from a non-negative final weight and yield are non-negative. */
  lemma CarcassArrobasNonNegative(n: Numbers, acq: Acquisition, dias: nat)
    requires n.pInicial + n.gmdVal * dias as real >= 0.0
    requires n.rend >= 0.0
    ensures Project(n, acq, dias).arrobasCarneLiquidaTotal >= 0.0
  {
    var pesoFinal := n.pInicial + n.gmdVal * dias as real;
    assert pesoFinal * (n.rend / 100.0) >= 0.0;
  }

  /** The sale price changes neither the carcass arrobas nor the total cost of a period. */
  lemma SalePriceOnlyMovesRevenue(lo: Numbers, hi: Numbers, acq: Acquisition, dias: nat)
    requires HigherSalePrice(lo, hi)
    ensures Project(hi, acq, dias).arrobasCarneLiquidaTotal == Project(lo, acq, dias).arrobasCarneLiquidaTotal
    ensures Project(hi, acq, dias).custoTotalPeriodo == Project(lo, acq, dias).custoTotalPeriodo
  {
    RowWithoutPrice(lo, acq, dias);
    RowWithoutPrice(hi, acq, dias);
  }

  /** Carcass arrobas and total cost of a row depend on the weight, gain, yield and costs only. */
  lemma RowWithoutPrice(n: Numbers, acq: Acquisition, dias: nat)
    ensures Project(n, acq, dias).arrobasCarneLiquidaTotal
              == CarcassArrobas(n.pInicial + n.gmdVal * dias as real, n.rend)
    ensures Project(n, acq, dias).custoTotalPeriodo == acq.custoTotalAquisicao + n.gDiario * dias as real
  {
  }

  /**
   * Two rows with the same non-negative carcass arrobas and the same total
   * cost, sold at a lower and a higher price, are ordered by revenue and profit.
   */
  lemma RowsMonotone(lo: ProjectionData, hi: ProjectionData, price: real, higher: real)
    requires price <= higher
    requires lo.arrobasCarneLiquidaTotal == hi.arrobasCarneLiquidaTotal >= 0.0
    requires lo.custoTotalPeriodo == hi.custoTotalPeriodo
    requires SoldAt(lo, price) && SoldAt(hi, higher)
    ensures lo.receitaTotal <= hi.receitaTotal
    ensures lo.lucroPrejuizo <= hi.lucroPrejuizo
  {
    MulMonotone(lo.arrobasCarneLiquidaTotal, price, higher);
  }

  /** A row's revenue is its carcass arrobas at `price`, and its profit is revenue less total cost. */
  predicate SoldAt(p: ProjectionData, price: real) {
    && p.receitaTotal == p.arrobasCarneLiquidaTotal * price
    && p.lucroPrejuizo + p.custoTotalPeriodo == p.receitaTotal
  }

  /** Multiplying by a non-negative factor preserves order. */
  lemma MulMonotone(k: real, x: real, y: real)
    requires k >= 0.0 && x <= y
    ensures k * x <= k * y
  {
    assert k * y - k * x == k * (y - x);
  }

  /** The same monotonicity for every period of the whole calculation. */
  lemma SalePriceMonotoneAllPeriods(lo: Numbers, hi: Numbers, periodos: seq<nat>)
    requires |periodos| > 0
    requires HigherSalePrice(lo, hi)
    requires forall i :: 0 <= i < |periodos| ==> lo.pInicial + lo.gmdVal * periodos[i] as real >= 0.0
    requires lo.rend >= 0.0
    ensures forall i :: 0 <= i < |periodos| ==>
      && Evaluate(lo, periodos).projections[i].receitaTotal <= Evaluate(hi, periodos).projections[i].receitaTotal
      && Evaluate(lo, periodos).projections[i].lucroPrejuizo <= Evaluate(hi, periodos).projections[i].lucroPrejuizo
  {
    assert ComputeAcquisition(lo) == ComputeAcquisition(hi);
    forall i | 0 <= i < |periodos|
      ensures Evaluate(lo, periodos).projections[i].receitaTotal <= Evaluate(hi, periodos).projections[i].receitaTotal
      ensures Evaluate(lo, periodos).projections[i].lucroPrejuizo <= Evaluate(hi, periodos).projections[i].lucroPrejuizo
    {
      SalePriceMonotone(lo, hi, ComputeAcquisition(lo), periodos[i]);
    }
  }

  /**
   * Over a list of positive periods the monthly return is always the ROI
   * spread over the months, and its zero fallback only fires when the total
   * cost is not positive.
   */
  lemma MonthlyReturnIsRoiPerMonth(n: Numbers, periodos: seq<nat>)
    requires |periodos| > 0
    requires forall k :: 0 <= k < |periodos| ==> periodos[k] > 0
    ensures forall i :: 0 <= i < |periodos| ==> ReturnIsRoiPerMonth(Evaluate(n, periodos).projections[i])
  {
    var r := Evaluate(n, periodos);
    forall i | 0 <= i < |periodos|
      ensures ReturnIsRoiPerMonth(r.projections[i])
    {
      MonthlyReturn(n, r.acquisition, periodos[i]);
    }
  }

  /**
   * For the configured periods the month count is never zero, so the
   * monthly-return fallback never fires on it.
   */
  lemma ConfiguredMonthlyReturn(inputs: FarmInputs)
    ensures forall i :: 0 <= i < |ComputeResults(inputs).projections| ==>
      ReturnIsRoiPerMonth(ComputeResults(inputs).projections[i])
  {
    PeriodosWholeMonths();
    var n := Normalize(inputs);
    assert ComputeResults(inputs) == Evaluate(n, Periodos());
    MonthlyReturnIsRoiPerMonth(n, Periodos());
  }

  /** The novilha preset with a purchase price of 1000 supplied. */
  function NovilhaWithPrice(): FarmInputs
  {
    ScenarioDefaults(Novilha).(preco := Some(1000.0))
  }

  /** The novilha form with the price supplied, after normalisation. */
  lemma NovilhaNumbers()
    ensures Normalize(NovilhaWithPrice()) == Numbers(1000.0, 300.0, 3.0, 65.0, 0.0, 2.5, 0.5, 50.0, 280.0)
  {
  }

  /** Acquisition figures of the worked example. */
  lemma NovilhaAcquisition(n: Numbers)
    requires n == Numbers(1000.0, 300.0, 3.0, 65.0, 0.0, 2.5, 0.5, 50.0, 280.0)
    ensures ComputeAcquisition(n).arrobasBrutas == 10.0
    ensures ComputeAcquisition(n).custoTotalAquisicao == 1095.0
    ensures ComputeAcquisition(n).custoPorArrobaAquisicao == 109.5
  {
  }

  /** The 60-day row of the worked example. */
  lemma NovilhaSixtyDays(n: Numbers, acq: Acquisition)
    requires n == Numbers(1000.0, 300.0, 3.0, 65.0, 0.0, 2.5, 0.5, 50.0, 280.0)
    requires acq.custoTotalAquisicao == 1095.0
    ensures var p := Project(n, acq, 60);
      && p.pesoFinal == 330.0
      && p.arrobasCarneLiquidaTotal == 11.0
      && p.custoTotalPeriodo == 1245.0
      && p.receitaTotal == 3080.0
      && p.lucroPrejuizo == 1835.0
      && p.rentabilidadeMensal == 91750.0 / 1245.0
  {
  }

  /** The worked example: acquisition figures and the 60-day row of the novilha preset. */
  lemma NovilhaWorkedExample()
    ensures var r := ComputeResults(NovilhaWithPrice());
      && r.acquisition.arrobasBrutas == 10.0
      && r.acquisition.custoTotalAquisicao == 1095.0
      && r.acquisition.custoPorArrobaAquisicao == 109.5
      && r.projections[0].dias == 60
      && r.projections[0].pesoFinal == 330.0
      && r.projections[0].arrobasCarneLiquidaTotal == 11.0
      && r.projections[0].custoTotalPeriodo == 1245.0
      && r.projections[0].receitaTotal == 3080.0
      && r.projections[0].lucroPrejuizo == 1835.0
      && r.projections[0].rentabilidadeMensal == 91750.0 / 1245.0
  {
    var n := Normalize(NovilhaWithPrice());
    NovilhaNumbers();
    var r := ComputeResults(NovilhaWithPrice());
    assert r == Evaluate(n, Periodos());
    NovilhaAcquisition(n);
    NovilhaSixtyDays(n, r.acquisition);
    assert r.projections[0] == Project(n, r.acquisition, 60);
  }
}
