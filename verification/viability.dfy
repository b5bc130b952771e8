/**
 * The cattle viability calculation (App.tsx:180-230): input fallbacks, the
 * acquisition calculator, the per-period projection sweep and the choice of
 * the best period.
 */
module Viability {
  import opened Wrappers
  import opened Types
  import opened Constants
  import Selection

  /** A field counts as blank when it is unparseable or parses to exactly zero. */
  predicate IsBlank(f: Field) {
    f.None? || f.value == 0.0
  }

  /** `v` is what the field reads as under JavaScript's `parseFloat(x) || fallback`. */
  predicate ReadsAs(f: Field, v: real, fallback: real) {
    (IsBlank(f) ==> v == fallback) && (!IsBlank(f) ==> f == Some(v))
  }

  /** `parseFloat(x) || fallback`: zero, like an unparseable field, takes the fallback. */
  function OrFallback(f: Field, fallback: real): (v: real)
    ensures ReadsAs(f, v, fallback)
    ensures fallback != 0.0 ==> v != 0.0
  {
    match f
    case None => fallback
    case Some(x) => if x == 0.0 then fallback else x
  }

  /** Input normalisation (App.tsx:181-189): every field falls back to 0, the yield to 50. */
  function Normalize(inputs: FarmInputs): (n: Numbers)
    ensures ReadsAs(inputs.preco, n.pBase, 0.0)
    ensures ReadsAs(inputs.peso, n.pInicial, 0.0)
    ensures ReadsAs(inputs.comissao, n.comm, 0.0)
    ensures ReadsAs(inputs.frete, n.fr, 0.0)
    ensures ReadsAs(inputs.castracao, n.cast, 0.0)
    ensures ReadsAs(inputs.gastoDiario, n.gDiario, 0.0)
    ensures ReadsAs(inputs.gmd, n.gmdVal, 0.0)
    ensures ReadsAs(inputs.rendimentoCarcaca, n.rend, 50.0)
    ensures ReadsAs(inputs.precoVendaArroba, n.pVendaAt, 0.0)
    ensures n.rend != 0.0
  {
    Numbers(
      pBase := OrFallback(inputs.preco, 0.0),
      pInicial := OrFallback(inputs.peso, 0.0),
      comm := OrFallback(inputs.comissao, 0.0),
      fr := OrFallback(inputs.frete, 0.0),
      cast := OrFallback(inputs.castracao, 0.0),
      gDiario := OrFallback(inputs.gastoDiario, 0.0),
      gmdVal := OrFallback(inputs.gmd, 0.0),
      rend := OrFallback(inputs.rendimentoCarcaca, 50.0),
      pVendaAt := OrFallback(inputs.precoVendaArroba, 0.0))
  }

  /** The guarded division used throughout: zero whenever the denominator is not positive. */
  function GuardedDiv(num: real, den: real): real
  {
    if den > 0.0 then num / den else 0.0
  }

  /**
   * The guarded quotient times a positive denominator gives back the
   * numerator; with a non-positive denominator it is zero. Kept out of
   * `GuardedDiv`'s own contract so that callers unfolding a projection do
   * not carry three nonlinear facts they rarely need.
   */
  lemma GuardedDivInverse(num: real, den: real)
    ensures den > 0.0 ==> GuardedDiv(num, den) * den == num
    ensures den <= 0.0 ==> GuardedDiv(num, den) == 0.0
  {
  }

  /** The acquisition calculator (App.tsx:191-195). */
  function ComputeAcquisition(n: Numbers): (a: Acquisition)
    ensures n.pInicial > 0.0 <==> a.arrobasBrutas > 0.0
    ensures n.pInicial <= 0.0 ==> a.arrobasBrutas == 0.0
    ensures n.pInicial <= 0.0 ==>
      a.precoArrobaBase == 0.0 && a.custoPorArrobaAquisicao == 0.0 && a.custoPorKgAquisicao == 0.0
  {
    var arrobasBrutas := if n.pInicial > 0.0 then n.pInicial / KilosPorArrobaBruta else 0.0;
    var custoTotalAquisicao := n.pBase + n.pBase * (n.comm / 100.0) + n.fr + n.cast;
    Acquisition(
      arrobasBrutas := arrobasBrutas,
      precoArrobaBase := GuardedDiv(n.pBase, arrobasBrutas),
      custoTotalAquisicao := custoTotalAquisicao,
      custoPorArrobaAquisicao := GuardedDiv(custoTotalAquisicao, arrobasBrutas),
      custoPorKgAquisicao := GuardedDiv(custoTotalAquisicao, n.pInicial))
  }

  /**
   * With a positive weight, the gross arrobas are the weight in 30 kg units and
   * each per-unit figure times its unit count gives back the total it divides.
   */
  lemma AcquisitionRatios(n: Numbers)
    requires n.pInicial > 0.0
    ensures var a := ComputeAcquisition(n);
      && a.arrobasBrutas * KilosPorArrobaBruta == n.pInicial
      && a.precoArrobaBase * a.arrobasBrutas == n.pBase
      && a.custoPorArrobaAquisicao * a.arrobasBrutas == a.custoTotalAquisicao
      && a.custoPorKgAquisicao * n.pInicial == a.custoTotalAquisicao
      && a.custoPorArrobaAquisicao == a.custoPorKgAquisicao * KilosPorArrobaBruta
  {
  }

  /** The acquisition total is the price plus its commission, plus freight and the castration fee. */
  lemma AcquisitionTotal(n: Numbers)
    ensures (ComputeAcquisition(n).custoTotalAquisicao - n.fr - n.cast) * 100.0 == n.pBase * (100.0 + n.comm)
  {
  }

  /** Carcass arrobas in a live weight at the given yield (percent), in 15 kg units. */
  function CarcassArrobas(peso: real, rend: real): real {
    (peso * (rend / 100.0)) / KilosPorArrobaCarne
  }

  /** The projection of one holding period (App.tsx:197-214). */
  function Project(n: Numbers, acq: Acquisition, dias: nat): (p: ProjectionData)
    ensures p.dias == dias
    ensures p.pesoFinal - n.pInicial == n.gmdVal * dias as real
    ensures p.arrobasCarneLiquidaTotal * KilosPorArrobaCarne * 100.0 == p.pesoFinal * n.rend
    ensures p.custoTotalPeriodo - acq.custoTotalAquisicao == n.gDiario * dias as real
    ensures p.receitaTotal == p.arrobasCarneLiquidaTotal * n.pVendaAt
    ensures p.lucroPrejuizo + p.custoTotalPeriodo == p.receitaTotal
  {
    var meses := dias as real / 30.0;
    var pesoFinal := n.pInicial + n.gmdVal * dias as real;
    var arrobasCarneLiquidaTotal := CarcassArrobas(pesoFinal, n.rend);
    var custoManutencao := n.gDiario * dias as real;
    var pesoGanho := pesoFinal - n.pInicial;
    var arrobasProduzidasNoPeriodo := CarcassArrobas(pesoGanho, n.rend);
    var custoPorArrobaProduzida := GuardedDiv(custoManutencao, arrobasProduzidasNoPeriodo);
    var custoTotalPeriodo := acq.custoTotalAquisicao + custoManutencao;
    var receitaTotal := arrobasCarneLiquidaTotal * n.pVendaAt;
    var lucroPrejuizo := receitaTotal - custoTotalPeriodo;
    var roi := GuardedDiv(lucroPrejuizo, custoTotalPeriodo) * 100.0;
    var rentabilidadeMensal := GuardedDiv(roi, meses);
    ProjectionData(
      dias := dias,
      pesoFinal := pesoFinal,
      arrobasCarneLiquidaTotal := arrobasCarneLiquidaTotal,
      custoPorArrobaProduzida := custoPorArrobaProduzida,
      custoTotalPeriodo := custoTotalPeriodo,
      receitaTotal := receitaTotal,
      lucroPrejuizo := lucroPrejuizo,
      rentabilidadeMensal := rentabilidadeMensal)
  }

  /**
   * The cost per produced arroba spreads the maintenance cost over the carcass
   * arrobas gained in the period, and is zero when nothing was gained.
   */
  lemma ProducedArrobaCost(n: Numbers, acq: Acquisition, dias: nat)
    ensures var p := Project(n, acq, dias);
      && (n.gmdVal * dias as real * n.rend > 0.0 ==>
            p.custoPorArrobaProduzida * (n.gmdVal * dias as real * n.rend)
              == n.gDiario * dias as real * 100.0 * KilosPorArrobaCarne)
      && (n.gmdVal * dias as real * n.rend <= 0.0 ==> p.custoPorArrobaProduzida == 0.0)
  {
  }

  /**
   * The monthly return is the ROI on the period's total cost spread over its
   * months, and zero when the period is empty or the cost is not positive.
   */
  lemma MonthlyReturn(n: Numbers, acq: Acquisition, dias: nat)
    ensures dias > 0 ==> ReturnIsRoiPerMonth(Project(n, acq, dias))
    ensures dias == 0 ==> Project(n, acq, dias).rentabilidadeMensal == 0.0
  {
  }

  /**
   * The monthly return of a row is its ROI (profit over total cost, in
   * percent) divided by its months, or zero when the total cost is not positive.
   */
  predicate ReturnIsRoiPerMonth(p: ProjectionData) {
    && (p.custoTotalPeriodo > 0.0 ==>
          p.rentabilidadeMensal * (p.dias as real / 30.0) * p.custoTotalPeriodo == p.lucroPrejuizo * 100.0)
    && (p.custoTotalPeriodo <= 0.0 ==> p.rentabilidadeMensal == 0.0)
  }

  /** `periodos.map(...)`: one projection per period, in the same order. */
  function Sweep(n: Numbers, acq: Acquisition, periodos: seq<nat>): (ps: seq<ProjectionData>)
    ensures |ps| == |periodos|
    ensures forall i :: 0 <= i < |ps| ==> ps[i] == Project(n, acq, periodos[i])
  {
    if |periodos| == 0 then []
    else [Project(n, acq, periodos[0])] + Sweep(n, acq, periodos[1..])
  }

  /**
   * The whole calculation on normalised numbers over a non-empty period list,
   * with the source's tie-break.
   */
  function Evaluate(n: Numbers, periodos: seq<nat>): (r: Results)
    requires |periodos| > 0
    ensures r.acquisition == ComputeAcquisition(n)
    ensures |r.projections| == |periodos|
    ensures forall i :: 0 <= i < |r.projections| ==>
      r.projections[i] == Project(n, r.acquisition, periodos[i])
    ensures r.bestProjection in r.projections
    ensures forall i :: 0 <= i < |r.projections| ==>
      r.projections[i].rentabilidadeMensal <= r.bestProjection.rentabilidadeMensal
    ensures r.bestProjection == Selection.BestProjection(r.projections)
  {
    var acq := ComputeAcquisition(n);
    var projections := Sweep(n, acq, periodos);
    Results(acq, projections, Selection.BestProjection(projections))
  }

  /** The `results` memo: normalise the form, then evaluate over the configured periods. */
  function ComputeResults(inputs: FarmInputs): (r: Results)
    ensures r.acquisition == ComputeAcquisition(Normalize(inputs))
    ensures |r.projections| == |Periodos()|
    ensures forall i :: 0 <= i < |r.projections| ==>
      r.projections[i] == Project(Normalize(inputs), r.acquisition, Periodos()[i])
    ensures forall i :: 0 <= i < |r.projections| ==> r.projections[i].dias == Periodos()[i]
    ensures r.bestProjection in r.projections
    ensures forall i :: 0 <= i < |r.projections| ==>
      r.projections[i].rentabilidadeMensal <= r.bestProjection.rentabilidadeMensal
    ensures r.bestProjection == Selection.BestProjection(r.projections)
  {
    Evaluate(Normalize(inputs), Periodos())
  }

  /** The calculation with ties resolved toward the earliest, shortest period. */
  function EvaluateEarliest(n: Numbers, periodos: seq<nat>): (r: Results)
    requires |periodos| > 0
    ensures r.acquisition == Evaluate(n, periodos).acquisition
    ensures r.projections == Evaluate(n, periodos).projections
    ensures r.bestProjection in r.projections
    ensures forall i :: 0 <= i < |r.projections| ==>
      r.projections[i].rentabilidadeMensal <= r.bestProjection.rentabilidadeMensal
    ensures r.bestProjection == Selection.BestEarliest(r.projections)
  {
    var acq := ComputeAcquisition(n);
    var projections := Sweep(n, acq, periodos);
    Results(acq, projections, Selection.BestEarliest(projections))
  }
}
