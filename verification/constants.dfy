/** Unit conversions, the holding periods and the preset scenarios (constants.ts). */
module Constants {
  import opened Wrappers
  import opened Types

  /** Kilograms of live weight in one purchase-side (gross) arroba. */
  const KilosPorArrobaBruta: real := 30.0

  /** Kilograms of carcass in one sale-side (meat) arroba. */
  const KilosPorArrobaCarne: real := 15.0

  /** The holding periods swept by the projection, in days. */
  function Periodos(): (r: seq<nat>)
    ensures |r| == 11
    ensures forall i :: 0 <= i < |r| ==> r[i] == 60 + 30 * i
  {
    [60, 90, 120, 150, 180, 210, 240, 270, 300, 330, 360]
  }

  /** The preset form contents; the purchase price is always left empty. */
  function ScenarioDefaults(t: ScenarioType): (r: FarmInputs)
    ensures r.preco.None?
    ensures r.peso.Some? && r.peso.value > 0.0
    ensures r.gmd.Some? && r.gmd.value > 0.0
    ensures r.precoVendaArroba.Some? && r.precoVendaArroba.value > 0.0
    ensures r.gastoDiario.Some? && r.gastoDiario.value >= 0.0
    ensures r.comissao.Some? && r.comissao.value >= 0.0
    ensures r.frete.Some? && r.frete.value >= 0.0
    ensures r.castracao.Some? && r.castracao.value >= 0.0
    ensures r.rendimentoCarcaca.Some? && 0.0 < r.rendimentoCarcaca.value <= 100.0
  {
    match t
    case Novilha =>
      FarmInputs(preco := None, peso := Some(300.0), comissao := Some(3.0),
                 frete := Some(65.0), castracao := Some(0.0), gastoDiario := Some(2.5),
                 gmd := Some(0.5), rendimentoCarcaca := Some(50.0),
                 precoVendaArroba := Some(280.0))
    case BoiMagro =>
      FarmInputs(preco := None, peso := Some(390.0), comissao := Some(3.0),
                 frete := Some(65.0), castracao := Some(50.0), gastoDiario := Some(2.5),
                 gmd := Some(0.5), rendimentoCarcaca := Some(54.0),
                 precoVendaArroba := Some(290.0))
    case VacaMagra =>
      FarmInputs(preco := None, peso := Some(330.0), comissao := Some(3.0),
                 frete := Some(65.0), castracao := Some(0.0), gastoDiario := Some(2.5),
                 gmd := Some(0.5), rendimentoCarcaca := Some(47.0),
                 precoVendaArroba := Some(280.0))
  }

  /** The sweep starts at 60 days and ends at 360. */
  lemma PeriodosEndpoints()
    ensures |Periodos()| == 11
    ensures Periodos()[0] == 60 && Periodos()[|Periodos()| - 1] == 360
  {
  }

  /** The period list is non-empty and strictly ascending. */
  lemma PeriodosAscending()
    ensures |Periodos()| > 0
    ensures forall i, j :: 0 <= i < j < |Periodos()| ==> Periodos()[i] < Periodos()[j]
  {
  }

  /** Every period is a positive whole number of 30-day months, from 2 to 12. */
  lemma PeriodosWholeMonths()
    ensures forall i :: 0 <= i < |Periodos()| ==>
      Periodos()[i] > 0 && Periodos()[i] % 30 == 0 && 2 <= Periodos()[i] / 30 <= 12
  {
  }

  /**
   * The gross arroba is twice the carcass arroba. This fixes only the two
   * literals; a swap in the calculation would be caught by the contracts that
   * use them (`Viability.AcquisitionRatios`: gross arrobas × 30 is the weight;
   * `Viability.Project`: carcass arrobas × 15 × 100 is final weight × yield).
   */
  lemma ArrobaUnitsDistinct()
    ensures KilosPorArrobaBruta != KilosPorArrobaCarne
    ensures KilosPorArrobaBruta == 2.0 * KilosPorArrobaCarne
  {
  }
}
