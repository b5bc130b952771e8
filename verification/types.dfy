/** The records exchanged by the viability calculation (types.ts). */
module Types {
  import opened Wrappers

  /** A raw form field after parsing: `None` for empty or unparseable text. */
  type Field = Option<real>

  /** The three preset scenarios of the form. */
  datatype ScenarioType = Novilha | BoiMagro | VacaMagra

  /** The nine form fields, each already parsed to a number or to `None`. */
  datatype FarmInputs = FarmInputs(
    preco: Field,
    peso: Field,
    comissao: Field,
    frete: Field,
    castracao: Field,
    gastoDiario: Field,
    gmd: Field,
    rendimentoCarcaca: Field,
    precoVendaArroba: Field
  )

  /** The nine fields after the fallbacks have been applied. */
  datatype Numbers = Numbers(
    pBase: real,      // purchase price
    pInicial: real,   // live weight at purchase, kg
    comm: real,       // broker commission, percent of the price
    fr: real,         // freight
    cast: real,       // castration fee
    gDiario: real,    // maintenance cost per day
    gmdVal: real,     // daily weight gain, kg
    rend: real,       // carcass yield, percent
    pVendaAt: real    // sale price per carcass arroba
  )

  /** The purchase-side figures, computed once and shared by every period. */
  datatype Acquisition = Acquisition(
    arrobasBrutas: real,
    precoArrobaBase: real,
    custoTotalAquisicao: real,
    custoPorArrobaAquisicao: real,
    custoPorKgAquisicao: real
  )

  /** One row of the projection table: the outcome of selling after `dias` days. */
  datatype ProjectionData = ProjectionData(
    dias: nat,
    pesoFinal: real,
    arrobasCarneLiquidaTotal: real,
    custoPorArrobaProduzida: real,
    custoTotalPeriodo: real,
    receitaTotal: real,
    lucroPrejuizo: real,
    rentabilidadeMensal: real
  )

  /** Everything the calculation produces for one set of inputs. */
  datatype Results = Results(
    acquisition: Acquisition,
    projections: seq<ProjectionData>,
    bestProjection: ProjectionData
  )
}
