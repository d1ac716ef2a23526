/** The record shapes of internal/pkg/models and the Block* records of the
    older store, with Go's `*float64` "not yet computed" fields as Option.
    Field names follow the code that builds and reads the records (the
    calculator and the importer), where these disagree with the structs. */
module Models {
  import opened Wrappers
  import opened Civil

  /** Block 1: bottom-hole pressure and temperature at gauge depth, and the
      pressure reduced to the datum (VDP) once computed. */
  datatype TableOne = TableOne(
    timestamp: Instant,
    pressureDepth: real,
    temperatureDepth: real,
    pressureAtVdp: Option<real>)

  /** Block 2: tubing, annulus and line pressure, each with its own timestamp. */
  datatype TableTwo = TableTwo(
    timestampTubing: Instant,
    pressureTubing: real,
    timestampAnnulus: Instant,
    pressureAnnulus: real,
    timestampLinear: Instant,
    pressureLinear: real)

  /** Block 3: liquid rate, water cut (%) and gas rate, with the oil rate,
      water rate and gas-oil ratio derived from them. */
  datatype TableThree = TableThree(
    timestamp: Instant,
    flowLiquid: real,
    waterCut: real,
    flowGas: real,
    oilFlowRate: Option<real>,
    waterFlowRate: Option<real>,
    gasOilRatio: Option<real>)

  /** Block 4: one directional-survey point (MD, TVD, TVDSS). */
  datatype TableFour = TableFour(
    measuredDepth: real,
    trueVerticalDepth: real,
    trueVerticalDepthSubSea: real)

  /** Block 5: the report header; the Option fields are derived from the survey. */
  datatype TableFive = TableFive(
    id: int,
    fieldName: string,
    fieldNumber: int,
    clusterNumber: int,
    horizon: string,
    startTime: Instant,
    endTime: Instant,
    instrumentType: string,
    instrumentNumber: int,
    measuredDepth: real,
    trueVerticalDepth: Option<real>,
    trueVerticalDepthSubSea: Option<real>,
    vdpMeasuredDepth: real,
    vdpTrueVerticalDepth: Option<real>,
    vdpTrueVerticalDepthSea: Option<real>,
    diffInstrumentVdp: Option<real>,
    densityOil: real,
    densityLiquidStopped: real,
    densityLiquidWorking: real,
    pressureDiffStopped: Option<real>,
    pressureDiffWorking: Option<real>)

  /** Operator-entered parameters of the hydrostatic reduction. */
  datatype OperationConfig = OperationConfig(
    pressureUnit: string,
    depthDiff: real,
    workStart: Instant,
    workEnd: Instant,
    workDensity: real,
    idleStart: Instant,
    idleEnd: Instant,
    idleDensity: real)

  /** Records kept by the older in-memory store (internal/pkg/models/blocks.go). */
  datatype BlockOne = BlockOne(timestamp: Instant, pressure: real, temperature: real)

  datatype BlockTwo = BlockTwo(
    timestampTubing: Instant,
    pressureTubing: real,
    timestampAnnulus: Instant,
    pressureAnnulus: real,
    timestampLinear: Instant,
    pressureLinear: real)

  datatype BlockThree = BlockThree(timestamp: Instant, flowLiquid: real, waterCut: real, flowGas: real)
}
