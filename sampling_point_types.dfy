// The result records a sampling point reports.
module SamplingPointTypes {

  /** A ply's critical failure: the mode and the three failure values at one spot. */
  datatype FailureResult = FailureResult(mode: string, inverseReserveFactor: real, safetyFactor: real, safetyMargin: real)
}
