/** The threshold constants of the filter configuration (class `Filters`).
    Decimal values are exact reals. */
module Settings {

  const MaxSupply: real := 1000000000.0
  const MinMcap: real := 150000.0
  const MinLiquidity: real := 90000.0
  /** Defined by the configuration but never consulted by the filters. */
  const LiqLock: real := 99.0
  const MaxDevHolding: real := 0.20
  const MaxTop10: real := 0.35
  /** Defined by the configuration but never consulted by the filters. */
  const MinMarkers: int := 200
  const MinHolders: int := 100
  const MinVolume: real := 500000.0
  /** Defined by the configuration but never consulted by the filters. */
  const McapIncrease: real := 50000.0
}
