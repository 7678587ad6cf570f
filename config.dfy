/** The configuration bounds of the calculator (the `CONFIG` object). */
module Config {

  /** First year of the supported range and of the lunar new year table. */
  const MinYear: int := 1900

  /** Last year of the supported range and of the lunar new year table. */
  const MaxYear: int := 2100

  /** Capacity of the cache of resolved signs. */
  const CacheSize: nat := 100

}
