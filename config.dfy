/** The process-wide configuration of the query layer (Config.swift) and the build
    flavour that decides whether debug-only traps fire.

    The Swift configuration is two mutable globals read at call time; here it is a value
    handed to every operation that reads it, so that each operation's behaviour is stated
    for every configuration and `Defaults` records the shipped one. */
module Config {

  /** The options of a Foundation comparison predicate (`NSComparisonPredicate.Options`).
      The layer itself only ever reads the two insensitivity flags; `Normalized` is there
      so that a configuration may hold any option Foundation accepts. */
  datatype ComparisonOption = CaseInsensitive | DiacriticInsensitive | Normalized

  type ComparisonOptions = set<ComparisonOption>

  /** `Config.defaultBatchSize` and `Config.defaultComparisonOptions`. */
  datatype Settings = Settings(defaultBatchSize: int, defaultComparisonOptions: ComparisonOptions)

  /** The values the globals start with: a batch size of 20, and case- and
      diacritic-insensitive text comparison. */
  const Defaults: Settings := Settings(20, {CaseInsensitive, DiacriticInsensitive})

  /** Debug builds evaluate `assert` and halt in `fatalError`; release builds skip asserts. */
  datatype Build = Debug | Release
}
