/** One entry of the configuration list (MonitorOptions) and the test that
    decides whether a monitor belongs to it. */
module AppSettings {
  import opened CSharp

  /** Substrings a monitor's identity must contain, and the brightness range
      the entry allows. `min <= max` is not enforced anywhere. */
  datatype MonitorOptions = MonitorOptions(
    manufacturerName: CsString,
    productCodeId: CsString,
    serialNumberId: CsString,
    min: byte,
    max: byte)

  /** An entry whose properties were all left at their initial values. */
  const DefaultOptions := MonitorOptions([], [], [], 0, 100)

  /** The three ordinal substring tests of the sync pass. */
  predicate Matches(o: MonitorOptions, manufacturerName: CsString, productCodeId: CsString, serialNumberId: CsString)
  {
    && Contains(manufacturerName, o.manufacturerName)
    && Contains(productCodeId, o.productCodeId)
    && Contains(serialNumberId, o.serialNumberId)
  }

  /** An entry whose three strings are left empty matches every monitor,
      whatever its range. */
  lemma EmptyPatternsMatchEveryMonitor(o: MonitorOptions, manufacturerName: CsString, productCodeId: CsString, serialNumberId: CsString)
    requires o.manufacturerName == [] && o.productCodeId == [] && o.serialNumberId == []
    ensures Matches(o, manufacturerName, productCodeId, serialNumberId)
  {
    ContainsEmpty(manufacturerName);
    ContainsEmpty(productCodeId);
    ContainsEmpty(serialNumberId);
  }

  /** The initial values: empty patterns and the range [0, 100]. */
  lemma DefaultOptionsMatchEverything(manufacturerName: CsString, productCodeId: CsString, serialNumberId: CsString)
    ensures DefaultOptions.min == 0 && DefaultOptions.max == 100
    ensures Matches(DefaultOptions, manufacturerName, productCodeId, serialNumberId)
  {
    EmptyPatternsMatchEveryMonitor(DefaultOptions, manufacturerName, productCodeId, serialNumberId);
  }
}
