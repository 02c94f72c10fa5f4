/** Configuration of the metric exporter (exporters/otlp/otlpmetric/options.go).
    An option updates the configuration it is given; the Go closure writes
    through a `*config` pointer, here it returns the updated value. */
module OtlpMetricOptions {
  import opened Telemetry

  /** `config`: the only setting is the export kind selector. */
  datatype Config = Config(exportKindSelector: ExportKindSelector)

  /** `ExporterOption`. `config` is unexported, so every option a caller can
      hold comes from WithMetricExportKindSelector. */
  type ExporterOption = Config -> Config

  /** The configuration NewUnstartedExporter starts from: cumulative for
      every instrument. */
  function DefaultConfig(): Config
  {
    Config(CumulativeExportKindSelector())
  }

  /** `WithMetricExportKindSelector(selector)`: an option that sets the
      selector and nothing else. */
  function WithMetricExportKindSelector(selector: ExportKindSelector): ExporterOption
  {
    (cfg: Config) => cfg.(exportKindSelector := selector)
  }

  /** The options applied one after another, left to right, to `cfg`. */
  function ApplyOptions(cfg: Config, opts: seq<ExporterOption>): Config
    decreases |opts|
  {
    if opts == [] then cfg else ApplyOptions(opts[0](cfg), opts[1..])
  }

  /** The options a caller builds from a list of selectors. */
  function SelectorOptions(selectors: seq<ExportKindSelector>): (opts: seq<ExporterOption>)
    ensures |opts| == |selectors|
    ensures forall i :: 0 <= i < |selectors| ==> opts[i] == WithMetricExportKindSelector(selectors[i])
  {
    seq(|selectors|, i requires 0 <= i < |selectors| => WithMetricExportKindSelector(selectors[i]))
  }

  /** Applying WithMetricExportKindSelector(s) to any configuration yields
      one whose selector is s. */
  lemma WithSelectorSets(selector: ExportKindSelector, cfg: Config)
    ensures WithMetricExportKindSelector(selector)(cfg).exportKindSelector == selector
    ensures WithMetricExportKindSelector(selector)(cfg) == Config(selector)
  {
  }

  /** Applying the same option twice is applying it once. */
  lemma WithSelectorIdempotent(selector: ExportKindSelector, cfg: Config)
    ensures ApplyOptions(cfg, [WithMetricExportKindSelector(selector), WithMetricExportKindSelector(selector)])
         == ApplyOptions(cfg, [WithMetricExportKindSelector(selector)])
  {
    var opt := WithMetricExportKindSelector(selector);
    assert [opt, opt][1..] == [opt];
    assert [opt][1..] == [];
  }

  /** With no option applied, the selector answers cumulative for every
      instrument and aggregator kind. */
  lemma NoOptionsIsCumulative(d: Descriptor, k: AggregationKind)
    ensures ApplyOptions(DefaultConfig(), []).exportKindSelector(d, k) == CumulativeExportKind
  {
  }

  /** Folding options left to right, the last selector wins; with none, the
      configuration is the one folded into. */
  lemma {:induction false} LastSelectorWins(cfg: Config, selectors: seq<ExportKindSelector>)
    ensures ApplyOptions(cfg, SelectorOptions(selectors)) ==
      if selectors == [] then cfg else Config(selectors[|selectors| - 1])
    decreases |selectors|
  {
    var opts := SelectorOptions(selectors);
    if selectors != [] {
      assert opts[1..] == SelectorOptions(selectors[1..]);
      LastSelectorWins(opts[0](cfg), selectors[1..]);
    }
  }
}
