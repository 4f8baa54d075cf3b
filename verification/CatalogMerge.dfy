/** The layered metadata merge of `src/admin.rs`: prices and capability flags with the provenance of each field. */
module CatalogMerge {
  import opened Common
  import opened Cost

  datatype LayerKind = Canonical | Provider
  datatype Flags = Flags(
    text: Option<bool>, reasoning: Option<bool>, vision: Option<bool>, toolCalling: Option<bool>,
    structuredOutput: Option<bool>)
  datatype Layer = Layer(provenance: string, kind: LayerKind, flags: Flags, prices: Option<Prices>)

  datatype PriceSources = PriceSources(
    input: Option<string>, output: Option<string>, cached: Option<string>, cacheWrite: Option<string>,
    thinking: Option<string>)
  datatype FlagSources = FlagSources(
    text: Option<string>, vision: Option<string>, toolCalling: Option<string>, structuredOutput: Option<string>)

  datatype PriceField = Input | Output | Cached | CacheWrite | Thinking
  datatype FlagField = Text | Vision | ToolCalling | StructuredOutput

  const NO_PRICES := Prices(None, None, None, None, None)
  const NO_FLAGS := Flags(None, None, None, None, None)
  const PROVIDER_METADATA := "provider_metadata"
  const PLUGIN_CAPABILITIES := "plugin_capabilities_json"

  function PriceIn(p: Prices, f: PriceField): Option<real> {
    match f
    case Input => p.input
    case Output => p.output
    case Cached => p.cached
    case CacheWrite => p.cacheWrite
    case Thinking => p.thinking
  }

  function PriceSourceIn(s: PriceSources, f: PriceField): Option<string> {
    match f
    case Input => s.input
    case Output => s.output
    case Cached => s.cached
    case CacheWrite => s.cacheWrite
    case Thinking => s.thinking
  }

  function FlagIn(g: Flags, f: FlagField): Option<bool> {
    match f
    case Text => g.text
    case Vision => g.vision
    case ToolCalling => g.toolCalling
    case StructuredOutput => g.structuredOutput
  }

  function FlagSourceIn(s: FlagSources, f: FlagField): Option<string> {
    match f
    case Text => s.text
    case Vision => s.vision
    case ToolCalling => s.toolCalling
    case StructuredOutput => s.structuredOutput
  }

  /** `overlay_prices`: declared fields of the overlay win. */
  function Overlay<T>(base: Option<T>, over: Option<T>): Option<T> {
    if over.Some? then over else base
  }

  function OverlayPrices(base: Prices, over: Prices): Prices {
    Prices(Overlay(base.input, over.input), Overlay(base.output, over.output), Overlay(base.cached, over.cached),
           Overlay(base.cacheWrite, over.cacheWrite), Overlay(base.thinking, over.thinking))
  }

  function OverlayFlags(base: Flags, over: Flags): Flags {
    Flags(Overlay(base.text, over.text), Overlay(base.reasoning, over.reasoning), Overlay(base.vision, over.vision),
          Overlay(base.toolCalling, over.toolCalling), Overlay(base.structuredOutput, over.structuredOutput))
  }

  /** `price_source` and `capability_source`. */
  function SourceOf<T>(provider: Option<T>, plugin: Option<T>, catalog: Option<T>, catalogSource: Option<string>)
    : Option<string>
  {
    if provider.Some? then Some(PROVIDER_METADATA)
    else if plugin.Some? then Some(PLUGIN_CAPABILITIES)
    else if catalog.Some? then catalogSource
    else None
  }

  // ---------- Where a field comes from ----------

  /** A subscription plugin is not charged canonical API prices. */
  function LayerPrice(l: Layer, suppress: bool, f: PriceField): Option<real> {
    if l.prices.None? || (suppress && l.kind.Canonical?) then None else PriceIn(l.prices.value, f)
  }

  function PriceColumn(layers: seq<Layer>, suppress: bool, f: PriceField): seq<Option<real>> {
    seq(|layers|, i requires 0 <= i < |layers| => LayerPrice(layers[i], suppress, f))
  }

  /** The layers with the prices of canonical layers taken out. */
  function Stripped(layers: seq<Layer>): seq<Layer> {
    seq(|layers|, i requires 0 <= i < |layers| =>
      if layers[i].kind == Canonical then layers[i].(prices := None) else layers[i])
  }

  /** Suppressing canonical prices is merging layers that have none; otherwise what a layer declares counts. */
  lemma SuppressingIsStripping(layers: seq<Layer>, i: nat, f: PriceField)
    requires i < |layers|
    ensures PriceColumn(layers, true, f) == PriceColumn(Stripped(layers), false, f)
    ensures PriceColumn(layers, false, f)[i] ==
      if layers[i].prices.Some? then PriceIn(layers[i].prices.value, f) else None
  {
  }

  /** The last of a list of values that is present. */
  predicate IsLastPresent<T>(values: seq<Option<T>>, i: nat) {
    i < |values| && values[i].Some? && forall j :: i < j < |values| ==> values[j].None?
  }

  predicate AllAbsent<T>(values: seq<Option<T>>) {
    forall i :: 0 <= i < |values| ==> values[i].None?
  }

  function FlagColumn(layers: seq<Layer>, f: FlagField): seq<Option<bool>> {
    seq(|layers|, i requires 0 <= i < |layers| => FlagIn(layers[i].flags, f))
  }

  /** Value and source come from the same place: the last layer that declares the field, or nowhere. */
  ghost predicate FromCatalog<T>(value: Option<T>, source: Option<string>, column: seq<Option<T>>, layers: seq<Layer>) {
    |column| == |layers| &&
    if AllAbsent(column) then value.None? && source.None?
    else exists i: nat :: IsLastPresent(column, i) && value == column[i] && source == Some(layers[i].provenance)
  }

  /** Value and source come from the provider, else the plugin, else the catalog. */
  ghost predicate FromOrigin<T>(value: Option<T>, source: Option<string>, provider: Option<T>, plugin: Option<T>,
                          column: seq<Option<T>>, layers: seq<Layer>) {
    if provider.Some? then value == provider && source == Some(PROVIDER_METADATA)
    else if plugin.Some? then value == plugin && source == Some(PLUGIN_CAPABILITIES)
    else FromCatalog(value, source, column, layers)
  }

  lemma LayerAdded<T>(value: Option<T>, source: Option<string>, column: seq<Option<T>>, layers: seq<Layer>,
                      v: Option<T>, l: Layer)
    requires FromCatalog(value, source, column, layers)
    ensures FromCatalog(Overlay(value, v), if v.Some? then Some(l.provenance) else source, column + [v], layers + [l])
  {
    var more := column + [v];
    if v.Some? {
      assert more[|column|] == v;
      assert IsLastPresent(more, |column|);
    } else if AllAbsent(column) {
      assert AllAbsent(more);
    } else {
      var i: nat :| IsLastPresent(column, i) && value == column[i] && source == Some(layers[i].provenance);
      assert more[i] == column[i];
      assert IsLastPresent(more, i);
    }
  }

  lemma OriginLayered<T>(catalog: Option<T>, source: Option<string>, provider: Option<T>, plugin: Option<T>,
                         column: seq<Option<T>>, layers: seq<Layer>)
    requires FromCatalog(catalog, source, column, layers)
    ensures FromOrigin(Overlay(Overlay(catalog, plugin), provider), SourceOf(provider, plugin, catalog, source),
                       provider, plugin, column, layers)
  {
  }

  /** A field has a source exactly when it has a value. */
  lemma SourceIffValue<T>(value: Option<T>, source: Option<string>, provider: Option<T>, plugin: Option<T>,
                          column: seq<Option<T>>, layers: seq<Layer>)
    requires FromOrigin(value, source, provider, plugin, column, layers)
    ensures value.Some? <==> source.Some?
  {
  }

  // ---------- The merge ----------

  ghost predicate PricesFromCatalog(prices: Prices, sources: PriceSources, layers: seq<Layer>, suppress: bool) {
    forall f :: FromCatalog(PriceIn(prices, f), PriceSourceIn(sources, f), PriceColumn(layers, suppress, f), layers)
  }

  ghost predicate FlagsFromCatalog(flags: Flags, sources: FlagSources, layers: seq<Layer>) {
    forall f :: FromCatalog(FlagIn(flags, f), FlagSourceIn(sources, f), FlagColumn(layers, f), layers)
  }

  /** One layer's effect on one field and its source. */
  predicate FieldStep<T(==)>(value: Option<T>, source: Option<string>, value': Option<T>, source': Option<string>,
                             v: Option<T>, l: Layer)
  {
    value' == Overlay(value, v) && source' == if v.Some? then Some(l.provenance) else source
  }

  lemma PriceLayerAdded(prices: Prices, sources: PriceSources, prices': Prices, sources': PriceSources,
                        layers: seq<Layer>, l: Layer, suppress: bool)
    requires PricesFromCatalog(prices, sources, layers, suppress)
    requires forall f :: FieldStep(PriceIn(prices, f), PriceSourceIn(sources, f),
                                   PriceIn(prices', f), PriceSourceIn(sources', f),
                                   LayerPrice(l, suppress, f), l)
    ensures PricesFromCatalog(prices', sources', layers + [l], suppress)
  {
    forall f
      ensures FromCatalog(PriceIn(prices', f), PriceSourceIn(sources', f),
                          PriceColumn(layers + [l], suppress, f), layers + [l])
    {
      var v := LayerPrice(l, suppress, f);
      assert FieldStep(PriceIn(prices, f), PriceSourceIn(sources, f),
                       PriceIn(prices', f), PriceSourceIn(sources', f), v, l);
      assert PriceColumn(layers + [l], suppress, f) == PriceColumn(layers, suppress, f) + [v];
      LayerAdded(PriceIn(prices, f), PriceSourceIn(sources, f), PriceColumn(layers, suppress, f), layers, v, l);
    }
  }

  lemma FlagLayerAdded(flags: Flags, sources: FlagSources, flags': Flags, sources': FlagSources,
                       layers: seq<Layer>, l: Layer)
    requires FlagsFromCatalog(flags, sources, layers)
    requires forall f :: FieldStep(FlagIn(flags, f), FlagSourceIn(sources, f),
                                   FlagIn(flags', f), FlagSourceIn(sources', f),
                                   FlagIn(l.flags, f), l)
    ensures FlagsFromCatalog(flags', sources', layers + [l])
  {
    forall f
      ensures FromCatalog(FlagIn(flags', f), FlagSourceIn(sources', f), FlagColumn(layers + [l], f), layers + [l])
    {
      var v := FlagIn(l.flags, f);
      assert FieldStep(FlagIn(flags, f), FlagSourceIn(sources, f), FlagIn(flags', f), FlagSourceIn(sources', f), v, l);
      assert FlagColumn(layers + [l], f) == FlagColumn(layers, f) + [v];
      LayerAdded(FlagIn(flags, f), FlagSourceIn(sources, f), FlagColumn(layers, f), layers, v, l);
    }
  }

  method AddPriceLayer(prices0: Prices, sources0: PriceSources, l: Layer, suppress: bool)
    returns (prices: Prices, sources: PriceSources)
    ensures forall f :: FieldStep(PriceIn(prices0, f), PriceSourceIn(sources0, f),
                                  PriceIn(prices, f), PriceSourceIn(sources, f),
                                  LayerPrice(l, suppress, f), l)
  {
    prices, sources := prices0, sources0;
    if l.prices.Some? && !(suppress && l.kind.Canonical?) {
      var p := l.prices.value;
      if p.input.Some? { sources := sources.(input := Some(l.provenance)); }
      if p.output.Some? { sources := sources.(output := Some(l.provenance)); }
      if p.cached.Some? { sources := sources.(cached := Some(l.provenance)); }
      if p.cacheWrite.Some? { sources := sources.(cacheWrite := Some(l.provenance)); }
      if p.thinking.Some? { sources := sources.(thinking := Some(l.provenance)); }
      prices := OverlayPrices(prices, p);
    }
  }

  method AddFlagLayer(flags0: Flags, sources0: FlagSources, l: Layer) returns (flags: Flags, sources: FlagSources)
    ensures forall f :: FieldStep(FlagIn(flags0, f), FlagSourceIn(sources0, f),
                                  FlagIn(flags, f), FlagSourceIn(sources, f),
                                  FlagIn(l.flags, f), l)
    ensures flags.reasoning == Overlay(flags0.reasoning, l.flags.reasoning)
  {
    flags, sources := flags0, sources0;
    if l.flags.text.Some? { flags, sources := flags.(text := l.flags.text), sources.(text := Some(l.provenance)); }
    if l.flags.reasoning.Some? { flags := flags.(reasoning := l.flags.reasoning); }
    if l.flags.vision.Some? {
      flags, sources := flags.(vision := l.flags.vision), sources.(vision := Some(l.provenance));
    }
    if l.flags.toolCalling.Some? {
      flags, sources := flags.(toolCalling := l.flags.toolCalling), sources.(toolCalling := Some(l.provenance));
    }
    if l.flags.structuredOutput.Some? {
      flags := flags.(structuredOutput := l.flags.structuredOutput);
      sources := sources.(structuredOutput := Some(l.provenance));
    }
  }

  method MergePrices(layers: seq<Layer>, suppress: bool) returns (prices: Prices, sources: PriceSources)
    ensures PricesFromCatalog(prices, sources, layers, suppress)
  {
    prices, sources := NO_PRICES, PriceSources(None, None, None, None, None);
    var i := 0;
    while i < |layers|
      invariant 0 <= i <= |layers|
      invariant PricesFromCatalog(prices, sources, layers[..i], suppress)
    {
      ghost var prices0, sources0 := prices, sources;
      prices, sources := AddPriceLayer(prices, sources, layers[i], suppress);
      PriceLayerAdded(prices0, sources0, prices, sources, layers[..i], layers[i], suppress);
      assert layers[..i + 1] == layers[..i] + [layers[i]];
      i := i + 1;
    }
    assert layers[..i] == layers;
  }

  method MergeFlags(layers: seq<Layer>) returns (flags: Flags, sources: FlagSources)
    ensures FlagsFromCatalog(flags, sources, layers)
  {
    flags, sources := NO_FLAGS, FlagSources(None, None, None, None);
    var i := 0;
    while i < |layers|
      invariant 0 <= i <= |layers|
      invariant FlagsFromCatalog(flags, sources, layers[..i])
    {
      ghost var flags0, sources0 := flags, sources;
      flags, sources := AddFlagLayer(flags, sources, layers[i]);
      FlagLayerAdded(flags0, sources0, flags, sources, layers[..i], layers[i]);
      assert layers[..i + 1] == layers[..i] + [layers[i]];
      i := i + 1;
    }
    assert layers[..i] == layers;
  }

  /** The observation's prices: each field is the provider's, else the plugin's, else that of the last layer that
      declares it and is not suppressed; its source names that very origin, and is null exactly when the price is. */
  method ObservePrices(layers: seq<Layer>, suppress: bool, plugin: Prices, provider: Prices)
    returns (prices: Prices, sources: PriceSources)
    ensures forall f :: FromOrigin(PriceIn(prices, f), PriceSourceIn(sources, f),
                                   PriceIn(provider, f), PriceIn(plugin, f),
                                   PriceColumn(layers, suppress, f), layers)
    ensures forall f :: PriceIn(prices, f).Some? <==> PriceSourceIn(sources, f).Some?
  {
    var catalog, from := MergePrices(layers, suppress);
    prices := OverlayPrices(OverlayPrices(catalog, plugin), provider);
    sources := PriceSources(
      SourceOf(provider.input, plugin.input, catalog.input, from.input),
      SourceOf(provider.output, plugin.output, catalog.output, from.output),
      SourceOf(provider.cached, plugin.cached, catalog.cached, from.cached),
      SourceOf(provider.cacheWrite, plugin.cacheWrite, catalog.cacheWrite, from.cacheWrite),
      SourceOf(provider.thinking, plugin.thinking, catalog.thinking, from.thinking));
    forall f ensures FromOrigin(PriceIn(prices, f), PriceSourceIn(sources, f), PriceIn(provider, f), PriceIn(plugin, f),
                                PriceColumn(layers, suppress, f), layers)
      ensures PriceIn(prices, f).Some? <==> PriceSourceIn(sources, f).Some?
    {
      OriginLayered(PriceIn(catalog, f), PriceSourceIn(from, f), PriceIn(provider, f), PriceIn(plugin, f),
                    PriceColumn(layers, suppress, f), layers);
      SourceIffValue(PriceIn(prices, f), PriceSourceIn(sources, f), PriceIn(provider, f), PriceIn(plugin, f),
                     PriceColumn(layers, suppress, f), layers);
    }
  }

  /** The observation's text, vision, tool and structured-output flags, likewise. */
  method ObserveFlags(layers: seq<Layer>, plugin: Flags, provider: Flags, reasoningSupport: Option<bool>)
    returns (flags: Flags, sources: FlagSources)
    ensures forall f :: FromOrigin(FlagIn(flags, f), FlagSourceIn(sources, f), FlagIn(provider, f), FlagIn(plugin, f),
                                   FlagColumn(layers, f), layers)
    ensures forall f :: FlagIn(flags, f).Some? <==> FlagSourceIn(sources, f).Some?
    ensures flags.reasoning == reasoningSupport
  {
    var catalog, from := MergeFlags(layers);
    flags := OverlayFlags(OverlayFlags(catalog, plugin), provider).(reasoning := reasoningSupport);
    sources := FlagSources(
      SourceOf(provider.text, plugin.text, catalog.text, from.text),
      SourceOf(provider.vision, plugin.vision, catalog.vision, from.vision),
      SourceOf(provider.toolCalling, plugin.toolCalling, catalog.toolCalling, from.toolCalling),
      SourceOf(provider.structuredOutput, plugin.structuredOutput, catalog.structuredOutput, from.structuredOutput));
    forall f ensures FromOrigin(FlagIn(flags, f), FlagSourceIn(sources, f), FlagIn(provider, f), FlagIn(plugin, f),
                                FlagColumn(layers, f), layers)
      ensures FlagIn(flags, f).Some? <==> FlagSourceIn(sources, f).Some?
    {
      OriginLayered(FlagIn(catalog, f), FlagSourceIn(from, f), FlagIn(provider, f), FlagIn(plugin, f),
                    FlagColumn(layers, f), layers);
      SourceIffValue(FlagIn(flags, f), FlagSourceIn(sources, f), FlagIn(provider, f), FlagIn(plugin, f),
                     FlagColumn(layers, f), layers);
    }
  }
}
