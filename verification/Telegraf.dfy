/**
  From pod annotations to a telegraf configuration: forgiving parsers write into a record
  of values, and the record is merged over the class file. TOML and durations are library
  code and appear as the functions of a Library value, about which nothing is assumed.
*/
module Telegraf {
  import opened Text
  import opened Metadata
  import opened ClassData
  import opened FeatureGate

  // ------------------------------------------------------------ data model

  datatype Toml = Scalar(text: string) | Array(items: seq<Toml>) | Table(entries: map<string, Toml>)

  type Section = map<string, Toml>

  datatype PrometheusInput = PrometheusInput(interval: string, urls: seq<string>, namepass: seq<string>, metricVersion: int)

  datatype Plugin = Decoded(value: Toml) | Prometheus(inputs: seq<PrometheusInput>) | Internal

  datatype ClassFile = ClassFile(
    agent: Section, inputs: Section, outputs: Section, aggregators: Section, processors: Section,
    globalTags: map<string, string>)

  datatype TelegrafConfig = TelegrafConfig(
    agent: Section, inputs: map<string, Plugin>, outputs: Section, aggregators: Section, processors: Section,
    globalTags: map<string, string>)

  datatype Library = Library(
    unmarshalClass: string -> Option<ClassFile>,
    unmarshalInputs: string -> Option<Section>,
    unmarshalAggregators: string -> Option<Section>,
    unmarshalProcessors: string -> Option<Section>,
    marshal: TelegrafConfig -> Option<string>,
    parseDuration: string -> Option<int>,
    showDuration: int -> string)

  datatype Settings = Settings(defaultClass: string, enableInternal: bool)

  /** Which raw blocks the feature gates let through. */
  datatype Gates = Gates(aggregators: bool, processors: bool)

  datatype Warning =
    | DeprecatedPort
    | BadPort(value: string)
    | BadPortPiece(value: string, piece: string)
    | BadVersion(value: string)
    | BadInterval(value: string)

  datatype BuildError = NoSuchClass(name: string) | BadClass | BadInputs | BadAggregators | BadProcessors | MarshalFailed

  /** Go's uint16. */
  type Port = p: int | 0 <= p < 65536

  datatype Values = Values(
    class_: string, metricsPath: string, scheme: string, namepass: string,
    rawInput: string, rawAggregators: string, rawProcessors: string,
    ports: seq<Port>, interval: int, metricVersion: int, enableInternal: bool,
    globalTags: map<string, string>)

  /** Ten seconds, in nanoseconds. */
  const DEFAULT_INTERVAL := 10_000_000_000

  function NewValues(settings: Settings): Values {
    Values(settings.defaultClass, "/metrics", "http", "", "", "", "", [], DEFAULT_INTERVAL, 1, settings.enableInternal, map[])
  }

  // ------------------------------------------------- what overriding does

  function Setting(a: Annotations, key: string, default: string): string {
    if key in a then a[key] else default
  }

  /** uint16(port) of a signed 16-bit port. */
  function PortNumber(v: int): Port {
    v % 65536
  }

  function ReadPort(text: string): seq<Port> {
    match ParseInt16(text)
    case Some(v) => [PortNumber(v)]
    case None => []
  }

  function ReadPiece(piece: string): seq<Port> {
    ReadPort(TrimSpace(piece))
  }

  /** What the list of ports complains about in one of its pieces. */
  function PieceWarning(value: string): string -> seq<Warning> {
    piece => if ParseInt16(TrimSpace(piece)).None? then [BadPortPiece(value, piece)] else []
  }

  function SinglePort(a: Annotations): seq<Port> {
    if METRICS_PORT in a then ReadPort(a[METRICS_PORT]) else []
  }

  function ListedPorts(a: Annotations): seq<Port> {
    if METRICS_PORTS in a then FlatMap(ReadPiece, Split(a[METRICS_PORTS], ',')) else []
  }

  function OverriddenPorts(a: Annotations): seq<Port> {
    SinglePort(a) + ListedPorts(a)
  }

  function CleanNamepass(value: string): string {
    Remove(Trim(value, "[]"), '\'')
  }

  function OverriddenNamepass(a: Annotations, namepass: string): string {
    if NAMEPASS in a then CleanNamepass(a[NAMEPASS]) else namepass
  }

  function OverriddenInternal(a: Annotations, enabled: bool): bool {
    enabled || (ENABLE_INTERNAL in a && a[ENABLE_INTERNAL] != "")
  }

  function OverriddenInterval(lib: Library, a: Annotations, interval: int): int {
    if INTERVAL in a && lib.parseDuration(a[INTERVAL]).Some? then lib.parseDuration(a[INTERVAL]).value else interval
  }

  function OverriddenVersion(a: Annotations, version: int): int {
    if METRIC_VERSION in a && ParseUint8(a[METRIC_VERSION]).Some? then ParseUint8(a[METRIC_VERSION]).value else version
  }

  function Overridden(lib: Library, v: Values, a: Annotations): Values {
    Values(
      Setting(a, CLASS, v.class_),
      Setting(a, METRICS_PATH, v.metricsPath),
      Setting(a, METRICS_SCHEME, v.scheme),
      OverriddenNamepass(a, v.namepass),
      Setting(a, RAW_INPUT, v.rawInput),
      Setting(a, RAW_AGGREGATORS, v.rawAggregators),
      Setting(a, RAW_PROCESSORS, v.rawProcessors),
      v.ports + OverriddenPorts(a),
      OverriddenInterval(lib, a, v.interval),
      OverriddenVersion(a, v.metricVersion),
      OverriddenInternal(a, v.enableInternal),
      WithPrefix(a, GLOBAL_TAG_LITERAL))
  }

  function SinglePortWarnings(a: Annotations): seq<Warning> {
    if METRICS_PORT !in a then []
    else if ParseInt16(a[METRICS_PORT]).None? then [DeprecatedPort, BadPort(a[METRICS_PORT])]
    else [DeprecatedPort]
  }

  function PortWarnings(a: Annotations): seq<Warning> {
    if METRICS_PORTS in a then
      SinglePortWarnings(a) + FlatMap(PieceWarning(a[METRICS_PORTS]), Split(a[METRICS_PORTS], ','))
    else
      SinglePortWarnings(a)
  }

  function VersionWarnings(a: Annotations): seq<Warning> {
    if METRIC_VERSION in a && ParseUint8(a[METRIC_VERSION]).None? then [BadVersion(a[METRIC_VERSION])] else []
  }

  function IntervalWarnings(lib: Library, a: Annotations): seq<Warning> {
    if INTERVAL in a && lib.parseDuration(a[INTERVAL]).None? then [BadInterval(a[INTERVAL])] else []
  }

  function Warnings(lib: Library, a: Annotations): seq<Warning> {
    PortWarnings(a) + (VersionWarnings(a) + IntervalWarnings(lib, a))
  }

  // --------------------------------------------------- what building does

  function Lift(s: Section): map<string, Plugin> {
    map k | k in s :: Decoded(s[k])
  }

  function Urls(scheme: string, ports: seq<Port>, path: string): (urls: seq<string>)
    ensures |urls| == |ports|
    ensures forall i :: 0 <= i < |ports| ==> urls[i] == scheme + "://localhost:" + Decimal(ports[i]) + path
  {
    seq(|ports|, i requires 0 <= i < |ports| => scheme + "://localhost:" + Decimal(ports[i]) + path)
  }

  function NamepassList(namepass: string): seq<string> {
    if namepass == "" then [] else FlatMap(TrimItem, Split(namepass, ','))
  }

  function TrimItem(item: string): seq<string> {
    [TrimSpace(item)]
  }

  function Scrape(lib: Library, v: Values): PrometheusInput
  {
    PrometheusInput(lib.showDuration(v.interval), Urls(v.scheme, v.ports, v.metricsPath), NamepassList(v.namepass), v.metricVersion)
  }

  /** The inputs the operator itself adds. */
  function Generated(lib: Library, v: Values): map<string, Plugin>
  {
    (if v.ports == [] then map[] else map["prometheus" := Prometheus([Scrape(lib, v)])])
    + (if v.enableInternal then map["internal" := Internal] else map[])
  }

  /** A raw block that is absent or gated off contributes nothing and cannot fail. */
  function RawBlock(text: string, active: bool, unmarshal: string -> Option<Section>): Option<Section> {
    if text == "" || !active then Some(map[]) else unmarshal(TrimSpace(text))
  }

  function Merge(lib: Library, file: ClassFile, v: Values, inputs: Section, aggregators: Section, processors: Section): TelegrafConfig
  {
    TelegrafConfig(
      file.agent,
      Lift(file.inputs) + Generated(lib, v) + Lift(inputs),
      file.outputs,
      file.aggregators + aggregators,
      file.processors + processors,
      file.globalTags + v.globalTags)
  }

  function Build(lib: Library, classes: Classes, gates: Gates, v: Values): Result<TelegrafConfig, BuildError>
  {
    if v.class_ !in classes then Err(NoSuchClass(v.class_))
    else
      match lib.unmarshalClass(classes[v.class_])
      case None => Err(BadClass)
      case Some(file) =>
        match RawBlock(v.rawInput, true, lib.unmarshalInputs)
        case None => Err(BadInputs)
        case Some(inputs) =>
          match RawBlock(v.rawAggregators, gates.aggregators, lib.unmarshalAggregators)
          case None => Err(BadAggregators)
          case Some(aggregators) =>
            match RawBlock(v.rawProcessors, gates.processors, lib.unmarshalProcessors)
            case None => Err(BadProcessors)
            case Some(processors) => Ok(Merge(lib, file, v, inputs, aggregators, processors))
  }

  function Render(lib: Library, built: Result<TelegrafConfig, BuildError>): Result<string, BuildError> {
    match built
    case Err(e) => Err(e)
    case Ok(config) =>
      match lib.marshal(config)
      case Some(text) => Ok(text)
      case None => Err(MarshalFailed)
  }

  function Resolved(lib: Library, settings: Settings, a: Annotations): Values {
    Overridden(lib, NewValues(settings), a)
  }

  /** Override then build: the configuration a pod's annotations stand for. */
  function Configure(lib: Library, settings: Settings, classes: Classes, gates: Gates, a: Annotations)
    : Result<TelegrafConfig, BuildError>
  {
    Build(lib, classes, gates, Resolved(lib, settings, a))
  }

  /** The text stored in the secret. */
  function Synthesize(lib: Library, settings: Settings, classes: Classes, gates: Gates, a: Annotations)
    : Result<string, BuildError>
  {
    Render(lib, Configure(lib, settings, classes, gates, a))
  }

  // ------------------------------------------------------- the operations

  class AnnotationValues {
    const classDataHandler: DirectoryHandler
    var globalTags: map<string, string>
    var class_: string
    var metricsPath: string
    var scheme: string
    var namepass: string
    var rawInput: string
    var rawAggregators: string
    var rawProcessors: string
    var ports: seq<Port>
    var interval: int
    var metricVersion: int
    var enableInternal: bool

    ghost function View(): Values
      reads this
    {
      Values(class_, metricsPath, scheme, namepass, rawInput, rawAggregators, rawProcessors,
             ports, interval, metricVersion, enableInternal, globalTags)
    }

    constructor (classDataHandler: DirectoryHandler, settings: Settings)
      ensures View() == NewValues(settings) && this.classDataHandler == classDataHandler
    {
      this.classDataHandler := classDataHandler;
      class_, metricsPath, ports, scheme := settings.defaultClass, "/metrics", [], "http";
      metricVersion, namepass, interval := 1, "", DEFAULT_INTERVAL;
      enableInternal := settings.enableInternal;
      rawInput, rawAggregators, rawProcessors := "", "", "";
      globalTags := map[];
    }

    /** Reads the annotations into the record; what cannot be read is skipped with a warning. */
    method ApplyAnnotationOverrides(lib: Library, annotations: Annotations) returns (warnings: seq<Warning>)
      modifies this
      ensures View() == Overridden(lib, old(View()), annotations)
      ensures warnings == Warnings(lib, annotations)
    {
      hide Setting, OverriddenNamepass, OverriddenInternal, OverriddenInterval, OverriddenVersion, OverriddenPorts;
      hide WithPrefix, PortWarnings, VersionWarnings, IntervalWarnings;
      warnings := ReadPorts(annotations);
      var more := ReadScalars(lib, annotations);
      warnings := warnings + more;
      ReadAddress(annotations);
      ReadBlocks(annotations);
      globalTags := GetAnnotationsWithPrefix(annotations, GLOBAL_TAG_LITERAL);
    }

    method ReadAddress(annotations: Annotations)
      modifies `class_, `metricsPath, `scheme, `namepass
      ensures class_ == Setting(annotations, CLASS, old(class_))
      ensures metricsPath == Setting(annotations, METRICS_PATH, old(metricsPath))
      ensures scheme == Setting(annotations, METRICS_SCHEME, old(scheme))
      ensures namepass == OverriddenNamepass(annotations, old(namepass))
    {
      hide Trim, Remove;
      if CLASS in annotations {
        class_ := annotations[CLASS];
      }
      if METRICS_PATH in annotations {
        metricsPath := annotations[METRICS_PATH];
      }
      if METRICS_SCHEME in annotations {
        scheme := annotations[METRICS_SCHEME];
      }
      if NAMEPASS in annotations {
        namepass := Remove(Trim(annotations[NAMEPASS], "[]"), '\'');
      }
    }

    method ReadBlocks(annotations: Annotations)
      modifies `enableInternal, `rawInput, `rawAggregators, `rawProcessors
      ensures enableInternal == OverriddenInternal(annotations, old(enableInternal))
      ensures rawInput == Setting(annotations, RAW_INPUT, old(rawInput))
      ensures rawAggregators == Setting(annotations, RAW_AGGREGATORS, old(rawAggregators))
      ensures rawProcessors == Setting(annotations, RAW_PROCESSORS, old(rawProcessors))
    {
      if ENABLE_INTERNAL in annotations {
        if annotations[ENABLE_INTERNAL] != "" {
          enableInternal := true;
        }
      }
      if RAW_INPUT in annotations {
        rawInput := annotations[RAW_INPUT];
      }
      if RAW_AGGREGATORS in annotations {
        rawAggregators := annotations[RAW_AGGREGATORS];
      }
      if RAW_PROCESSORS in annotations {
        rawProcessors := annotations[RAW_PROCESSORS];
      }
    }

    /** The version and the interval keep their value when the annotation does not convert. */
    method ReadScalars(lib: Library, annotations: Annotations) returns (warnings: seq<Warning>)
      modifies `metricVersion, `interval
      ensures metricVersion == OverriddenVersion(annotations, old(metricVersion))
      ensures interval == OverriddenInterval(lib, annotations, old(interval))
      ensures warnings == VersionWarnings(annotations) + IntervalWarnings(lib, annotations)
    {
      hide ParseUint8;
      warnings := [];
      if METRIC_VERSION in annotations {
        var ver := ParseUint8(annotations[METRIC_VERSION]);
        if ver.None? {
          warnings := warnings + [BadVersion(annotations[METRIC_VERSION])];
        } else {
          metricVersion := ver.value;
        }
      }
      if INTERVAL in annotations {
        var duration := lib.parseDuration(annotations[INTERVAL]);
        if duration.None? {
          warnings := warnings + [BadInterval(annotations[INTERVAL])];
        } else {
          interval := duration.value;
        }
      }
    }

    /** The part of the overriding that reads the deprecated port and then the list of ports. */
    method ReadPorts(annotations: Annotations) returns (warnings: seq<Warning>)
      modifies `ports
      ensures ports == old(ports) + OverriddenPorts(annotations)
      ensures warnings == PortWarnings(annotations)
    {
      hide ParseInt16, FlatMap, Split, ReadPiece, PieceWarning, Trim;
      warnings := [];
      if METRICS_PORT in annotations {
        warnings := [DeprecatedPort];
        var port := ParseInt16(annotations[METRICS_PORT]);
        if port.None? {
          warnings := warnings + [BadPort(annotations[METRICS_PORT])];
        } else {
          ports := ports + [PortNumber(port.value)];
        }
      }
      assert ports == old(ports) + SinglePort(annotations) && warnings == SinglePortWarnings(annotations);
      label single:
      if METRICS_PORTS in annotations {
        var more := ReadPortList(annotations[METRICS_PORTS]);
        warnings := warnings + more;
        assert ports == old@single(ports) + ListedPorts(annotations);
      }
    }

    method ReadPortList(value: string) returns (warnings: seq<Warning>)
      modifies `ports
      ensures ports == old(ports) + FlatMap(ReadPiece, Split(value, ','))
      ensures warnings == FlatMap(PieceWarning(value), Split(value, ','))
    {
      hide Trim, ParseInt16, Split;
      warnings := [];
      var pieces := Split(value, ',');
      for i := 0 to |pieces|
        invariant ports == old(ports) + FlatMap(ReadPiece, pieces[..i])
        invariant warnings == FlatMap(PieceWarning(value), pieces[..i])
      {
        FlatMapStep(ReadPiece, pieces, i);
        FlatMapStep(PieceWarning(value), pieces, i);
        var port := ParseInt16(TrimSpace(pieces[i]));
        if port.None? {
          warnings := warnings + [BadPortPiece(value, pieces[i])];
        } else {
          ports := ports + [PortNumber(port.value)];
        }
      }
      assert pieces[..|pieces|] == pieces;
    }

    /** Merges the record over the class file and renders the result. */
    method BuildConfigData(lib: Library, aggregatorGate: Gate, processorGate: Gate)
      returns (r: Result<string, BuildError>)
      ensures r == Render(lib, Build(lib, classDataHandler.data, Gates(aggregatorGate.enabled, processorGate.enabled), View()))
      ensures match Build(lib, classDataHandler.data, Gates(aggregatorGate.enabled, processorGate.enabled), View())
              case Err(e) => r == Err(e) && e != MarshalFailed
              case Ok(c) =>
                match lib.marshal(c)
                case Some(text) => r == Ok(text)
                case None => r == Err(MarshalFailed)
    {
      hide Trim, Scrape, Lift, Generated;
      var classData := classDataHandler.GetDataForClass(class_);
      if classData.None? {
        return Err(NoSuchClass(class_));
      }
      var decoded := lib.unmarshalClass(classData.value);
      if decoded.None? {
        return Err(BadClass);
      }
      var file := decoded.value;
      var inputs := MergeInputs(lib, file);
      if inputs.None? {
        return Err(BadInputs);
      }
      var aggregators := MergeBlock(file.aggregators, rawAggregators, aggregatorGate.enabled, lib.unmarshalAggregators);
      if aggregators.None? {
        return Err(BadAggregators);
      }
      var processors := MergeBlock(file.processors, rawProcessors, processorGate.enabled, lib.unmarshalProcessors);
      if processors.None? {
        return Err(BadProcessors);
      }
      var tags := Overwrite(file.globalTags, globalTags);
      var config := lib.marshal(
        TelegrafConfig(file.agent, inputs.value, file.outputs, aggregators.value, processors.value, tags));
      if config.None? {
        return Err(MarshalFailed);
      }
      return Ok(config.value);
    }

    /** The class's inputs, overwritten by the generated ones, overwritten by the raw ones. */
    method MergeInputs(lib: Library, file: ClassFile) returns (r: Option<map<string, Plugin>>)
      ensures r == match RawBlock(rawInput, true, lib.unmarshalInputs)
                   case None => None
                   case Some(raw) => Some(Lift(file.inputs) + Generated(lib, View()) + Lift(raw))
    {
      hide Trim, Scrape;
      var cfgInputs := Lift(file.inputs);
      if |ports| > 0 {
        var promCfg := BuildPrometheusInput(lib);
        cfgInputs := cfgInputs["prometheus" := Prometheus([promCfg])];
      }
      if enableInternal {
        cfgInputs := cfgInputs["internal" := Internal];
      }
      assert cfgInputs == Lift(file.inputs) + Generated(lib, View());
      if rawInput == "" {
        assert cfgInputs + Lift(map[]) == cfgInputs;
        return Some(cfgInputs);
      }
      var raw := lib.unmarshalInputs(TrimSpace(rawInput));
      if raw.None? {
        return None;
      }
      cfgInputs := Overwrite(cfgInputs, Lift(raw.value));
      return Some(cfgInputs);
    }

    /** A raw aggregator or processor block over the class's, when its gate lets it through. */
    static method MergeBlock(base: Section, text: string, enabled: bool, unmarshal: string -> Option<Section>)
      returns (r: Option<Section>)
      ensures r == match RawBlock(text, enabled, unmarshal)
                   case None => None
                   case Some(raw) => Some(base + raw)
    {
      hide Trim;
      if text == "" || !enabled {
        assert base + map[] == base;
        return Some(base);
      }
      var raw := unmarshal(TrimSpace(text));
      if raw.None? {
        return None;
      }
      var merged := Overwrite(base, raw.value);
      return Some(merged);
    }

    method BuildPrometheusInput(lib: Library) returns (promCfg: PrometheusInput)
      ensures promCfg == Scrape(lib, View())
    {
      var urls: seq<string> := [];
      for i := 0 to |ports|
        invariant urls == Urls(scheme, ports, metricsPath)[..i]
      {
        urls := urls + [scheme + "://localhost:" + Decimal(ports[i]) + metricsPath];
      }
      var names: seq<string> := [];
      if namepass != "" {
        var items := Split(namepass, ',');
        for i := 0 to |items|
          invariant names == FlatMap(TrimItem, items[..i])
        {
          FlatMapStep(TrimItem, items, i);
          names := names + [TrimSpace(items[i])];
        }
        assert items[..|items|] == items;
      }
      promCfg := PrometheusInput(lib.showDuration(interval), urls, names, metricVersion);
    }
  }

  /** Copies one map over another, ranging over it in any order. */
  method Overwrite<V>(base: map<string, V>, top: map<string, V>) returns (merged: map<string, V>)
    ensures merged == base + top
  {
    merged := base;
    var rest := top.Keys;
    while rest != {}
      invariant rest <= top.Keys
      invariant merged.Keys == base.Keys + (top.Keys - rest)
      invariant forall k :: k in merged ==> merged[k] == if k in top && k !in rest then top[k] else base[k]
    {
      var k :| k in rest;
      merged := merged[k := top[k]];
      rest := rest - {k};
    }
  }
}
