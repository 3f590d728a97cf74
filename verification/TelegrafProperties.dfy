/** What the path from annotations to configuration promises, for all annotations and all libraries. */
module TelegrafProperties {
  import opened Text
  import opened Metadata
  import opened ClassData
  import opened Telegraf

  // ------------------------------------------------------------ precedence

  function ClassName(settings: Settings, a: Annotations): string {
    if CLASS in a then a[CLASS] else settings.defaultClass
  }

  /** The class file the annotations choose. */
  predicate Chooses(lib: Library, settings: Settings, classes: Classes, a: Annotations, file: ClassFile) {
    ClassName(settings, a) in classes && lib.unmarshalClass(classes[ClassName(settings, a)]) == Some(file)
  }

  function Trimmed(pieces: seq<string>): (texts: seq<string>)
    ensures |texts| == |pieces|
  {
    seq(|pieces|, i requires 0 <= i < |pieces| => TrimSpace(pieces[i]))
  }

  /** The texts that may be ports: the deprecated annotation as it stands, then the pieces of the list, trimmed. */
  function PortTexts(a: Annotations): seq<string> {
    (if METRICS_PORT in a then [a[METRICS_PORT]] else []) +
    (if METRICS_PORTS in a then Trimmed(Split(a[METRICS_PORTS], ',')) else [])
  }

  /** The ports among the texts: those that write a signed 16-bit number, the negative ones modulo 65536. */
  function Kept(texts: seq<string>): seq<Port> {
    if texts == [] then []
    else
      (match Numeral(texts[0])
       case None => []
       case Some(v) => if 0 <= v <= 32767 then [v] else if -32768 <= v < 0 then [v + 65536] else [])
      + Kept(texts[1..])
  }

  predicate HasPorts(a: Annotations) {
    Kept(PortTexts(a)) != []
  }

  predicate InternalOn(settings: Settings, a: Annotations) {
    settings.enableInternal || (ENABLE_INTERNAL in a && a[ENABLE_INTERNAL] != "")
  }

  predicate IsGenerated(settings: Settings, a: Annotations, k: string) {
    (k == "prometheus" && HasPorts(a)) || (k == "internal" && InternalOn(settings, a))
  }

  /** The raw blocks the annotations bring in; one that is absent or gated off is empty. */
  datatype RawBlocks = RawBlocks(inputs: Option<Section>, aggregators: Option<Section>, processors: Option<Section>)

  function Block(a: Annotations, key: string, on: bool, unmarshal: string -> Option<Section>): Option<Section> {
    if key in a && a[key] != "" && on then unmarshal(TrimSpace(a[key])) else Some(map[])
  }

  function Blocks(lib: Library, gates: Gates, a: Annotations): RawBlocks {
    RawBlocks(
      Block(a, RAW_INPUT, true, lib.unmarshalInputs),
      Block(a, RAW_AGGREGATORS, gates.aggregators, lib.unmarshalAggregators),
      Block(a, RAW_PROCESSORS, gates.processors, lib.unmarshalProcessors))
  }

  predicate Decode(raw: RawBlocks) {
    raw.inputs.Some? && raw.aggregators.Some? && raw.processors.Some?
  }

  /** Building succeeds exactly when the chosen class exists and decodes and the active raw blocks decode. */
  lemma ConfigureSucceeds(lib: Library, settings: Settings, classes: Classes, gates: Gates, a: Annotations)
    ensures var name := ClassName(settings, a);
            Configure(lib, settings, classes, gates, a).Ok? <==>
              (name in classes && lib.unmarshalClass(classes[name]).Some?) && Decode(Blocks(lib, gates, a))
    ensures forall file :: Chooses(lib, settings, classes, a, file) && Decode(Blocks(lib, gates, a)) ==>
              var raw := Blocks(lib, gates, a);
              Configure(lib, settings, classes, gates, a) ==
                Ok(Merge(lib, file, Resolved(lib, settings, a), raw.inputs.value, raw.aggregators.value, raw.processors.value))
  {
    hide Trim, Merge, OverriddenPorts, WithPrefix;
    hide OverriddenInterval, OverriddenVersion, OverriddenNamepass, OverriddenInternal;
  }

  /** Key by key, the inputs are the raw ones over the generated ones over the class's. */
  lemma InputPrecedence(lib: Library, settings: Settings, classes: Classes, gates: Gates, a: Annotations,
                        c: TelegrafConfig, file: ClassFile, k: string)
    requires Configure(lib, settings, classes, gates, a) == Ok(c)
    requires Chooses(lib, settings, classes, a, file)
    ensures Decode(Blocks(lib, gates, a))
    ensures var raw := Blocks(lib, gates, a).inputs.value;
            (k in c.inputs <==> k in raw || IsGenerated(settings, a, k) || k in file.inputs) &&
            (k in raw ==> c.inputs[k] == Decoded(raw[k])) &&
            (k !in raw && k == "internal" && InternalOn(settings, a) ==> c.inputs[k] == Internal) &&
            (k !in raw && k == "prometheus" && HasPorts(a) ==>
               c.inputs[k] == Prometheus([Scrape(lib, Resolved(lib, settings, a))]) &&
               Scrapes(lib, a, Scrape(lib, Resolved(lib, settings, a)))) &&
            (k !in raw && !IsGenerated(settings, a, k) && k in file.inputs ==> c.inputs[k] == Decoded(file.inputs[k]))
  {
    hide Configure, Blocks, OverriddenPorts, Scrape, WithPrefix, Setting, Kept, PortTexts, Scrapes;
    hide OverriddenInterval, OverriddenVersion, OverriddenNamepass;
    ConfigureSucceeds(lib, settings, classes, gates, a);
    var v := Resolved(lib, settings, a);
    PortsAreKept(a);
    ScrapeFromAnnotations(lib, settings, a);
    assert v.ports == Kept(PortTexts(a)) && v.enableInternal == InternalOn(settings, a);
    hide Resolved, InternalOn;
  }

  /**
    Agent and outputs are the class's. The raw aggregators and processors go over the class's,
    and so do the annotated global tags, each under the rest of its annotation key.
  */
  lemma SectionPrecedence(lib: Library, settings: Settings, classes: Classes, gates: Gates, a: Annotations,
                        c: TelegrafConfig, file: ClassFile, k: string)
    requires Configure(lib, settings, classes, gates, a) == Ok(c)
    requires Chooses(lib, settings, classes, a, file)
    ensures Decode(Blocks(lib, gates, a)) && c.agent == file.agent && c.outputs == file.outputs
    ensures var raw := Blocks(lib, gates, a).aggregators.value;
            (k in c.aggregators <==> k in raw || k in file.aggregators) &&
            (k in c.aggregators ==> c.aggregators[k] == if k in raw then raw[k] else file.aggregators[k])
    ensures var raw := Blocks(lib, gates, a).processors.value;
            (k in c.processors <==> k in raw || k in file.processors) &&
            (k in c.processors ==> c.processors[k] == if k in raw then raw[k] else file.processors[k])
    ensures var key := GLOBAL_TAG_LITERAL + k;
            (k in c.globalTags <==> key in a || k in file.globalTags) &&
            (k in c.globalTags ==> c.globalTags[k] == if key in a then a[key] else file.globalTags[k])
  {
    hide Configure, Blocks, OverriddenPorts, Generated, Lift, Setting;
    hide OverriddenInterval, OverriddenVersion, OverriddenNamepass, OverriddenInternal;
    ConfigureSucceeds(lib, settings, classes, gates, a);
  }

  // ------------------------------------------------------- the text as a whole

  /** What stands in the inputs under one key. */
  predicate InputIs(lib: Library, settings: Settings, a: Annotations, raw: Section, file: ClassFile, inputs: map<string, Plugin>, k: string) {
    if k in raw then k in inputs && inputs[k] == Decoded(raw[k])
    else if k == "internal" && InternalOn(settings, a) then k in inputs && inputs[k] == Internal
    else if k == "prometheus" && HasPorts(a) then
      k in inputs && inputs[k].Prometheus? && |inputs[k].inputs| == 1 && Scrapes(lib, a, inputs[k].inputs[0])
    else if k in file.inputs then k in inputs && inputs[k] == Decoded(file.inputs[k])
    else k !in inputs
  }

  predicate TagIs(a: Annotations, file: ClassFile, tags: map<string, string>, k: string) {
    if GLOBAL_TAG_LITERAL + k in a then k in tags && tags[k] == a[GLOBAL_TAG_LITERAL + k]
    else if k in file.globalTags then k in tags && tags[k] == file.globalTags[k]
    else k !in tags
  }

  /** The configuration the annotations ask for over this class file, section by section and key by key. */
  ghost predicate Describes(lib: Library, settings: Settings, gates: Gates, a: Annotations, file: ClassFile, c: TelegrafConfig) {
    var raw := Blocks(lib, gates, a);
    Decode(raw) && c.agent == file.agent && c.outputs == file.outputs &&
    c.aggregators == file.aggregators + raw.aggregators.value &&
    c.processors == file.processors + raw.processors.value &&
    (forall k :: InputIs(lib, settings, a, raw.inputs.value, file, c.inputs, k)) &&
    (forall k :: TagIs(a, file, c.globalTags, k))
  }

  /** Building gives the configuration the annotations ask for and no other, and there is only one. */
  lemma ConfigureMeaning(lib: Library, settings: Settings, classes: Classes, gates: Gates, a: Annotations, c: TelegrafConfig)
    ensures Configure(lib, settings, classes, gates, a) == Ok(c) <==>
      exists file :: Chooses(lib, settings, classes, a, file) && Describes(lib, settings, gates, a, file, c)
  {
    hide Configure, Chooses, Describes, Blocks;
    ConfigureSucceeds(lib, settings, classes, gates, a);
    if Configure(lib, settings, classes, gates, a).Ok? {
      var file := ChosenFile(lib, settings, classes, gates, a);
      var built := Configure(lib, settings, classes, gates, a).value;
      ConfigureDescribes(lib, settings, classes, gates, a, built, file);
      if other :| Chooses(lib, settings, classes, a, other) && Describes(lib, settings, gates, a, other, c) {
        OneChoice(lib, settings, classes, a, file, other);
        OneDescription(lib, settings, gates, a, file, built, c);
      }
    } else if file :| Chooses(lib, settings, classes, a, file) && Describes(lib, settings, gates, a, file, c) {
      DescribedDecodes(lib, settings, classes, gates, a, file, c);
    }
  }

  lemma DescribedDecodes(lib: Library, settings: Settings, classes: Classes, gates: Gates, a: Annotations, file: ClassFile, c: TelegrafConfig)
    requires Chooses(lib, settings, classes, a, file) && Describes(lib, settings, gates, a, file, c)
    ensures Decode(Blocks(lib, gates, a)) && ClassName(settings, a) in classes && lib.unmarshalClass(classes[ClassName(settings, a)]).Some?
  {
    hide Blocks, Decode;
  }

  lemma OneChoice(lib: Library, settings: Settings, classes: Classes, a: Annotations, file: ClassFile, other: ClassFile)
    requires Chooses(lib, settings, classes, a, file) && Chooses(lib, settings, classes, a, other)
    ensures file == other
  {
  }

  lemma ChosenFile(lib: Library, settings: Settings, classes: Classes, gates: Gates, a: Annotations) returns (file: ClassFile)
    requires Configure(lib, settings, classes, gates, a).Ok?
    ensures Chooses(lib, settings, classes, a, file)
  {
    hide Configure, Blocks;
    ConfigureSucceeds(lib, settings, classes, gates, a);
    file := lib.unmarshalClass(classes[ClassName(settings, a)]).value;
  }

  lemma ConfigureDescribes(lib: Library, settings: Settings, classes: Classes, gates: Gates, a: Annotations, c: TelegrafConfig, file: ClassFile)
    requires Configure(lib, settings, classes, gates, a) == Ok(c) && Chooses(lib, settings, classes, a, file)
    ensures Describes(lib, settings, gates, a, file, c)
  {
    hide Configure, Blocks, Chooses, Scrapes, Scrape, Resolved, HasPorts;
    forall k
      ensures Decode(Blocks(lib, gates, a)) && InputIs(lib, settings, a, Blocks(lib, gates, a).inputs.value, file, c.inputs, k) {
      InputPrecedence(lib, settings, classes, gates, a, c, file, k);
    }
    forall k ensures TagIs(a, file, c.globalTags, k) {
      SectionPrecedence(lib, settings, classes, gates, a, c, file, k);
    }
    hide InputIs, TagIs;
    SectionsAreOverlaid(lib, settings, classes, gates, a, c, file);
  }

  lemma SectionsAreOverlaid(lib: Library, settings: Settings, classes: Classes, gates: Gates, a: Annotations, c: TelegrafConfig, file: ClassFile)
    requires Configure(lib, settings, classes, gates, a) == Ok(c) && Chooses(lib, settings, classes, a, file)
    ensures var raw := Blocks(lib, gates, a);
            Decode(raw) && c.agent == file.agent && c.outputs == file.outputs &&
            c.aggregators == file.aggregators + raw.aggregators.value && c.processors == file.processors + raw.processors.value
  {
    hide Configure, Blocks, Chooses;
    SectionPrecedence(lib, settings, classes, gates, a, c, file, "");
    forall k
      ensures var raw := Blocks(lib, gates, a);
              (k in c.aggregators <==> k in file.aggregators + raw.aggregators.value) &&
              (k in c.aggregators ==> c.aggregators[k] == (file.aggregators + raw.aggregators.value)[k]) &&
              (k in c.processors <==> k in file.processors + raw.processors.value) &&
              (k in c.processors ==> c.processors[k] == (file.processors + raw.processors.value)[k]) {
      SectionPrecedence(lib, settings, classes, gates, a, c, file, k);
    }
  }

  lemma OneDescription(lib: Library, settings: Settings, gates: Gates, a: Annotations, file: ClassFile, c: TelegrafConfig, d: TelegrafConfig)
    requires Describes(lib, settings, gates, a, file, c) && Describes(lib, settings, gates, a, file, d)
    ensures c == d
  {
    hide Blocks, HasPorts, Scrapes, InternalOn;
    var raw := Blocks(lib, gates, a).inputs.value;
    forall k ensures (k in c.inputs <==> k in d.inputs) && (k in c.inputs ==> c.inputs[k] == d.inputs[k]) {
      assert InputIs(lib, settings, a, raw, file, c.inputs, k) && InputIs(lib, settings, a, raw, file, d.inputs, k);
      OneInput(lib, settings, a, raw, file, c.inputs, d.inputs, k);
    }
    hide InputIs;
    forall k ensures (k in c.globalTags <==> k in d.globalTags) && (k in c.globalTags ==> c.globalTags[k] == d.globalTags[k]) {
      assert TagIs(a, file, c.globalTags, k) && TagIs(a, file, d.globalTags, k);
    }
    assert c.inputs == d.inputs && c.globalTags == d.globalTags;
  }

  lemma OneInput(lib: Library, settings: Settings, a: Annotations, raw: Section, file: ClassFile,
                 inputs: map<string, Plugin>, others: map<string, Plugin>, k: string)
    requires InputIs(lib, settings, a, raw, file, inputs, k) && InputIs(lib, settings, a, raw, file, others, k)
    ensures (k in inputs <==> k in others) && (k in inputs ==> inputs[k] == others[k])
  {
    hide Scrapes, HasPorts, InternalOn, Scrape, Resolved;
    ScrapeFromAnnotations(lib, settings, a);
    if k in inputs && k in others && inputs[k].Prometheus? && others[k].Prometheus? && |inputs[k].inputs| == 1 && |others[k].inputs| == 1 {
      assert inputs[k].inputs == [inputs[k].inputs[0]] && others[k].inputs == [others[k].inputs[0]];
    }
  }

  /**
    The text in the secret, or the error, with nothing left to the builder's own functions. A text
    is the rendering of the one configuration the annotations ask for over the chosen class; and
    each failure is that of the first thing that goes wrong.
  */
  lemma SynthesizeMeaning(lib: Library, settings: Settings, classes: Classes, gates: Gates, a: Annotations)
    ensures forall text :: Synthesize(lib, settings, classes, gates, a) == Ok(text) <==>
      exists file, c :: Chooses(lib, settings, classes, a, file) && Describes(lib, settings, gates, a, file, c) &&
                        lib.marshal(c) == Some(text)
    ensures Synthesize(lib, settings, classes, gates, a) == Err(MarshalFailed) <==>
      exists file, c :: Chooses(lib, settings, classes, a, file) && Describes(lib, settings, gates, a, file, c) &&
                        lib.marshal(c) == None
    ensures var built, name, raw := Synthesize(lib, settings, classes, gates, a), ClassName(settings, a), Blocks(lib, gates, a);
            var found := name in classes && lib.unmarshalClass(classes[name]).Some?;
            (forall n :: built == Err(NoSuchClass(n)) <==> n == name && name !in classes) &&
            (built == Err(BadClass) <==> name in classes && lib.unmarshalClass(classes[name]).None?) &&
            (built == Err(BadInputs) <==> found && raw.inputs.None?) &&
            (built == Err(BadAggregators) <==> found && raw.inputs.Some? && raw.aggregators.None?) &&
            (built == Err(BadProcessors) <==> found && raw.inputs.Some? && raw.aggregators.Some? && raw.processors.None?)
  {
    BuildErrors(lib, settings, classes, gates, a);
    hide Configure, Chooses, Describes, Blocks, ClassName;
    var built := Configure(lib, settings, classes, gates, a);
    if built.Ok? {
      ConfigureMeaning(lib, settings, classes, gates, a, built.value);
      var file :| Chooses(lib, settings, classes, a, file) && Describes(lib, settings, gates, a, file, built.value);
    }
    forall file, c | Chooses(lib, settings, classes, a, file) && Describes(lib, settings, gates, a, file, c)
      ensures built == Ok(c) {
      ConfigureMeaning(lib, settings, classes, gates, a, c);
    }
  }

  lemma BuildErrors(lib: Library, settings: Settings, classes: Classes, gates: Gates, a: Annotations)
    ensures var built, name, raw := Configure(lib, settings, classes, gates, a), ClassName(settings, a), Blocks(lib, gates, a);
            if name !in classes then built == Err(NoSuchClass(name))
            else if lib.unmarshalClass(classes[name]).None? then built == Err(BadClass)
            else if raw.inputs.None? then built == Err(BadInputs)
            else if raw.aggregators.None? then built == Err(BadAggregators)
            else if raw.processors.None? then built == Err(BadProcessors)
            else built.Ok?
  {
    hide Trim, Merge, OverriddenPorts, WithPrefix;
    hide OverriddenInterval, OverriddenVersion, OverriddenNamepass, OverriddenInternal;
  }

  // ----------------------------------------------------------- independence

  predicate AgreeAt(a: Annotations, b: Annotations, key: string) {
    (key in a <==> key in b) && (key in a ==> a[key] == b[key])
  }

  /**
    Two runs that choose the same class text agree on agent and outputs, whatever the other
    annotations, the gates and the settings are in each.
  */
  lemma AgentAndOutputsFromClassAlone(
    lib: Library, s1: Settings, s2: Settings, cs1: Classes, cs2: Classes, g1: Gates, g2: Gates, a1: Annotations, a2: Annotations)
    requires Configure(lib, s1, cs1, g1, a1).Ok? && Configure(lib, s2, cs2, g2, a2).Ok?
    requires cs1[ClassName(s1, a1)] == cs2[ClassName(s2, a2)]
    ensures Configure(lib, s1, cs1, g1, a1).value.agent == Configure(lib, s2, cs2, g2, a2).value.agent
    ensures Configure(lib, s1, cs1, g1, a1).value.outputs == Configure(lib, s2, cs2, g2, a2).value.outputs
  {
    hide Configure, Blocks, ClassName, Resolved;
    ConfigureSucceeds(lib, s1, cs1, g1, a1);
    ConfigureSucceeds(lib, s2, cs2, g2, a2);
    var file := lib.unmarshalClass(cs1[ClassName(s1, a1)]).value;
    assert Chooses(lib, s1, cs1, a1, file) && Chooses(lib, s2, cs2, a2, file);
  }

  /** The annotations that can make building fail. */
  predicate Decides(gates: Gates, key: string) {
    key == CLASS || key == RAW_INPUT || (key == RAW_AGGREGATORS && gates.aggregators) || (key == RAW_PROCESSORS && gates.processors)
  }

  /**
    No scalar annotation ever blocks a secret: if rendering is total, whether a configuration
    comes out depends on the class and the active raw blocks alone.
  */
  lemma OnlyClassAndRawBlocksDecide(lib: Library, settings: Settings, classes: Classes, gates: Gates, a: Annotations, b: Annotations)
    requires forall c :: lib.marshal(c).Some?
    requires forall key :: Decides(gates, key) ==> AgreeAt(a, b, key)
    ensures Synthesize(lib, settings, classes, gates, a).Ok? <==> Synthesize(lib, settings, classes, gates, b).Ok?
  {
    hide Configure, Trim;
    assert AgreeAt(a, b, CLASS) && AgreeAt(a, b, RAW_INPUT);
    assert gates.aggregators ==> AgreeAt(a, b, RAW_AGGREGATORS);
    assert gates.processors ==> AgreeAt(a, b, RAW_PROCESSORS);
    ConfigureSucceeds(lib, settings, classes, gates, a);
    ConfigureSucceeds(lib, settings, classes, gates, b);
  }

  /** With its gate off, a raw block has no influence at all, not even on failure. */
  lemma GatedOffBlockIsIgnored(lib: Library, settings: Settings, classes: Classes, gates: Gates, a: Annotations, b: Annotations, key: string)
    requires (key == RAW_AGGREGATORS && !gates.aggregators) || (key == RAW_PROCESSORS && !gates.processors)
    requires a - {key} == b - {key}
    ensures Synthesize(lib, settings, classes, gates, a) == Synthesize(lib, settings, classes, gates, b)
  {
    hide Trim, Resolved, Build;
    OtherKeysAgree(a, b, key);
    SameValuesButBlock(lib, settings, a, b, key);
    BuildIgnoresGatedBlock(lib, classes, gates, Resolved(lib, settings, a), Resolved(lib, settings, b));
  }

  lemma BuildIgnoresGatedBlock(lib: Library, classes: Classes, gates: Gates, v: Values, w: Values)
    requires v.(rawAggregators := "", rawProcessors := "") == w.(rawAggregators := "", rawProcessors := "")
    requires gates.aggregators ==> v.rawAggregators == w.rawAggregators
    requires gates.processors ==> v.rawProcessors == w.rawProcessors
    ensures Build(lib, classes, gates, v) == Build(lib, classes, gates, w)
  {
    hide Trim, Urls, NamepassList, Lift;
    assert Scrape(lib, v) == Scrape(lib, w);
  }

  lemma OtherKeysAgree(a: Annotations, b: Annotations, key: string)
    requires a - {key} == b - {key}
    ensures forall k :: k != key ==> AgreeAt(a, b, k)
  {
    forall k | k != key ensures AgreeAt(a, b, k) {
      SameOutside(a, b, key, k);
    }
  }

  lemma SameSetting(a: Annotations, b: Annotations, key: string, default: string)
    requires AgreeAt(a, b, key)
    ensures Setting(a, key, default) == Setting(b, key, default)
  {
  }

  lemma SamePorts(a: Annotations, b: Annotations)
    requires AgreeAt(a, b, METRICS_PORT) && AgreeAt(a, b, METRICS_PORTS)
    ensures OverriddenPorts(a) == OverriddenPorts(b)
  {
    hide Split, FlatMap, ReadPort;
  }

  lemma SameScalars(lib: Library, a: Annotations, b: Annotations, v: Values)
    requires AgreeAt(a, b, NAMEPASS) && AgreeAt(a, b, INTERVAL) && AgreeAt(a, b, METRIC_VERSION) && AgreeAt(a, b, ENABLE_INTERNAL)
    ensures OverriddenNamepass(a, v.namepass) == OverriddenNamepass(b, v.namepass)
    ensures OverriddenInterval(lib, a, v.interval) == OverriddenInterval(lib, b, v.interval)
    ensures OverriddenVersion(a, v.metricVersion) == OverriddenVersion(b, v.metricVersion)
    ensures OverriddenInternal(a, v.enableInternal) == OverriddenInternal(b, v.enableInternal)
  {
    hide CleanNamepass, ParseUint8;
  }

  lemma SameValuesButBlock(lib: Library, settings: Settings, a: Annotations, b: Annotations, key: string)
    requires key == RAW_AGGREGATORS || key == RAW_PROCESSORS
    requires a - {key} == b - {key} && forall k :: k != key ==> AgreeAt(a, b, k)
    ensures var v, w := Resolved(lib, settings, a), Resolved(lib, settings, b);
            v.(rawAggregators := "", rawProcessors := "") == w.(rawAggregators := "", rawProcessors := "") &&
            (key == RAW_AGGREGATORS ==> v.rawProcessors == w.rawProcessors) &&
            (key == RAW_PROCESSORS ==> v.rawAggregators == w.rawAggregators)
  {
    hide Setting, OverriddenPorts, OverriddenNamepass, OverriddenInternal, OverriddenInterval, OverriddenVersion, WithPrefix;
    var v := NewValues(settings);
    SamePorts(a, b);
    SameScalars(lib, a, b, v);
    SameSetting(a, b, CLASS, v.class_);
    SameSetting(a, b, METRICS_PATH, v.metricsPath);
    SameSetting(a, b, METRICS_SCHEME, v.scheme);
    SameSetting(a, b, RAW_INPUT, v.rawInput);
    if key == RAW_AGGREGATORS {
      SameSetting(a, b, RAW_PROCESSORS, v.rawProcessors);
    } else {
      SameSetting(a, b, RAW_AGGREGATORS, v.rawAggregators);
    }
    PrefixIgnores(a, b, GLOBAL_TAG_LITERAL, key);
  }

  // --------------------------------------------------------------- warnings

  /** The override step warns exactly when a conversion failed or the deprecated key is present. */
  lemma WarnsExactly(lib: Library, a: Annotations)
    ensures Warnings(lib, a) == [] <==>
      METRICS_PORT !in a &&
      (METRICS_PORTS in a ==> forall piece :: piece in Split(a[METRICS_PORTS], ',') ==> ParseInt16(TrimSpace(piece)).Some?) &&
      (METRIC_VERSION in a ==> ParseUint8(a[METRIC_VERSION]).Some?) &&
      (INTERVAL in a ==> lib.parseDuration(a[INTERVAL]).Some?)
  {
    hide Trim, Split, ParseInt16, ParseUint8;
    if METRICS_PORTS in a {
      PieceWarningsEmpty(a[METRICS_PORTS], Split(a[METRICS_PORTS], ','));
    }
  }

  /** Each warning there may be, exactly when there is it. */
  lemma WarningsMeaning(lib: Library, a: Annotations)
    ensures DeprecatedPort in Warnings(lib, a) <==> METRICS_PORT in a
    ensures forall v :: BadPort(v) in Warnings(lib, a) <==> METRICS_PORT in a && v == a[METRICS_PORT] && ParseInt16(v).None?
    ensures forall v, piece :: BadPortPiece(v, piece) in Warnings(lib, a) <==>
      METRICS_PORTS in a && v == a[METRICS_PORTS] && piece in Split(v, ',') && ParseInt16(TrimSpace(piece)).None?
    ensures forall v :: BadVersion(v) in Warnings(lib, a) <==> METRIC_VERSION in a && v == a[METRIC_VERSION] && ParseUint8(v).None?
    ensures forall v :: BadInterval(v) in Warnings(lib, a) <==> INTERVAL in a && v == a[INTERVAL] && lib.parseDuration(v).None?
  {
    PortWarningsAre(a);
    ScalarWarningsAre(lib, a);
    hide Trim, Split, ParseInt16, ParseUint8, FlatMap, PortWarnings, VersionWarnings, IntervalWarnings;
    assert forall w :: w in Warnings(lib, a) <==> w in PortWarnings(a) || w in VersionWarnings(a) || w in IntervalWarnings(lib, a);
    hide Warnings;
  }

  lemma PortWarningsAre(a: Annotations)
    ensures forall w :: w in PortWarnings(a) <==>
      match w
      case DeprecatedPort => METRICS_PORT in a
      case BadPort(v) => METRICS_PORT in a && v == a[METRICS_PORT] && ParseInt16(v).None?
      case BadPortPiece(v, piece) => METRICS_PORTS in a && v == a[METRICS_PORTS] && piece in Split(v, ',') && ParseInt16(TrimSpace(piece)).None?
      case _ => false
  {
    hide Trim, Split, ParseInt16, FlatMap;
    if METRICS_PORTS in a {
      PieceWarningsAre(a[METRICS_PORTS], Split(a[METRICS_PORTS], ','));
    }
  }

  lemma ScalarWarningsAre(lib: Library, a: Annotations)
    ensures forall w :: w in VersionWarnings(a) <==>
      w.BadVersion? && METRIC_VERSION in a && w.value == a[METRIC_VERSION] && ParseUint8(w.value).None?
    ensures forall w :: w in IntervalWarnings(lib, a) <==>
      w.BadInterval? && INTERVAL in a && w.value == a[INTERVAL] && lib.parseDuration(w.value).None?
  {
    hide ParseUint8;
  }

  lemma {:induction false} PieceWarningsAre(value: string, pieces: seq<string>)
    ensures forall w :: w in FlatMap(PieceWarning(value), pieces) <==>
      w.BadPortPiece? && w.value == value && w.piece in pieces && ParseInt16(TrimSpace(w.piece)).None?
  {
    hide Trim, ParseInt16;
    if pieces != [] {
      var front, last := pieces[..|pieces| - 1], pieces[|pieces| - 1];
      PieceWarningsAre(value, front);
      assert pieces == front + [last];
    }
  }

  lemma {:induction false} PieceWarningsEmpty(value: string, pieces: seq<string>)
    ensures FlatMap(PieceWarning(value), pieces) == [] <==>
      forall piece :: piece in pieces ==> ParseInt16(TrimSpace(piece)).Some?
  {
    hide Trim, ParseInt16;
    if pieces != [] {
      var front, last := pieces[..|pieces| - 1], pieces[|pieces| - 1];
      PieceWarningsEmpty(value, front);
      assert pieces == front + [last];
    }
  }

  // ------------------------------------------------------------------ ports

  /**
    Piece i became either the port that follows those of the pieces before it, or the warning
    that follows those of the pieces before it.
  */
  predicate Placed(value: string, pieces: seq<string>, i: nat)
    requires i < |pieces|
  {
    var ports, warnings := FlatMap(ReadPiece, pieces), FlatMap(PieceWarning(value), pieces);
    var before := |FlatMap(ReadPiece, pieces[..i])|;
    match ParseInt16(TrimSpace(pieces[i]))
    case Some(v) => before < |ports| && ports[before] == PortNumber(v)
    case None => 0 <= i - before < |warnings| && warnings[i - before] == BadPortPiece(value, pieces[i])
  }

  /** Every piece of the list is accounted for exactly once, in the order of the list. */
  lemma PiecesConserved(value: string, pieces: seq<string>)
    ensures |FlatMap(ReadPiece, pieces)| + |FlatMap(PieceWarning(value), pieces)| == |pieces|
    ensures forall i :: 0 <= i < |pieces| ==> Placed(value, pieces, i)
  {
    PiecesCounted(value, pieces);
    forall i | 0 <= i < |pieces| ensures Placed(value, pieces, i) {
      PiecePlaced(value, pieces, i);
    }
  }

  lemma {:induction false} PiecesCounted(value: string, pieces: seq<string>)
    ensures |FlatMap(ReadPiece, pieces)| + |FlatMap(PieceWarning(value), pieces)| == |pieces|
  {
    hide Trim, ParseInt16;
    if pieces != [] {
      PiecesCounted(value, pieces[..|pieces| - 1]);
    }
  }

  lemma PiecePlaced(value: string, pieces: seq<string>, i: nat)
    requires i < |pieces|
    ensures Placed(value, pieces, i)
  {
    hide Trim, ParseInt16;
    var front, back := pieces[..i], pieces[i + 1..];
    assert pieces == front + [pieces[i]] + back;
    PiecesCounted(value, front);
    FlatMapConcat(ReadPiece, front + [pieces[i]], back);
    FlatMapConcat(ReadPiece, front, [pieces[i]]);
    FlatMapOne(ReadPiece, pieces[i]);
    FlatMapConcat(PieceWarning(value), front + [pieces[i]], back);
    FlatMapConcat(PieceWarning(value), front, [pieces[i]]);
    FlatMapOne(PieceWarning(value), pieces[i]);
  }

  /**
    The scrape the annotations ask for: one URL for each port kept, in order, and the interval, the
    metric version and the names let through, or the documented defaults for what is absent or
    does not convert.
  */
  predicate Scrapes(lib: Library, a: Annotations, x: PrometheusInput) {
    var ports := Kept(PortTexts(a));
    var scheme := if METRICS_SCHEME in a then a[METRICS_SCHEME] else "http";
    var path := if METRICS_PATH in a then a[METRICS_PATH] else "/metrics";
    |x.urls| == |ports| &&
    (forall i :: 0 <= i < |ports| ==> x.urls[i] == scheme + "://localhost:" + Decimal(ports[i]) + path) &&
    (x.interval == lib.showDuration(
      if INTERVAL in a && lib.parseDuration(a[INTERVAL]).Some? then lib.parseDuration(a[INTERVAL]).value else 10_000_000_000)) &&
    (x.metricVersion ==
      if METRIC_VERSION in a && ParseUint8(a[METRIC_VERSION]).Some? then ParseUint8(a[METRIC_VERSION]).value else 1) &&
    (x.namepass == if NAMEPASS in a then NamepassList(CleanNamepass(a[NAMEPASS])) else [])
  }

  /** The generated scrape is the one the annotations ask for, and only one is. */
  lemma ScrapeFromAnnotations(lib: Library, settings: Settings, a: Annotations)
    ensures Scrapes(lib, a, Scrape(lib, Resolved(lib, settings, a)))
    ensures forall x :: Scrapes(lib, a, x) ==> x == Scrape(lib, Resolved(lib, settings, a))
  {
    hide OverriddenPorts, WithPrefix, ParseUint8, CleanNamepass, Split, Decimal, Kept, PortTexts;
    var v := Resolved(lib, settings, a);
    PortsAreKept(a);
    assert v.ports == Kept(PortTexts(a));
    assert NamepassList("") == [];
    hide NamepassList;
    forall x | Scrapes(lib, a, x) ensures x == Scrape(lib, v) {
      assert x.urls == Urls(v.scheme, v.ports, v.metricsPath);
    }
  }

  /** The loops keep exactly these ports, in this order. */
  lemma PortsAreKept(a: Annotations)
    ensures OverriddenPorts(a) == Kept(PortTexts(a))
  {
    hide Split, Trim, FlatMap, Numeral, Kept;
    var first := if METRICS_PORT in a then [a[METRICS_PORT]] else [];
    var listed := if METRICS_PORTS in a then Trimmed(Split(a[METRICS_PORTS], ',')) else [];
    KeptConcat(first, listed);
    if METRICS_PORT in a {
      KeptOne(a[METRICS_PORT]);
    }
    KeptNone();
    if METRICS_PORTS in a {
      KeptPieces(Split(a[METRICS_PORTS], ','));
    }
  }

  lemma {:induction false} KeptConcat(a: seq<string>, b: seq<string>)
    ensures Kept(a + b) == Kept(a) + Kept(b)
  {
    hide Numeral;
    if a == [] {
      assert a + b == b;
    } else {
      assert (a + b)[1..] == a[1..] + b;
      KeptConcat(a[1..], b);
    }
  }

  lemma KeptNone()
    ensures Kept([]) == []
  {
  }

  lemma KeptOne(text: string)
    ensures Kept([text]) == ReadPort(text)
  {
    hide Numeral;
  }

  lemma {:induction false} KeptPieces(pieces: seq<string>)
    ensures Kept(Trimmed(pieces)) == FlatMap(ReadPiece, pieces)
  {
    hide Trim, Kept, Numeral;
    if pieces == [] {
      KeptNone();
    } else {
      var front, last := pieces[..|pieces| - 1], pieces[|pieces| - 1];
      KeptPieces(front);
      assert Trimmed(pieces) == Trimmed(front) + [TrimSpace(last)];
      KeptConcat(Trimmed(front), [TrimSpace(last)]);
      KeptOne(TrimSpace(last));
    }
  }

  /**
    The number a piece stands for decides what becomes of it: 0 to 32767 is kept and prints
    back as the same number, a negative 16-bit number wraps modulo 65536, anything else warns.
  */
  lemma PieceValue(value: string, piece: string)
    ensures match Numeral(TrimSpace(piece))
            case None => ReadPiece(piece) == [] && PieceWarning(value)(piece) == [BadPortPiece(value, piece)]
            case Some(v) =>
              if 0 <= v <= 32767 then
                ReadPiece(piece) == [v] && PieceWarning(value)(piece) == [] && Numeral(Decimal(v)) == Some(v)
              else if -32768 <= v < 0 then ReadPiece(piece) == [v + 65536] && PieceWarning(value)(piece) == []
              else ReadPiece(piece) == [] && PieceWarning(value)(piece) == [BadPortPiece(value, piece)]
  {
    hide Trim, Numeral, Decimal;
    var n := Numeral(TrimSpace(piece));
    if n.Some? && 0 <= n.value {
      DecimalRoundTrip(n.value);
    }
  }

  lemma DecimalIsTight(n: nat)
    ensures TrimSpace(Decimal(n)) == Decimal(n)
  {
    var s := Decimal(n);
    DecimalRoundTrip(n);
    assert IsDigit(s[0]) && IsDigit(s[|s| - 1]);
    assert forall c :: IsDigit(c) ==> c !in SPACES;
    TrimShape(s, SPACES);
  }

  /** Of the 65536 port numbers, written in decimal, exactly the lower half can be scraped. */
  lemma UpperPortsRefused(port: Port)
    ensures ReadPiece(Decimal(port)) == if port <= 32767 then [port] else []
  {
    DecimalIsTight(port);
    DecimalRoundTrip(port);
    PieceValue("", Decimal(port));
  }

  // --------------------------------------------------------------- namepass

  /** The items 'a', 'b', ... each after some optional space. */
  function QuotedItems(names: seq<string>, gaps: seq<string>): seq<string>
    requires |gaps| == |names|
  {
    if names == [] then [] else [gaps[0] + "'" + names[0] + "'"] + QuotedItems(names[1..], gaps[1..])
  }

  function PlainItems(names: seq<string>, gaps: seq<string>): seq<string>
    requires |gaps| == |names|
  {
    if names == [] then [] else [gaps[0] + names[0]] + PlainItems(names[1..], gaps[1..])
  }

  predicate Plain(name: string) {
    ',' !in name && '\'' !in name && Tight(name, SPACES)
  }

  predicate Writable(names: seq<string>, gaps: seq<string>) {
    |gaps| == |names| && (forall n :: n in names ==> Plain(n)) && forall g :: g in gaps ==> Blank(g)
  }

  predicate Blank(gap: string) {
    forall i :: 0 <= i < |gap| ==> gap[i] == ' '
  }

  lemma {:induction false} UnquoteItems(names: seq<string>, gaps: seq<string>)
    requires Writable(names, gaps)
    ensures Remove(Join(QuotedItems(names, gaps), ','), '\'') == Join(PlainItems(names, gaps), ',')
    ensures |QuotedItems(names, gaps)| == |PlainItems(names, gaps)| == |names|
    ensures forall i :: 0 <= i < |names| ==> PlainItems(names, gaps)[i] == gaps[i] + names[i]
  {
    if names != [] {
      var item := gaps[0] + "'" + names[0] + "'";
      UnquoteItem(gaps[0], names[0]);
      UnquoteItems(names[1..], gaps[1..]);
      if |names| > 1 {
        var rest := Join(QuotedItems(names[1..], gaps[1..]), ',');
        assert Join(QuotedItems(names, gaps), ',') == item + [','] + rest;
        RemoveConcat(item + [','], rest, '\'');
        RemoveConcat(item, [','], '\'');
        RemoveAbsent([','], '\'');
      }
    }
  }

  lemma UnquoteItem(gap: string, name: string)
    requires Plain(name) && Blank(gap)
    ensures Remove(gap + "'" + name + "'", '\'') == gap + name
  {
    RemoveConcat(gap + "'" + name, "'", '\'');
    RemoveConcat(gap + "'", name, '\'');
    RemoveConcat(gap, "'", '\'');
    RemoveAbsent(gap, '\'');
    RemoveAbsent(name, '\'');
    assert Remove("'", '\'') == "";
  }

  lemma {:induction false} QuotedBodyIsTight(names: seq<string>, gaps: seq<string>)
    requires Writable(names, gaps) && names != []
    ensures var body := Join(QuotedItems(names, gaps), ',');
            body != "" && body[0] != '[' && body[0] != ']' && body[|body| - 1] == '\''
  {
    var item := gaps[0] + "'" + names[0] + "'";
    assert gaps[0] in gaps;
    assert item[0] == if gaps[0] == "" then '\'' else gaps[0][0];
    if |names| > 1 {
      QuotedBodyIsTight(names[1..], gaps[1..]);
      var rest := Join(QuotedItems(names[1..], gaps[1..]), ',');
      assert Join(QuotedItems(names, gaps), ',') == item + [','] + rest;
    }
  }

  lemma {:induction false} TrimItems(names: seq<string>, gaps: seq<string>, items: seq<string>)
    requires Writable(names, gaps) && |items| == |names|
    requires forall i :: 0 <= i < |names| ==> items[i] == gaps[i] + names[i]
    ensures FlatMap(TrimItem, items) == names
  {
    if names != [] {
      var n := |names| - 1;
      TrimItems(names[..n], gaps[..n], items[..n]);
      assert gaps[n] in gaps && names[n] in names;
      assert ' ' == SPACES[0] && Within(gaps[n], SPACES);
      assert Within("", SPACES);
      assert gaps[n] + names[n] + "" == items[n];
      TrimPadded(gaps[n], names[n], "", SPACES);
    }
  }

  /**
    Writing a list as ['a', 'b'] and reading it back gives the list, brackets inside the names
    included. The one list that does not survive is the single empty name written without space.
  */
  lemma NamepassRoundTrip(names: seq<string>, gaps: seq<string>)
    requires Writable(names, gaps)
    ensures var written := "[" + Join(QuotedItems(names, gaps), ',') + "]";
            NamepassList(CleanNamepass(written)) == if names == [""] && gaps == [""] then [] else names
  {
    var body := Join(QuotedItems(names, gaps), ',');
    var items := PlainItems(names, gaps);
    UnquoteItems(names, gaps);
    if names != [] {
      QuotedBodyIsTight(names, gaps);
    }
    BracketsTrimmed(body);
    if names != [] {
      forall p | p in items ensures ',' !in p {
        var i :| 0 <= i < |items| && items[i] == p;
        assert items[i] == gaps[i] + names[i];
        assert names[i] in names && gaps[i] in gaps;
      }
      SplitJoinAtoms(items, ',');
      TrimItems(names, gaps, items);
      EmptyJoin(items);
      assert items[0] == gaps[0] + names[0];
    }
  }

  lemma BracketsTrimmed(body: string)
    requires Tight(body, "[]")
    ensures Trim("[" + body + "]", "[]") == body
  {
    TrimPadded("[", body, "]", "[]");
  }

  lemma EmptyJoin(items: seq<string>)
    requires items != []
    ensures Join(items, ',') == "" <==> items == [""]
  {
  }

  /** The list as documented, without brackets and quotes. */
  function WrittenBare(names: seq<string>, gaps: seq<string>): string
    requires |gaps| == |names|
  {
    Join(PlainItems(names, gaps), ',')
  }

  /**
    Written bare, as in a, b, a list comes back exactly when the text is not empty and has no
    bracket at either end: brackets there are cut off, also when they belong to a pattern.
  */
  lemma BareNamepass(names: seq<string>, gaps: seq<string>)
    requires Writable(names, gaps) && names != []
    ensures NamepassList(CleanNamepass(WrittenBare(names, gaps))) == names <==>
      WrittenBare(names, gaps) != "" && Tight(WrittenBare(names, gaps), "[]")
  {
    var items, body := PlainItems(names, gaps), WrittenBare(names, gaps);
    UnquoteItems(names, gaps);
    ItemsAreAtoms(names, gaps);
    SplitJoinAtoms(items, ',');
    var l, r := TrimParts(body, "[]");
    var cut := Trim(body, "[]");
    NoQuoteInPart(l, cut, r, body);
    RemoveAbsent(cut, '\'');
    if Tight(body, "[]") {
      TrimShape(body, "[]");
      if body != "" {
        TrimItems(names, gaps, items);
      }
    } else {
      BracketsLost(names, gaps, l, cut, r);
    }
  }

  lemma ItemsAreAtoms(names: seq<string>, gaps: seq<string>)
    requires Writable(names, gaps) && names != []
    ensures PlainItems(names, gaps) != []
    ensures forall p :: p in PlainItems(names, gaps) ==> ',' !in p && '\'' !in p
    ensures '\'' !in WrittenBare(names, gaps)
  {
    var items := PlainItems(names, gaps);
    UnquoteItems(names, gaps);
    forall p | p in items ensures ',' !in p && '\'' !in p {
      var i :| 0 <= i < |items| && items[i] == p;
      assert items[i] == gaps[i] + names[i];
      assert names[i] in names && gaps[i] in gaps;
    }
    NoQuoteInJoin(items);
  }

  lemma {:induction false} NoQuoteInJoin(items: seq<string>)
    requires forall p :: p in items ==> '\'' !in p
    ensures '\'' !in Join(items, ',')
  {
    if |items| > 1 {
      NoQuoteInJoin(items[1..]);
    }
  }

  lemma NoQuoteInPart(l: string, cut: string, r: string, body: string)
    requires body == l + cut + r && '\'' !in body
    ensures '\'' !in cut
  {
    assert forall i :: 0 <= i < |cut| ==> cut[i] == body[|l| + i];
  }

  /** How many brackets a text has, and how many a list of texts. */
  function Brackets(s: string): nat {
    if s == "" then 0 else Brackets(s[..|s| - 1]) + if s[|s| - 1] in "[]" then 1 else 0
  }

  function AllBrackets(parts: seq<string>): nat {
    if parts == [] then 0 else AllBrackets(parts[..|parts| - 1]) + Brackets(parts[|parts| - 1])
  }

  lemma {:induction false} BracketsConcat(a: string, b: string)
    ensures Brackets(a + b) == Brackets(a) + Brackets(b)
  {
    if b == "" {
      assert a + b == a;
    } else {
      assert (a + b)[..|a + b| - 1] == a + b[..|b| - 1];
      BracketsConcat(a, b[..|b| - 1]);
    }
  }

  lemma {:induction false} AllBracketsConcat(a: seq<string>, b: seq<string>)
    ensures AllBrackets(a + b) == AllBrackets(a) + AllBrackets(b)
  {
    if b == [] {
      assert a + b == a;
    } else {
      assert (a + b)[..|a + b| - 1] == a + b[..|b| - 1];
      AllBracketsConcat(a, b[..|b| - 1]);
    }
  }

  lemma {:induction false} BracketsOfSplit(s: string)
    ensures AllBrackets(Split(s, ',')) == Brackets(s)
    decreases |s|
  {
    SplitStep(s, ',');
    var i := IndexOf(s, ',');
    hide Split, IndexOf;
    AllBracketsOne(s[..i]);
    if i < |s| {
      var rest := s[i + 1..];
      BracketsOfSplit(rest);
      AllBracketsConcat([s[..i]], Split(rest, ','));
      assert s == s[..i] + [','] + rest;
      BracketsConcat(s[..i] + [','], rest);
      BracketsConcat(s[..i], [',']);
      NoBracket([',']);
    } else {
      assert s[..i] == s;
    }
  }

  lemma AllBracketsOne(s: string)
    ensures AllBrackets([s]) == Brackets(s)
  {
    assert [s][..0] == [];
  }

  lemma {:induction false} NoBracket(s: string)
    requires forall i :: 0 <= i < |s| ==> s[i] !in "[]"
    ensures Brackets(s) == 0
  {
    if s != "" {
      NoBracket(s[..|s| - 1]);
    }
  }

  lemma {:induction false} OnlyBrackets(s: string)
    requires Within(s, "[]")
    ensures Brackets(s) == |s|
  {
    if s != "" {
      OnlyBrackets(s[..|s| - 1]);
    }
  }

  lemma {:induction false} TrimmingAddsNoBracket(items: seq<string>)
    ensures AllBrackets(FlatMap(TrimItem, items)) <= AllBrackets(items)
  {
    if items != [] {
      var front, last := items[..|items| - 1], items[|items| - 1];
      TrimmingAddsNoBracket(front);
      AllBracketsConcat(FlatMap(TrimItem, front), [TrimSpace(last)]);
      AllBracketsOne(TrimSpace(last));
      var l, r := TrimParts(last, SPACES);
      hide Trim;
      BracketsConcat(l + TrimSpace(last), r);
      BracketsConcat(l, TrimSpace(last));
    }
  }

  lemma {:induction false} GapsHaveNoBracket(names: seq<string>, gaps: seq<string>, items: seq<string>)
    requires |gaps| == |names| == |items| && forall g :: g in gaps ==> Blank(g)
    requires forall i :: 0 <= i < |names| ==> items[i] == gaps[i] + names[i]
    ensures AllBrackets(items) == AllBrackets(names)
  {
    if names != [] {
      var n := |names| - 1;
      GapsHaveNoBracket(names[..n], gaps[..n], items[..n]);
      assert gaps[n] in gaps;
      NoBracket(gaps[n]);
      BracketsConcat(gaps[n], names[n]);
    }
  }

  /** When brackets are cut off, fewer are left than the list has. */
  lemma BracketsLost(names: seq<string>, gaps: seq<string>, l: string, cut: string, r: string)
    requires Writable(names, gaps) && names != [] && WrittenBare(names, gaps) == l + cut + r
    requires Within(l, "[]") && Within(r, "[]") && l + r != ""
    ensures NamepassList(cut) != names
  {
    var items, body := PlainItems(names, gaps), WrittenBare(names, gaps);
    UnquoteItems(names, gaps);
    ItemsAreAtoms(names, gaps);
    SplitJoinAtoms(items, ',');
    GapsHaveNoBracket(names, gaps, items);
    BracketsOfSplit(body);
    BracketsConcat(l + cut, r);
    BracketsConcat(l, cut);
    OnlyBrackets(l);
    OnlyBrackets(r);
    assert AllBrackets(names) > Brackets(cut);
    BracketsOfSplit(cut);
    TrimmingAddsNoBracket(Split(cut, ','));
  }

  /** The list reaches the generated prometheus input unchanged. */
  lemma NamepassReachesInput(lib: Library, settings: Settings, classes: Classes, gates: Gates, a: Annotations,
                             names: seq<string>, gaps: seq<string>, c: TelegrafConfig)
    requires Writable(names, gaps) && !(names == [""] && gaps == [""])
    requires NAMEPASS in a && a[NAMEPASS] == "[" + Join(QuotedItems(names, gaps), ',') + "]"
    requires HasPorts(a) && Configure(lib, settings, classes, gates, a) == Ok(c)
    requires "prometheus" !in Blocks(lib, gates, a).inputs.GetOr(map[])
    ensures "prometheus" in c.inputs && c.inputs["prometheus"].Prometheus? &&
            |c.inputs["prometheus"].inputs| == 1 && c.inputs["prometheus"].inputs[0].namepass == names
  {
    hide Configure, Blocks, QuotedItems, Join, CleanNamepass, WithPrefix, Kept, PortTexts;
    ConfigureSucceeds(lib, settings, classes, gates, a);
    var file := lib.unmarshalClass(classes[ClassName(settings, a)]).value;
    InputPrecedence(lib, settings, classes, gates, a, c, file, "prometheus");
    NamepassRoundTrip(names, gaps);
  }
}
