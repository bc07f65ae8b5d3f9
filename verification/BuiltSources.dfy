/** The sources that a build leaves for the size limits, and what they do to the first
    write afterwards. */
module BuiltSources {
  import opened Values
  import opened Paths
  import opened Shape
  import opened ConfigKeys
  import opened KeySpelling
  import opened Coercion
  import opened Normalize
  import opened FixedPoints
  import opened Schema
  import opened AppConfigs
  import opened ConfigRuns
  import opened Layers
  import opened ConfigObject
  import ConfigEffects

  /** The source that layering recorded for a key, or a stand-in. */
  function Recorded(provenance: map<string, string>, k: Key, otherwise: string): string {
    if Name(k) in provenance then provenance[Name(k)] else otherwise
  }

  predicate SourceIs(sources: Sources, k: Key, source: string) {
    k in sources && sources[k] == source
  }

  predicate SameSource(a: Sources, b: Sources, k: Key) {
    (k in a <==> k in b) && (k in a ==> a[k] == b[k])
  }

  lemma RecordedIs(provenance: map<string, string>, k: Key, otherwise: string)
    requires Special(k)
    ensures SourceOr(KeyedSources(provenance), k, otherwise) == Recorded(provenance, k, otherwise)
  {
    hide Name, KeyedSources;
    KeyedSourceAt(provenance, k);
  }

  lemma KeyedSourceAt(provenance: map<string, string>, k: Key)
    requires Special(k)
    ensures k in KeyedSources(provenance) <==> Name(k) in provenance
    ensures k in KeyedSources(provenance) ==> KeyedSources(provenance)[k] == provenance[Name(k)]
  {
    hide Name, KeyOf;
    KeyOfName(k);
    if k in PathKeys(provenance) {
      var path :| path in provenance && KeyOf(path) == k;
      ConfigEffects.KeyOfSpelling(path);
    }
  }

  /** A given byte limit rules while the MB limit has its default source or cannot be read. */
  predicate LegacyRules(p: Platform, st: Stage) {
    && "full_output_max_bytes" in st.data && st.data["full_output_max_bytes"] != Null
    && (Recorded(st.provenance, FullOutputMb, "built-in defaults") == "built-in defaults"
        || CoerceMb(p, Get(Keyed(st.data), FullOutputMb)).None?)
  }

  lemma LegacyIs(p: Platform, st: Stage)
    ensures LegacyRules(p, st) <==> BytesRule(LimitsOf(p, Keyed(st.data)), MbSource(KeyedSources(st.provenance)))
  {
    hide Name, KeyOf, Keyed, KeyedSources, CoerceMb, PlainInt, MbOr;
    KeyedSourceAt(st.provenance, FullOutputMb);
    LegacyValue(st);
    assert Layers.DEFAULT_SOURCE == "built-in defaults";
  }

  lemma LegacyValue(st: Stage)
    ensures "full_output_max_bytes" in st.data ==> FullOutputBytes in Keyed(st.data) && Keyed(st.data)[FullOutputBytes] == st.data["full_output_max_bytes"]
    ensures "full_output_max_bytes" !in st.data ==> FullOutputBytes !in Keyed(st.data)
  {
    hide KeyOf;
    KeyOfName(FullOutputBytes);
    ConfigEffects.LegacyName();
    if FullOutputBytes in Keyed(st.data) {
      var name :| name in st.data && KeyOf(name) == FullOutputBytes;
      ConfigEffects.KeyOfSpelling(name);
    }
  }

  /** What a build records for the size limits: where the byte limit rules, its source for
      both; otherwise the MB limit keeps its own and the bytes share it. The preview bytes
      share the preview limit's. Nothing else changes. */
  lemma BuiltSizeSources(p: Platform, defaults: Data, st: Stage, built: State, j: Key)
    requires Built(p, defaults, st) == Some(built)
    ensures LegacyRules(p, st) && FullOutputKey(j) ==>
              SourceIs(built.sources, j, Recorded(st.provenance, FullOutputBytes, "legacy full_output_max_bytes"))
    ensures !LegacyRules(p, st) && j == FullOutputBytes ==>
              SourceIs(built.sources, j, Recorded(st.provenance, FullOutputMb, "derived from full_output_max_mb"))
    ensures j == PreviewBytes ==>
              SourceIs(built.sources, j, Recorded(st.provenance, PreviewMb, "derived from output_preview_max_mb"))
    ensures (j == FullOutputMb && !LegacyRules(p, st)) || (!FullOutputKey(j) && j != PreviewBytes) ==>
              SameSource(built.sources, KeyedSources(st.provenance), j)
  {
    hide Name, KeyOf, Keyed, KeyedSources, LimitsOf, Finish, Built, BytesRule, LegacyRules, MbSource, NormSources, SourceOr, Recorded;
    BuiltIs(p, defaults, st);
    LegacyIs(p, st);
    RecordedIs(st.provenance, FullOutputBytes, "legacy full_output_max_bytes");
    RecordedIs(st.provenance, FullOutputMb, "derived from full_output_max_mb");
    RecordedIs(st.provenance, PreviewMb, "derived from output_preview_max_mb");
    var l, sources := LimitsOf(p, Keyed(st.data)), KeyedSources(st.provenance);
    if FullOutputKey(j) { NormSourcesFull(l, sources, j); } else { NormSourcesRest(l, sources, j); }
  }

  lemma NormSourcesFull(l: Limits, sources: Sources, j: Key)
    requires FullOutputKey(j)
    ensures j == FullOutputBytes || BytesRule(l, MbSource(sources)) ==> j in NormSources(l, sources)
    ensures BytesRule(l, MbSource(sources)) ==>
              NormSources(l, sources)[j] == SourceOr(sources, FullOutputBytes, "legacy full_output_max_bytes")
    ensures !BytesRule(l, MbSource(sources)) && j == FullOutputBytes ==>
              NormSources(l, sources)[j] == SourceOr(sources, FullOutputMb, "derived from full_output_max_mb")
    ensures !BytesRule(l, MbSource(sources)) && j == FullOutputMb ==>
              && (j in NormSources(l, sources) <==> j in sources)
              && (j in NormSources(l, sources) ==> NormSources(l, sources)[j] == sources[j])
  {
    hide BytesRule, MbSource, SourceOr;
  }

  lemma NormSourcesRest(l: Limits, sources: Sources, j: Key)
    requires !FullOutputKey(j)
    ensures j == PreviewBytes ==>
              j in NormSources(l, sources) && NormSources(l, sources)[j] == SourceOr(sources, PreviewMb, "derived from output_preview_max_mb")
    ensures j != PreviewBytes ==>
              && (j in NormSources(l, sources) <==> j in sources)
              && (j in NormSources(l, sources) ==> NormSources(l, sources)[j] == sources[j])
  {
    hide BytesRule, MbSource;
  }

  // ------------------------------------------------------- from layers to the first write

  /** The layer that sets the legacy byte limit last, none setting the MB limit. */
  ghost predicate LegacyLayer(all: seq<Layer>, i: nat, v: Value, source: string) {
    && i < |all| && "full_output_max_bytes" in all[i].overlay && all[i].overlay["full_output_max_bytes"] == v
    && all[i].source == source
    && (forall j | i < j < |all| :: "full_output_max_bytes" !in all[j].overlay)
    && forall j | 0 <= j < |all| :: "full_output_max_mb" !in all[j].overlay
  }

  lemma TopAt(d: Data, key: string)
    ensures At(Dict(d), [key]) == if key in d then Some(d[key]) else None
  {
    if key in d { assert [key][1..] == [] && At(d[key], []) == Some(d[key]); }
  }

  /** A leaf at the top of the known tree. */
  lemma TopKnown(defaults: Data)
    requires GoodSchema(Keyed(defaults))
    ensures LeafAt(Known(defaults), ["full_output_max_bytes"]) && LeafAt(Known(defaults), ["full_output_max_mb"])
    ensures "full_output_max_mb" != "full_output_max_bytes" && JoinFrom("", ["full_output_max_mb"]) == "full_output_max_mb"
    ensures JoinFrom("", ["full_output_max_bytes"]) == "full_output_max_bytes"
  {
    hide KeyOf, Name, GoodSchema;
    ConfigEffects.MbName();
    TopAt(Known(defaults).m, "full_output_max_bytes");
    TopAt(Known(defaults).m, "full_output_max_mb");
    MbDefault(defaults);
    assert |"full_output_max_mb"| != |"full_output_max_bytes"|;
  }

  lemma MbDefault(defaults: Data)
    requires GoodSchema(Keyed(defaults))
    ensures "full_output_max_mb" in defaults && defaults["full_output_max_mb"] == Int(5)
  {
    hide KeyOf, Name, GoodSchema, Keyed;
    var c := Keyed(defaults);
    SchemaMb(c);
    KeyedName(defaults, FullOutputMb);
    ConfigEffects.MbName();
  }

  lemma SchemaMb(c: Config)
    requires GoodSchema(c)
    ensures FullOutputMb in c && c[FullOutputMb] == Int(5)
  {
    hide Complete;
    assert FullOutputMb in c by { MbComplete(c); }
    assert BuiltIn(FullOutputMb) == Int(5);
  }

  lemma MbComplete(c: Config)
    requires Complete(c)
    ensures FullOutputMb in c
  {
  }

  /** A resolved key was spelled by its name. */
  lemma KeyedName(data: Data, k: Key)
    requires k in Keyed(data)
    ensures Name(k) in data && Keyed(data)[k] == data[Name(k)]
  {
    hide KeyOf, Name;
    var name :| name in data && KeyOf(name) == k;
    ConfigEffects.KeyOfSpelling(name);
  }

  /** What layering then leaves: the legacy value with its layer's source, and the MB limit at its default. */
  lemma LegacyLayered(defaults: Data, layers: seq<Layer>, table: seq<EnvName>, environment: map<string, string>, i: nat, v: Value, source: string)
    requires GoodDefaults(defaults, table) && GoodSchema(Keyed(defaults)) && forall l | l in layers :: GoodLayer(l, defaults)
    requires LegacyLayer(layers + EnvLayers(table, environment), i, v, source)
    ensures var st := LayeredStage(defaults, layers, table, environment);
            && "full_output_max_bytes" in st.data && st.data["full_output_max_bytes"] == v
            && "full_output_max_bytes" in st.provenance && st.provenance["full_output_max_bytes"] == source
            && "full_output_max_mb" in st.data && st.data["full_output_max_mb"] == Int(5)
            && "full_output_max_mb" in st.provenance && st.provenance["full_output_max_mb"] == "built-in defaults"
  {
    hide GoodDefaults, GoodSchema, GoodLayer, ApplyLayers, EnvLayers, Known, AllowedPaths, LegacyLayer;
    var all := layers + EnvLayers(table, environment);
    var st := LayeredStage(defaults, layers, table, environment);
    LegacyMeans(all, i, v, source);
    TopKnown(defaults);
    MbDefault(defaults);
    forall j | 0 <= j < |all|
      ensures At(Dict(all[j].overlay), ["full_output_max_mb"]).None?
      ensures j > i ==> At(Dict(all[j].overlay), ["full_output_max_bytes"]).None?
    {
      TopAt(all[j].overlay, "full_output_max_mb");
      TopAt(all[j].overlay, "full_output_max_bytes");
    }
    TopAt(all[i].overlay, "full_output_max_bytes");
    LayeredLastWriter(defaults, table, layers, environment, ["full_output_max_bytes"], i);
    LayeredDefaultStands(defaults, table, layers, environment, ["full_output_max_mb"]);
    assert ["full_output_max_mb"] != [LEGACY_BYTES] by { assert ["full_output_max_mb"][0] != [LEGACY_BYTES][0]; }
    TopAt(st.data, "full_output_max_bytes");
    TopAt(st.data, "full_output_max_mb");
    TopAt(defaults, "full_output_max_mb");
  }

  lemma LegacyMeans(all: seq<Layer>, i: nat, v: Value, source: string)
    requires LegacyLayer(all, i, v, source)
    ensures i < |all| && "full_output_max_bytes" in all[i].overlay && all[i].overlay["full_output_max_bytes"] == v && all[i].source == source
    ensures (forall j | i < j < |all| :: "full_output_max_bytes" !in all[j].overlay)
    ensures forall j | 0 <= j < |all| :: "full_output_max_mb" !in all[j].overlay
  {
  }

  /** A build from such layers marks both limits with the layer's source, and keeps the bytes. */
  lemma LegacyBuilt(p: Platform, defaults: Data, layers: seq<Layer>, table: seq<EnvName>, environment: map<string, string>,
                    i: nat, legacy: Value, n: int, source: string, built: State)
    requires GoodDefaults(defaults, table) && GoodSchema(Keyed(defaults)) && forall l | l in layers :: GoodLayer(l, defaults)
    requires LegacyLayer(layers + EnvLayers(table, environment), i, legacy, source) && BytesOf(p, legacy) == Some(n)
    requires Built(p, defaults, LayeredStage(defaults, layers, table, environment)) == Some(built)
    ensures SourceIs(built.sources, FullOutputMb, source) && SourceIs(built.sources, FullOutputBytes, source)
    ensures SizesOk(built.model) && built.model[FullOutputBytes] == Int(n)
  {
    hide GoodDefaults, GoodSchema, GoodLayer, EnvLayers, LegacyLayer, Built, LayeredStage, Keyed, NormAt, KeyedSources, Name, LegacyRules;
    var st := LayeredStage(defaults, layers, table, environment);
    LegacyMeans(layers + EnvLayers(table, environment), i, legacy, source);
    LegacyLayered(defaults, layers, table, environment, i, legacy, source);
    StageKeeps(defaults, layers, table, environment);
    ConfigEffects.MbName();
    ConfigEffects.LegacyName();
    assert LegacyRules(p, st) by { LegacyApplies(p, st); }
    LegacyValue(st);
    BuiltSizeSources(p, defaults, st, built, FullOutputMb);
    BuiltSizeSources(p, defaults, st, built, FullOutputBytes);
    BuiltGood(p, defaults, st);
    GoodSizes(p, Keyed(defaults), built.model);
    LegacyBytes(p, defaults, st, built, legacy, n);
  }

  lemma StageKeeps(defaults: Data, layers: seq<Layer>, table: seq<EnvName>, environment: map<string, string>)
    ensures defaults.Keys <= LayeredStage(defaults, layers, table, environment).data.Keys
  {
    hide ApplyLayers, EnvLayers;
    LayersKeepKeys(InitialStage(defaults), layers + EnvLayers(table, environment), AllowedPaths(defaults));
  }

  lemma LegacyApplies(p: Platform, st: Stage)
    requires "full_output_max_bytes" in st.data && st.data["full_output_max_bytes"] != Null
    requires "full_output_max_mb" in st.provenance && st.provenance["full_output_max_mb"] == "built-in defaults"
    ensures LegacyRules(p, st)
  {
    hide Keyed, CoerceMb, Name;
    ConfigEffects.MbName();
  }

  lemma LegacyBytes(p: Platform, defaults: Data, st: Stage, built: State, legacy: Value, n: int)
    requires GoodSchema(Keyed(defaults)) && defaults.Keys <= st.data.Keys && Built(p, defaults, st) == Some(built)
    requires LegacyRules(p, st) && Get(Keyed(st.data), FullOutputBytes) == legacy && BytesOf(p, legacy) == Some(n)
    ensures FullOutputBytes in built.model && built.model[FullOutputBytes] == Int(n)
  {
    hide GoodSchema, Built, Keyed, KeyedSources, CoerceMb, MbOr, MbSource, Name, PlainInt;
    LegacyIs(p, st);
    LegacyValue(st);
    ConfigEffects.BuiltAt(p, defaults, st, built, FullOutputBytes);
  }

  /** The first accepted write of any other key then rounds the bytes up to whole MiB. */
  lemma LegacyThenRounds(p: Platform, defaults: Data, layers: seq<Layer>, table: seq<EnvName>, environment: map<string, string>,
                         i: nat, legacy: Value, n: int, source: string, built: State, k: Key, v: Value, next: Config)
    requires GoodDefaults(defaults, table) && GoodSchema(Keyed(defaults)) && forall l | l in layers :: GoodLayer(l, defaults)
    requires LegacyLayer(layers + EnvLayers(table, environment), i, legacy, source) && BytesOf(p, legacy) == Some(n)
    requires source != "built-in defaults"
    requires Built(p, defaults, LayeredStage(defaults, layers, table, environment)) == Some(built)
    requires !FullOutputKey(k) && Commits(p, Keyed(defaults), built, Set(k, v)) == Some(next)
    ensures FullOutputBytes in next && next[FullOutputBytes] == Int((n + 1048575) / 1048576 * 1048576)
  {
    hide GoodDefaults, GoodSchema, GoodModel, GoodLayer, EnvLayers, LegacyLayer, Built, LayeredStage, Keyed, Commits;
    LegacyBuilt(p, defaults, layers, table, environment, i, legacy, n, source, built);
    StageKeeps(defaults, layers, table, environment);
    BuiltGood(p, defaults, LayeredStage(defaults, layers, table, environment));
    WriteRoundsBytes(p, Keyed(defaults), built, k, v, next);
  }
}
