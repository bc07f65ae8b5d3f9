/** What a build and each operation on the configuration leave, key by key and path by
    path: the stored values, the defaults that come back, and the recorded sources. */
module ConfigEffects {
  import opened Values
  import opened Text
  import opened Paths
  import opened ConfigKeys
  import opened KeySpelling
  import opened Coercion
  import opened Normalize
  import opened FixedPoints
  import opened KeyMeanings
  import opened Schema
  import opened AppConfigs
  import opened ConfigRuns
  import opened Layers
  import opened ConfigObject

  // -------------------------------------------------------------- written values

  /** A key that depends on no other holds, after an accepted write, what its coercer makes of the value. */
  lemma WrittenAlone(p: Platform, defaults: Config, s: State, k: Key, v: Value, next: Config)
    requires GoodSchema(defaults) && GoodModel(p, defaults, s.model) && (Alone(k) || k == DomainSuffixes)
    requires Commits(p, defaults, s, Set(k, v)) == Some(next)
    ensures k in next && next[k] == NormValue(p, k, v)
  {
    hide GoodSchema, GoodModel, Commits, NormAt, NormValue, NewSources, MbSource;
    WriteSets(p, defaults, s, k, v, next);
    NormAtPlain(p, s.model[k := v], MbSource(NewSources(s, Set(k, v))), k);
  }

  lemma DefaultIs(defaults: Config, k: Key)
    requires GoodSchema(defaults) && Special(k) && k in defaults
    ensures defaults[k] == BuiltIn(k)
  {
  }

  lemma FlagIsAlone(b: BoolKey)
    ensures Special(Flag(b)) && Alone(Flag(b))
  {
  }

  lemma FlagHasDefault(defaults: Config, b: BoolKey)
    requires GoodSchema(defaults)
    ensures Flag(b) in defaults
  {
  }

  /** What text a flag is set with decides it: four words on, four off, the default otherwise. */
  lemma FlagWritten(p: Platform, defaults: Config, s: State, b: BoolKey, t: string, next: Config)
    requires GoodSchema(defaults) && GoodModel(p, defaults, s.model)
    requires Commits(p, defaults, s, Set(Flag(b), Str(t))) == Some(next)
    ensures Flag(b) in next && Flag(b) in defaults
    ensures Lower(Strip(t)) in {"1", "true", "yes", "on"} ==> next[Flag(b)] == Bool(true)
    ensures Lower(Strip(t)) in {"0", "false", "no", "off"} ==> next[Flag(b)] == Bool(false)
    ensures Lower(Strip(t)) !in {"1", "true", "yes", "on", "0", "false", "no", "off"} ==> next[Flag(b)] == defaults[Flag(b)]
  {
    hide *;
    FlagIsAlone(b);
    FlagHasDefault(defaults, b);
    DefaultIs(defaults, Flag(b));
    WrittenAlone(p, defaults, s, Flag(b), Str(t), next);
    FlagMeans(p, b, t);
  }

  /** A forgiving integer is raised to its minimum; the export limit is capped as well. */
  lemma CountWritten(p: Platform, defaults: Config, s: State, i: IntKey, n: int, next: Config)
    requires GoodSchema(defaults) && GoodModel(p, defaults, s.model)
    requires Commits(p, defaults, s, Set(Count(i), Int(n))) == Some(next)
    ensures Count(i) in next && Count(PoolMin) in s.model && s.model[Count(PoolMin)].Int?
    ensures i != PoolMax && i != AuditExportMaxRows ==> next[Count(i)] == Int(Max(IntRule(i).1, n))
    ensures i == AuditExportMaxRows ==> next[Count(i)] == Int(if n < 1 then 1 else if n > 200000 then 200000 else n)
    ensures i == PoolMax ==> next[Count(i)] == Int(Max(Max(1, n), s.model[Count(PoolMin)].i))
  {
    hide GoodSchema, GoodModel, Commits, NewSources, MbSource;
    PoolMinStored(p, defaults, s.model);
    WriteSets(p, defaults, s, Count(i), Int(n), next);
  }

  lemma PoolMinStored(p: Platform, defaults: Config, m: Config)
    requires GoodModel(p, defaults, m)
    ensures Count(PoolMin) in m && m[Count(PoolMin)].Int? && m[Count(PoolMin)].i >= 0
  {
    assert NumberOk(m, PoolMin);
  }

  // ----------------------------------------------------------------- built values

  /** A build leaves every treated key in the normal form of what layering left. */
  lemma BuiltAt(p: Platform, defaults: Data, st: Stage, built: State, k: Key)
    requires GoodSchema(Keyed(defaults)) && defaults.Keys <= st.data.Keys && Built(p, defaults, st) == Some(built)
    requires Special(k) && k in Keyed(st.data)
    ensures k in built.model && built.model[k] == NormAt(p, Keyed(st.data), MbSource(KeyedSources(st.provenance)), k)
  {
    hide *;
    GoodSchemaComplete(Keyed(defaults));
    StageComplete(defaults, st);
    BuiltIs(p, defaults, st);
    FinishGood(p, Keyed(defaults), Keyed(st.data), MbSource(KeyedSources(st.provenance)));
    NormalizedAt(p, Keyed(st.data), MbSource(KeyedSources(st.provenance)), k);
  }

  lemma NormalizedAt(p: Platform, c: Config, src: string, k: Key)
    requires k in c
    ensures k in Normalized(p, c, src) && Normalized(p, c, src)[k] == NormAt(p, c, src, k)
  {
  }

  /** The stage after the first `n` environment names. */
  function EnvStage(start: Stage, table: seq<EnvName>, environment: map<string, string>, allowed: set<string>, n: nat): Stage
    requires n <= |table|
  {
    ApplyLayers(start, EnvLayers(table[..n], environment), allowed)
  }

  lemma EnvStageStep(start: Stage, table: seq<EnvName>, environment: map<string, string>, allowed: set<string>, n: nat)
    requires n < |table| && table[n].key in allowed
    ensures var st, raw := EnvStage(start, table, environment, allowed, n), RawEnv(environment, table[n].name);
            EnvStage(start, table, environment, allowed, n + 1)
            == if raw == "" then st else Stage(st.data[table[n].key := EnvValue(table[n].key, raw)], st.provenance[table[n].key := table[n].name])
  {
    hide ApplyLayers, EnvLayers, RawEnv, ApplyLayer;
    var e, raw := table[n], RawEnv(environment, table[n].name);
    EnvStep(table, environment, n);
    if raw != "" {
      var before := EnvLayers(table[..n], environment);
      ApplyOne(start, before, Layer(e.name, map[e.key := EnvValue(e.key, raw)]), allowed);
      SetIsLayer(ApplyLayers(start, before, allowed), e.name, e.key, EnvValue(e.key, raw), allowed);
    }
  }

  /** Where the environment names a key last, its value and its source stand, whatever the layers hold. */
  lemma {:induction false} EnvironmentWins(start: Stage, table: seq<EnvName>, environment: map<string, string>, allowed: set<string>, n: nat, i: nat)
    requires i < n <= |table| && RawEnv(environment, table[i].name) != ""
    requires forall j | 0 <= j < |table| :: table[j].key in allowed
    requires forall j | i < j < n :: table[j].key == table[i].key ==> RawEnv(environment, table[j].name) == ""
    ensures var st := EnvStage(start, table, environment, allowed, n);
            && table[i].key in st.data && st.data[table[i].key] == EnvValue(table[i].key, RawEnv(environment, table[i].name))
            && table[i].key in st.provenance && st.provenance[table[i].key] == table[i].name
    decreases n
  {
    hide *;
    EnvStageStep(start, table, environment, allowed, n - 1);
    if i < n - 1 { EnvironmentWins(start, table, environment, allowed, n - 1, i); }
  }

  /** An environment text is taken trimmed; for the two lists of networks it is cut at the commas. */
  lemma EnvMeans(k: Key, raw: string)
    requires Special(k)
    ensures !k.Cidrs? ==> EnvValue(Name(k), raw) == Str(raw)
    ensures k.Cidrs? ==> EnvValue(Name(k), raw).List?
    ensures k.Cidrs? ==> forall xs :: ItemsFor(xs, ',') && raw == Join(xs, ',') ==> EnvValue(Name(k), raw) == StrList(xs)
  {
    hide Name, Split, Join, Clean, StrList, CSV_KEYS;
    CsvNames();
    if Name(k) == Name(Cidrs(AiBaseUrl)) { NamesDiffer(k, Cidrs(AiBaseUrl)); }
    if Name(k) == Name(Cidrs(RestrictedInput)) { NamesDiffer(k, Cidrs(RestrictedInput)); }
    if k.Cidrs? {
      match k.cidr { case AiBaseUrl => case RestrictedInput => }
      assert Name(k) in CSV_KEYS;
      forall xs | ItemsFor(xs, ',') && raw == Join(xs, ',') ensures EnvValue(Name(k), raw) == StrList(xs) {
        CsvItems(Name(k), xs);
      }
    }
  }

  lemma CsvItems(key: string, xs: seq<string>)
    requires key in CSV_KEYS && ItemsFor(xs, ',')
    ensures EnvValue(key, Join(xs, ',')) == StrList(xs)
  {
    hide Split, Join, Clean, CSV_KEYS;
    SplitJoin(xs, ',');
    CleanFixed(xs);
  }

  lemma KeyOfSpelling(name: string)
    ensures Name(KeyOf(name)) == name
  {
  }

  lemma LegacyName()
    ensures Name(FullOutputBytes) == "full_output_max_bytes" == LEGACY_BYTES
  {
    hide *;
    SizeNames();
    SizeTexts();
    SameLegacy();
  }

  lemma SameLegacy()
    ensures LEGACY_BYTES == "full_output_max_bytes"
  {
    hide Name;
  }

  lemma MbName()
    ensures Name(FullOutputMb) == "full_output_max_mb"
  {
    hide *;
    SizeNames();
    SizeTexts();
  }

  lemma CsvNames()
    ensures Name(Cidrs(RestrictedInput)) in CSV_KEYS && Name(Cidrs(AiBaseUrl)) in CSV_KEYS
    ensures forall x :: x in CSV_KEYS ==> x == Name(Cidrs(RestrictedInput)) || x == Name(Cidrs(AiBaseUrl))
  {
    hide CountName, FlagName, SettingName, ItemsName, DurationName, FULL_OUTPUT_MB, FULL_OUTPUT_BYTES, PREVIEW_MB, PREVIEW_BYTES;
  }

  /** The name that sets a key last, and its text. */
  ghost predicate SetsLast(table: seq<EnvName>, environment: map<string, string>, i: nat, k: Key, t: string) {
    && i < |table| && table[i].key == Name(k) && table[i].name in environment && environment[table[i].name] == t && Strip(t) != ""
    && forall j | i < j < |table| :: table[j].key == table[i].key ==> RawEnv(environment, table[j].name) == ""
  }

  lemma LayeredHas(defaults: Data, layers: seq<Layer>, table: seq<EnvName>, environment: map<string, string>, i: nat, k: Key, t: string)
    requires GoodDefaults(defaults, table) && Special(k) && SetsLast(table, environment, i, k, t)
    ensures var st := LayeredStage(defaults, layers, table, environment);
            && defaults.Keys <= st.data.Keys && k in Keyed(st.data) && Keyed(st.data)[k] == EnvValue(Name(k), Strip(t))
            && Name(k) in st.provenance && st.provenance[Name(k)] == table[i].name
  {
    hide Name, KeyOf, ApplyLayers, EnvLayers, AllowedPaths, EnvValue, GoodDefaults, Strip;
    var allowed := AllowedPaths(defaults);
    EnvAllowed(defaults, table);
    ApplyAppend(InitialStage(defaults), layers, EnvLayers(table, environment), allowed);
    EnvironmentWins(ApplyLayers(InitialStage(defaults), layers, allowed), table, environment, allowed, |table|, i);
    assert table[..|table|] == table;
    LayersKeepKeys(InitialStage(defaults), layers + EnvLayers(table, environment), allowed);
    KeyOfName(k);
  }

  lemma EnvAllowed(defaults: Data, table: seq<EnvName>)
    requires GoodDefaults(defaults, table)
    ensures forall e | e in table :: e.key in AllowedPaths(defaults)
  {
    forall e | e in table ensures e.key in AllowedPaths(defaults) {
      assert At(defaults[e.key], []).Some? && At(Dict(defaults), [e.key]).Some?;
      FlattenContains(Dict(defaults), "", [e.key]);
    }
  }

  /** A flag set in the environment follows the same words in the built configuration. */
  lemma FlagBuilt(p: Platform, defaults: Data, layers: seq<Layer>, table: seq<EnvName>, environment: map<string, string>,
                  i: nat, b: BoolKey, t: string, built: State)
    requires GoodDefaults(defaults, table) && GoodSchema(Keyed(defaults)) && SetsLast(table, environment, i, Flag(b), t)
    requires Built(p, defaults, LayeredStage(defaults, layers, table, environment)) == Some(built)
    ensures Flag(b) in built.model && Flag(b) in Keyed(defaults)
    ensures Lower(Strip(t)) in {"1", "true", "yes", "on"} ==> built.model[Flag(b)] == Bool(true)
    ensures Lower(Strip(t)) in {"0", "false", "no", "off"} ==> built.model[Flag(b)] == Bool(false)
    ensures Lower(Strip(t)) !in {"1", "true", "yes", "on", "0", "false", "no", "off"} ==>
              built.model[Flag(b)] == Keyed(defaults)[Flag(b)]
  {
    hide GoodDefaults, GoodSchema, Built, Keyed, LayeredStage, Name, NormAt, NormValue, BuiltIn, Lower, Strip, SetsLast, KeyedSources, MbSource;
    var st := LayeredStage(defaults, layers, table, environment);
    LayeredHas(defaults, layers, table, environment, i, Flag(b), t);
    BuiltAt(p, defaults, st, built, Flag(b));
    NormAtPlain(p, Keyed(st.data), MbSource(KeyedSources(st.provenance)), Flag(b));
    EnvMeans(Flag(b), Strip(t));
    FlagHasDefault(Keyed(defaults), b);
    DefaultIs(Keyed(defaults), Flag(b));
    StripIdempotent(t);
    FlagMeans(p, b, Strip(t));
  }
}
