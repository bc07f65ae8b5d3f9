/** `build_config` and the `AppConfig` object. */
module ConfigObject {
  import opened Values
  import opened Text
  import opened Paths
  import opened Overlay
  import opened ConfigKeys
  import opened Coercion
  import opened Normalize
  import opened FixedPoints
  import opened Schema
  import opened AppConfigs
  import opened Layers

  // ------------------------------------------------------------------------ build

  /** The provenance mapping with its paths resolved. */
  function KeyedSources(provenance: map<string, string>): Sources {
    map k | k in PathKeys(provenance) :: provenance[Name(k)]
  }

  function PathKeys(provenance: map<string, string>): set<Key> {
    set path | path in provenance :: KeyOf(path)
  }

  function LayeredStage(defaults: Data, layers: seq<Layer>, table: seq<EnvName>, environment: map<string, string>): Stage {
    ApplyLayers(InitialStage(defaults), layers + EnvLayers(table, environment), AllowedPaths(defaults))
  }

  /** What a build returns, if it succeeds. */
  ghost function Built(p: Platform, defaults: Data, st: Stage): Option<State> {
    var c, sources := Keyed(st.data), KeyedSources(st.provenance);
    match Finish(p, Keyed(defaults), c, MbSource(sources))
    case Some(model) => Some(State(model, NormSources(LimitsOf(p, c), sources)))
    case None => None
  }

  lemma {:induction false} LayersKeepKeys(st: Stage, layers: seq<Layer>, allowed: set<string>)
    ensures st.data.Keys <= ApplyLayers(st, layers, allowed).data.Keys
    decreases |layers|
  {
    if layers != [] { LayersKeepKeys(st, layers[..|layers| - 1], allowed); }
  }

  lemma KeyedGrows(d: Data, d': Data)
    requires d.Keys <= d'.Keys
    ensures Keyed(d).Keys <= Keyed(d').Keys
  {
    forall k | k in Keyed(d) ensures k in Keyed(d') {
      var name :| name in d && KeyOf(name) == k;
      assert name in d';
    }
  }

  lemma CompleteGrows(c: Config, c': Config)
    requires Complete(c) && c.Keys <= c'.Keys
    ensures Complete(c')
  {
  }

  lemma StageComplete(defaults: Data, st: Stage)
    requires Complete(Keyed(defaults)) && defaults.Keys <= st.data.Keys
    ensures Complete(Keyed(st.data))
  {
    KeyedGrows(defaults, st.data);
    CompleteGrows(Keyed(defaults), Keyed(st.data));
  }

  lemma BuiltIs(p: Platform, defaults: Data, st: Stage)
    ensures var sources := KeyedSources(st.provenance);
            var model := Finish(p, Keyed(defaults), Keyed(st.data), MbSource(sources));
            Built(p, defaults, st) == if model.None? then None
                                      else Some(State(model.value, NormSources(LimitsOf(p, Keyed(st.data)), sources)))
  {
  }

  lemma GoodSchemaComplete(schema: Config)
    requires GoodSchema(schema)
    ensures Complete(schema)
  {
  }

  lemma FinishedGood(p: Platform, schema: Config, c: Config, src: string)
    requires GoodSchema(schema) && Complete(c)
    ensures Finish(p, schema, c, src).Some? ==> GoodModel(p, schema, Finish(p, schema, c, src).value)
  {
    if Finish(p, schema, c, src).Some? { FinishGood(p, schema, c, src); }
  }

  /** Every successful build starts from a good model. */
  lemma BuiltGood(p: Platform, defaults: Data, st: Stage)
    requires GoodSchema(Keyed(defaults)) && defaults.Keys <= st.data.Keys && Built(p, defaults, st).Some?
    ensures GoodModel(p, Keyed(defaults), Built(p, defaults, st).value.model)
  {
    hide *;
    GoodSchemaComplete(Keyed(defaults));
    StageComplete(defaults, st);
    BuiltIs(p, defaults, st);
    FinishedGood(p, Keyed(defaults), Keyed(st.data), MbSource(KeyedSources(st.provenance)));
  }

  /** The reachable-state invariant from the ground up: whatever layers and
      environment a build starts from, and whatever operations follow. */
  lemma BuildThenRunGood(p: Platform, defaults: Data, layers: seq<Layer>, table: seq<EnvName>,
                         environment: map<string, string>, ops: seq<Op>)
    requires GoodSchema(Keyed(defaults))
    requires Built(p, defaults, LayeredStage(defaults, layers, table, environment)).Some?
    ensures var start := Built(p, defaults, LayeredStage(defaults, layers, table, environment)).value;
            GoodModel(p, Keyed(defaults), Run(p, Keyed(defaults), start, ops).model)
  {
    var st := LayeredStage(defaults, layers, table, environment);
    LayersKeepKeys(InitialStage(defaults), layers + EnvLayers(table, environment), AllowedPaths(defaults));
    BuiltGood(p, defaults, st);
    ReachableGood(p, Keyed(defaults), Built(p, defaults, st).value, ops);
  }

  /** What that says of every reachable configuration, outright. */
  ghost predicate Sane(defaults: Config, m: Config) {
    && m.Keys == SchemaKeys(defaults) && Complete(m)
    && (forall t :: m[Duration(t)].Int?)
    && 1 <= m[Duration(IdleMinutes)].i <= 1440 && 1 <= m[Duration(AbsoluteHours)].i <= 8760
    && 5 <= m[Duration(ReauthMinutes)].i <= 60
    && m[Duration(IdleMinutes)].i * 60 <= m[Duration(AbsoluteHours)].i * 3600
    && (forall i :: m[Count(i)].Int?)
    && m[Count(PoolMax)].i >= Max(1, m[Count(PoolMin)].i) && 1 <= m[Count(AuditExportMaxRows)].i <= 200000
    && (forall l :: m[OidcItems(l)].List? && AllStr(m[OidcItems(l)].items) && Distinct(Texts(m[OidcItems(l)].items)))
    && "openid" in Texts(m[OidcItems(Scopes)].items)
    && (m[OidcItems(AllowedSubjects)].items != [] <==> m[OidcProvisioning] == Str("allowlist"))
    && (TextAt(m, AccessProfile) in {"oidc_required", "mixed"} ==>
          && TextAt(m, Oidc(Issuer)) != "" && TextAt(m, Oidc(ClientId)) != ""
          && TextAt(m, Oidc(ClientSecret)) != "" && TextAt(m, Oidc(RedirectUri)) != "")
    && (CredentialSignIn(m) || OidcSignIn(m))
    && SizesOk(m)
    && m[PreviewBytes].i == m[PreviewMb].i * 1048576
    && (m[FullOutputMb].i - 1) * 1048576 < m[FullOutputBytes].i <= m[FullOutputMb].i * 1048576
  }

  lemma GoodIsSane(p: Platform, defaults: Config, m: Config)
    requires GoodModel(p, defaults, m)
    ensures Sane(defaults, m)
  {
    hide Accepted, AccessOf, NormValue, SuffixesOk, CredentialSignIn, OidcSignIn, TextAt, Texts, AllStr;
    DurationsHold(p, m);
    NumbersHold(p, m);
    forall i ensures m[Count(i)].Int? { assert NumberOk(m, i); }
    forall l ensures m[OidcItems(l)].List? && AllStr(m[OidcItems(l)].items) && Distinct(Texts(m[OidcItems(l)].items)) {
      ItemsDistinct(p, m, l);
    }
    ListsHold(p, m);
    SomeSignIn(p, m);
    assert DurationBounds(IdleMinutes) == (1, 1440) && DurationBounds(AbsoluteHours) == (1, 8760) && DurationBounds(ReauthMinutes) == (5, 60);
    CeilBounds(m[FullOutputBytes].i);
  }

  lemma ReachableSane(p: Platform, defaults: Data, layers: seq<Layer>, table: seq<EnvName>,
                      environment: map<string, string>, ops: seq<Op>)
    requires GoodSchema(Keyed(defaults))
    requires Built(p, defaults, LayeredStage(defaults, layers, table, environment)).Some?
    ensures var start := Built(p, defaults, LayeredStage(defaults, layers, table, environment)).value;
            Sane(Keyed(defaults), Run(p, Keyed(defaults), start, ops).model)
  {
    hide *;
    BuildThenRunGood(p, defaults, layers, table, environment, ops);
    var start := Built(p, defaults, LayeredStage(defaults, layers, table, environment)).value;
    GoodIsSane(p, Keyed(defaults), Run(p, Keyed(defaults), start, ops).model);
  }

  lemma FinishIs(p: Platform, schema: Config, c: Config, src: string)
    ensures Finish(p, schema, c, src) ==
            if Accepted(p, AccessOf(p, c)) && NoneEscapes(p, c) then Validated(p, schema, Normalized(p, c, src)) else None
  {
  }

  // ------------------------------------------------------------ clearing is building

  /** Without a byte limit the source of the MB limit does not matter. */
  lemma SourceIrrelevant(p: Platform, c: Config, a: string, b: string)
    requires FullOutputBytes !in c
    ensures Normalized(p, c, a) == Normalized(p, c, b)
  {
    assert LimitsOf(p, c).bytes.None?;
    forall k | k in Normalized(p, c, a) ensures NormAt(p, c, a, k) == NormAt(p, c, b, k) {
      if SizeKey(k) { SizeAt(p, c, a, k); SizeAt(p, c, b, k); }
    }
  }

  lemma {:induction false} NoEnvironment(table: seq<EnvName>)
    ensures EnvLayers(table, map[]) == []
    decreases |table|
  {
    if table != [] { NoEnvironment(table[..|table| - 1]); }
  }

  lemma CandidateOfNothing(defaults: Config)
    ensures Candidate(defaults, map[]) == defaults
  {
  }

  lemma ClearCommits(p: Platform, schema: Config, s: State)
    ensures Commits(p, schema, s, Clear) == Finish(p, schema, schema, MbSource(s.sources))
  {
    CandidateOfNothing(schema);
  }

  lemma FinishAnySource(p: Platform, schema: Config, c: Config, a: string, b: string)
    requires FullOutputBytes !in c
    ensures Finish(p, schema, c, a) == Finish(p, schema, c, b)
  {
    SourceIrrelevant(p, c, a, b);
  }

  lemma PlainStage(defaults: Data, table: seq<EnvName>)
    ensures LayeredStage(defaults, [], table, map[]) == InitialStage(defaults)
    ensures InitialStage(defaults).data == defaults
  {
    NoEnvironment(table);
    assert [] + EnvLayers(table, map[]) == [];
  }

  /** `clear()` commits exactly what a build with no layers and no environment
      returns, and is refused exactly when that build is. */
  lemma ClearIsBuild(p: Platform, defaults: Data, table: seq<EnvName>, s: State)
    requires GoodSchema(Keyed(defaults))
    ensures var plain := Built(p, defaults, LayeredStage(defaults, [], table, map[]));
            Commits(p, Keyed(defaults), s, Clear) == if plain.Some? then Some(plain.value.model) else None
  {
    hide *;
    var st := InitialStage(defaults);
    PlainStage(defaults, table);
    ClearCommits(p, Keyed(defaults), s);
    NoBytes(Keyed(defaults));
    FinishAnySource(p, Keyed(defaults), Keyed(defaults), MbSource(s.sources), MbSource(KeyedSources(st.provenance)));
    BuiltIs(p, defaults, st);
  }

  lemma NoBytes(defaults: Config)
    requires GoodSchema(defaults)
    ensures FullOutputBytes !in defaults
  {
    assert BuiltIn(FullOutputBytes) == Null;
  }

  // ------------------------------------------------------------------- the object

  /** An operation whose attempt is known: what it commits and where it leads. */
  lemma Committed(p: Platform, defaults: Config, s: State, op: Op, data: Config, recorded: Sources, parsed: Option<Config>)
    requires GoodSchema(defaults)
    requires Proposal(s, op) == Some(data) && recorded == NewSources(s, op)
    requires parsed == Attempt(p, defaults, data, MbSource(recorded))
    ensures Commits(p, defaults, s, op) == parsed
    ensures Step(p, defaults, s, op) == if parsed.Some? then State(parsed.value, recorded) else s
    ensures parsed.Some? ==> GoodModel(p, defaults, parsed.value)
  {
    if parsed.Some? { AttemptGood(p, defaults, data, MbSource(recorded)); }
  }

  class AppConfig {
    const platform: Platform
    const defaults: Config
    var model: Config
    var sources: Sources

    ghost predicate Valid()
      reads this
    {
      GoodSchema(defaults) && GoodModel(platform, defaults, model)
    }

    ghost function Contents(): State
      reads this
    {
      State(model, sources)
    }

    constructor (platform: Platform, defaults: Config, model: Config, sources: Sources)
      requires GoodSchema(defaults) && GoodModel(platform, defaults, model)
      ensures Valid() && this.platform == platform && this.defaults == defaults
      ensures Contents() == State(model, sources)
    {
      this.platform, this.defaults, this.model, this.sources := platform, defaults, model, sources;
    }

    /** `_validate_candidate`: merge over the defaults, normalize, validate. The
        provenance that normalization computes is dropped. */
    method ValidateCandidate(data: Config, active: Sources) returns (parsed: Option<Config>)
      requires GoodSchema(defaults)
      ensures parsed == Attempt(platform, defaults, data, MbSource(active))
    {
      var candidate := Candidate(defaults, data);
      CandidateComplete(defaults, data);
      var outcome, _ := NormalizeConfigData(platform, candidate, active);
      if outcome.Stopped? { return None; }
      return Validated(platform, defaults, outcome.value);
    }

    /** `cfg[key] = value` */
    method SetItem(key: Key, value: Value) returns (ok: bool)
      requires Valid()
      modifies this
      ensures Valid() && Contents() == Step(platform, defaults, old(Contents()), Set(key, value))
      ensures ok <==> Commits(platform, defaults, old(Contents()), Set(key, value)).Some?
      ensures !ok ==> Contents() == old(Contents())
    {
      hide GoodModel, GoodSchema, Attempt, Stamped, Laid;
      var recorded := sources + Stamped(map[key := value], RUNTIME_SOURCE);
      var data := model[key := value];
      var parsed := ValidateCandidate(data, recorded);
      Committed(platform, defaults, Contents(), Set(key, value), data, recorded, parsed);
      ok := parsed.Some?;
      if ok { model, sources := parsed.value, recorded; }
    }

    /** `del cfg[key]` */
    method DelItem(key: Key) returns (ok: bool)
      requires Valid()
      modifies this
      ensures Valid() && Contents() == Step(platform, defaults, old(Contents()), Delete(key))
      ensures ok <==> Commits(platform, defaults, old(Contents()), Delete(key)).Some?
      ensures sources == old(sources) && (!ok ==> model == old(model))
    {
      hide GoodModel, GoodSchema, Attempt, Stamped, Laid;
      if key !in model { return false; }
      var data := model - {key};
      var parsed := ValidateCandidate(data, sources);
      Committed(platform, defaults, Contents(), Delete(key), data, sources, parsed);
      ok := parsed.Some?;
      if ok { model := parsed.value; }
    }

    /** `cfg.clear()` */
    method ClearAll() returns (ok: bool)
      requires Valid()
      modifies this
      ensures Valid() && Contents() == Step(platform, defaults, old(Contents()), Clear)
      ensures ok <==> Commits(platform, defaults, old(Contents()), Clear).Some?
      ensures sources == old(sources) && (!ok ==> model == old(model))
    {
      hide GoodModel, GoodSchema, Attempt, Stamped, Laid;
      var parsed := ValidateCandidate(map[], sources);
      Committed(platform, defaults, Contents(), Clear, map[], sources, parsed);
      ok := parsed.Some?;
      if ok { model := parsed.value; }
    }

    /** `cfg.with_overrides(overrides)`: a new object; the receiver is not touched. */
    method WithOverrides(overrides: Config) returns (result: AppConfig?)
      requires Valid()
      ensures result == null <==> Commits(platform, defaults, Contents(), Override(overrides)).None?
      ensures result != null ==>
                && fresh(result) && result.Valid()
                && result.Contents() == Step(platform, defaults, Contents(), Override(overrides))
    {
      hide GoodModel, GoodSchema, Attempt, Stamped, Laid;
      var recorded := sources + Stamped(overrides, OVERRIDE_SOURCE);
      var data := Laid(model, overrides);
      var parsed := ValidateCandidate(data, recorded);
      Committed(platform, defaults, Contents(), Override(overrides), data, recorded, parsed);
      if parsed.None? { return null; }
      result := new AppConfig(platform, defaults, parsed.value, recorded);
    }
  }

  /** Normalization and validation of what layering left. */
  method FinishBuild(p: Platform, defaults: Data, st: Stage) returns (built: Option<State>)
    requires GoodSchema(Keyed(defaults)) && defaults.Keys <= st.data.Keys
    ensures built == Built(p, defaults, st)
  {
    hide Finish, GoodSchema, Built, Accepted, NoneEscapes, AccessOf, Complete, Normalized, Validated;
    hide NormSources, LimitsOf, MbSource, Keyed, KeyedSources;
    GoodSchemaComplete(Keyed(defaults));
    StageComplete(defaults, st);
    var c, sources := Keyed(st.data), KeyedSources(st.provenance);
    FinishIs(p, Keyed(defaults), c, MbSource(sources));
    BuiltIs(p, defaults, st);
    var outcome, recorded := NormalizeConfigData(p, c, sources);
    if outcome.Stopped? { return None; }
    var parsed := Validated(p, Keyed(defaults), outcome.value);
    if parsed.None? { return None; }
    return Some(State(parsed.value, recorded));
  }

  /** `build_config`: layer, normalize, validate. */
  method BuildConfig(p: Platform, defaults: Data, layers: seq<Layer>, environment: map<string, string>)
    returns (result: AppConfig?, warnings: seq<Warning>)
    requires GoodDefaults(defaults, ENVIRONMENT_KEYS) && GoodSchema(Keyed(defaults))
    ensures var built := Built(p, defaults, LayeredStage(defaults, layers, ENVIRONMENT_KEYS, environment));
            && (result == null <==> built.None?)
            && (result != null ==> fresh(result) && result.Valid() && result.defaults == Keyed(defaults)
                                   && Some(result.Contents()) == built)
            && AllOf(warnings) == WarnedBy(InitialStage(defaults), layers, AllowedPaths(defaults))
  {
    hide GoodModel, GoodSchema, GoodDefaults, Built, Keyed, ApplyLayers, AllowedPaths, EnvLayers;
    var st;
    st, warnings := LayerConfig(defaults, layers, ENVIRONMENT_KEYS, environment);
    LayersKeepKeys(InitialStage(defaults), layers + EnvLayers(ENVIRONMENT_KEYS, environment), AllowedPaths(defaults));
    var built := FinishBuild(p, defaults, st);
    if built.None? { return null, warnings; }
    BuiltGood(p, defaults, st);
    result := new AppConfig(p, Keyed(defaults), built.value.model, built.value.sources);
  }
}
