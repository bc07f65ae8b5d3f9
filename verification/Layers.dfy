/** Layering (`_build_config` up to normalization): built-in defaults, then the
    ordered layers, then the environment, with the source of every path recorded. */
module Layers {
  import opened Values
  import opened Paths
  import opened Overlay
  import opened Shape
  import Text

  datatype Layer = Layer(source: string, overlay: Data)

  datatype Stage = Stage(data: Data, provenance: map<string, string>)

  datatype EnvName = EnvName(name: string, key: string)

  const DEFAULT_SOURCE := "built-in defaults"

  /** Accepted from a layer although no default has it. */
  const LEGACY_BYTES := "full_output_max_bytes"

  const CSV_KEYS := {"restricted_command_input_cidrs", "ai_base_url_allowed_cidrs"}

  /** `ENVIRONMENT_KEYS`, in order. */
  const ACCESS_ENV: seq<EnvName> := [
    EnvName("ACCESS_PROFILE", "access_profile"),
    EnvName("RESTRICTED_PUBLIC_SHARES_ENABLED", "restricted_public_shares_enabled"),
    EnvName("BROWSER_SESSION_IDLE_MINUTES", "browser_session_idle_minutes"),
    EnvName("BROWSER_SESSION_ABSOLUTE_HOURS", "browser_session_absolute_hours"),
    EnvName("OIDC_ISSUER", "oidc_issuer"),
    EnvName("OIDC_CLIENT_ID", "oidc_client_id")
  ]
  const OIDC_ENV: seq<EnvName> := [
    EnvName("OIDC_CLIENT_SECRET", "oidc_client_secret"),
    EnvName("OIDC_REDIRECT_URI", "oidc_redirect_uri"),
    EnvName("OIDC_SCOPES", "oidc_scopes"),
    EnvName("OIDC_PROVISIONING", "oidc_provisioning"),
    EnvName("OIDC_ALLOWED_SUBJECTS", "oidc_allowed_subjects"),
    EnvName("OIDC_CA_BUNDLE", "oidc_ca_bundle")
  ]
  const AI_MODEL_ENV: seq<EnvName> := [
    EnvName("AI_ENABLED", "ai_enabled"),
    EnvName("AI_PROVIDER", "ai_provider"),
    EnvName("AI_BASE_URL", "ai_base_url"),
    EnvName("AI_MODEL", "ai_model"),
    EnvName("AI_API_KEY_SECRET_NAME", "ai_api_key_secret_name"),
    EnvName("AI_API_KEY", "ai_api_key")
  ]
  const AI_LIMIT_ENV: seq<EnvName> := [
    EnvName("AI_CONNECT_TIMEOUT_SECONDS", "ai_connect_timeout_seconds"),
    EnvName("AI_TIMEOUT_SECONDS", "ai_timeout_seconds"),
    EnvName("AI_MAX_INPUT_CHARS", "ai_max_input_chars"),
    EnvName("AI_MAX_OUTPUT_TOKENS", "ai_max_output_tokens"),
    EnvName("AI_NEXT_COMMANDS_MAX_OUTPUT_TOKENS", "ai_next_commands_max_output_tokens"),
    EnvName("AI_MAX_CONCURRENT", "ai_max_concurrent")
  ]
  const AI_RATE_ENV: seq<EnvName> := [
    EnvName("AI_MAX_QUEUE_DEPTH", "ai_max_queue_depth"),
    EnvName("AI_RATE_LIMIT_PER_SESSION_HOUR", "ai_rate_limit_per_session_hour"),
    EnvName("AI_RATE_LIMIT_GLOBAL_PER_MINUTE", "ai_rate_limit_global_per_minute"),
    EnvName("AI_ALLOW_FULL_OUTPUT", "ai_allow_full_output"),
    EnvName("AI_REQUIRE_PRIVATE_BASE_URL", "ai_require_private_base_url"),
    EnvName("AI_BASE_URL_ALLOWED_CIDRS", "ai_base_url_allowed_cidrs")
  ]
  const AI_FEATURE_ENV: seq<EnvName> := [
    EnvName("AI_PROMPT_VERSION_OVERRIDE", "ai_prompt_version_override"),
    EnvName("AI_FEATURE_SUMMARY", "ai_feature_summary"),
    EnvName("AI_FEATURE_NEXT_COMMANDS", "ai_feature_next_commands"),
    EnvName("AI_FEATURE_RUN_SUGGESTIONS", "ai_feature_run_suggestions"),
    EnvName("WORKSPACE_ENABLED", "workspace_enabled"),
    EnvName("WORKSPACE_BACKEND", "workspace_backend")
  ]
  const WORKSPACE_ENV: seq<EnvName> := [
    EnvName("WORKSPACE_ROOT", "workspace_root"),
    EnvName("INTERACTIVE_PTY_ENABLED", "interactive_pty_enabled"),
    EnvName("PROMETHEUS_MULTIPROC_DIR", "prometheus_multiproc_dir"),
    EnvName("ASSET_BUNDLE_MODE", "asset_bundle_mode"),
    EnvName("RESTRICTED_COMMAND_INPUT_CIDRS", "restricted_command_input_cidrs"),
    EnvName("RAW_PACKET_SCANNING_ENABLED", "raw_packet_scanning_enabled")
  ]
  const DATABASE_ENV: seq<EnvName> := [
    EnvName("ASSESSMENT_INTRUSIVE_ACTIONS_ENABLED", "assessment_intrusive_actions_enabled"),
    EnvName("DATABASE_BACKEND", "database_backend"),
    EnvName("DATABASE_URL", "database_url"),
    EnvName("DATABASE_POOL_MIN", "database_pool_min"),
    EnvName("DATABASE_POOL_MAX", "database_pool_max"),
    EnvName("DATABASE_POSTGRES_JIT", "database_postgres_jit")
  ]

  const ENVIRONMENT_KEYS: seq<EnvName> :=
    ACCESS_ENV + OIDC_ENV + AI_MODEL_ENV + AI_LIMIT_ENV
    + AI_RATE_ENV + AI_FEATURE_ENV + WORKSPACE_ENV + DATABASE_ENV

  // ------------------------------------------------------------------ provenance

  /** Both `_record_*_provenance` loops: every path of `data` is stamped with `source`. */
  method RecordProvenance(data: Data, provenance: map<string, string>, source: string, prefix: string)
    returns (recorded: map<string, string>)
    ensures recorded == provenance + Stamp(Flatten(Dict(data), prefix), source)
    decreases Dict(data), 1
  {
    recorded := provenance;
    var todo := data.Keys;
    assert data.Keys - todo == {};
    while todo != {}
      invariant todo <= data.Keys
      invariant recorded == provenance + Stamp(FlattenKeys(data, prefix, data.Keys - todo), source)
    {
      var key :| key in todo;
      ghost var done := data.Keys - todo;
      recorded := RecordKey(data, recorded, source, prefix, key);
      FlattenStep(data, prefix, done, key);
      StampTwice(provenance, FlattenKeys(data, prefix, done), FlattenAt(data, prefix, key), source);
      todo := todo - {key};
      assert data.Keys - todo == done + {key};
    }
    assert data.Keys - todo == data.Keys;
    FlattenAll(data, prefix);
  }

  method RecordKey(data: Data, provenance: map<string, string>, source: string, prefix: string, key: string)
    returns (recorded: map<string, string>)
    requires key in data
    ensures recorded == provenance + Stamp(FlattenAt(data, prefix, key), source)
    decreases Dict(data), 0
  {
    var path := PathJoin(prefix, key);
    recorded := provenance[path := source];
    if data[key].Dict? {
      recorded := RecordProvenance(data[key].m, recorded, source, path);
      StampTwice(provenance, {path}, Flatten(data[key], path), source);
    }
  }

  // -------------------------------------------------------------------- layering

  function InitialStage(defaults: Data): Stage {
    Stage(defaults, Stamp(Flatten(Dict(defaults), ""), DEFAULT_SOURCE))
  }

  function ApplyLayer(st: Stage, layer: Layer, allowed: set<string>): Stage {
    var t, o := Dict(st.data), Dict(layer.overlay);
    Stage(OverlayKeys(t, o, allowed, "", o.m.Keys),
          st.provenance + Stamp(Fated(t, o, allowed, "", Assigned, o.m.Keys), layer.source))
  }

  function ApplyLayers(st: Stage, layers: seq<Layer>, allowed: set<string>): Stage {
    if layers == [] then st
    else ApplyLayer(ApplyLayers(st, layers[..|layers| - 1], allowed), layers[|layers| - 1], allowed)
  }

  function AllowedPaths(defaults: Data): set<string> {
    Flatten(Dict(defaults), "") + {LEGACY_BYTES}
  }

  /** A non-blank environment name, as the value it assigns. */
  function EnvValue(key: string, raw: string): Value {
    if key in CSV_KEYS then
      var items := Text.Clean(Text.Split(raw, ','));
      List(seq(|items|, i requires 0 <= i < |items| => Str(items[i])))
    else Str(raw)
  }

  function RawEnv(environment: map<string, string>, name: string): string {
    if name in environment then Text.Strip(environment[name]) else ""
  }

  /** Each non-blank environment name is a layer with a single key. */
  function EnvLayers(table: seq<EnvName>, environment: map<string, string>): seq<Layer> {
    if table == [] then []
    else
      var last := table[|table| - 1];
      var raw := RawEnv(environment, last.name);
      EnvLayers(table[..|table| - 1], environment) +
      (if raw == "" then [] else [Layer(last.name, map[last.key := EnvValue(last.key, raw)])])
  }

  /** Facts about the built-in defaults: faithful keys, and each environment name sets a leaf. */
  predicate GoodDefaults(defaults: Data, table: seq<EnvName>) {
    && FaithfulTree(Dict(defaults)) && LEGACY_BYTES !in defaults
    && forall e | e in table :: e.key in defaults && !defaults[e.key].Dict?
  }

  lemma SetIsLayer(st: Stage, name: string, key: string, value: Value, allowed: set<string>)
    requires key in allowed && !value.Dict?
    ensures ApplyLayer(st, Layer(name, map[key := value]), allowed)
         == Stage(st.data[key := value], st.provenance[key := name])
  {
    var t, o := Dict(st.data), Dict(map[key := value]);
    assert OverlayKeys(t, o, allowed, "", o.m.Keys) == st.data[key := value];
    assert Fated(t, o, allowed, "", Assigned, o.m.Keys) == {key} by {
      assert FatedAt(t, o, allowed, "", Assigned, key) == {key};
    }
  }

  /** The loop over the ordered layers. */
  method MergeLayers(start: Stage, layers: seq<Layer>, allowed: set<string>) returns (st: Stage, warnings: seq<Warning>)
    ensures st == ApplyLayers(start, layers, allowed)
    ensures AllOf(warnings) == WarnedBy(start, layers, allowed)
  {
    st, warnings := start, [];
    for i := 0 to |layers|
      invariant st == ApplyLayers(start, layers[..i], allowed)
      invariant AllOf(warnings) == WarnedBy(start, layers[..i], allowed)
    {
      var layer := layers[i];
      var merged, stamped, more := MergeConfigOverlay(st.data, layer.overlay, layer.source, st.provenance, allowed, "");
      assert layers[..i + 1][..i] == layers[..i];
      WarningsOf(more, layer.source, Ignores(st, layer, allowed));
      assert AllOf(warnings + more) == AllOf(warnings) + AllOf(more);
      st, warnings := Stage(merged, stamped), warnings + more;
    }
    assert layers[..|layers|] == layers;
  }

  /** The paths of a layer that are ignored where it is applied. */
  ghost function Ignores(st: Stage, layer: Layer, allowed: set<string>): set<string> {
    Fated(Dict(st.data), Dict(layer.overlay), allowed, "", Ignored, layer.overlay.Keys)
  }

  /** Every ignored path is warned about, with the layer that named it. */
  ghost function WarnedBy(start: Stage, layers: seq<Layer>, allowed: set<string>): set<Warning> {
    if layers == [] then {}
    else
      var n := |layers| - 1;
      WarnedBy(start, layers[..n], allowed)
      + set path | path in Ignores(ApplyLayers(start, layers[..n], allowed), layers[n], allowed) :: Warning(path, layers[n].source)
  }

  ghost function AllOf(warnings: seq<Warning>): set<Warning> {
    set w | w in warnings
  }

  lemma WarningsOf(warnings: seq<Warning>, source: string, paths: set<string>)
    requires Keys(warnings) == paths && forall w | w in warnings :: w.source == source
    ensures AllOf(warnings) == set path | path in paths :: Warning(path, source)
  {
    forall w | w in warnings ensures w.key in paths {
      var i :| 0 <= i < |warnings| && warnings[i] == w;
      assert warnings[i].key in Keys(warnings);
    }
    forall path | path in paths ensures Warning(path, source) in warnings {
      var i :| 0 <= i < |warnings| && warnings[i].key == path;
      assert warnings[i] in warnings && warnings[i] == Warning(path, source);
    }
  }

  /** The loop over the environment names. */
  method ApplyEnvironment(start: Stage, table: seq<EnvName>, environment: map<string, string>, ghost allowed: set<string>)
    returns (st: Stage)
    requires forall e | e in table :: e.key in allowed
    ensures st == ApplyLayers(start, EnvLayers(table, environment), allowed)
  {
    st := start;
    for i := 0 to |table|
      invariant st == ApplyLayers(start, EnvLayers(table[..i], environment), allowed)
    {
      var e := table[i];
      var raw := RawEnv(environment, e.name);
      ghost var before := EnvLayers(table[..i], environment);
      EnvStep(table, environment, i);
      if raw != "" {
        var value := EnvValue(e.key, raw);
        SetIsLayer(st, e.name, e.key, value, allowed);
        st := Stage(st.data[e.key := value], st.provenance[e.key := e.name]);
        ApplyOne(start, before, Layer(e.name, map[e.key := value]), allowed);
      }
    }
    assert table[..|table|] == table;
  }

  lemma EnvStep(table: seq<EnvName>, environment: map<string, string>, i: nat)
    requires i < |table|
    ensures var e, before := table[i], EnvLayers(table[..i], environment);
            var raw := RawEnv(environment, e.name);
            EnvLayers(table[..i + 1], environment)
            == if raw == "" then before else before + [Layer(e.name, map[e.key := EnvValue(e.key, raw)])]
  {
    assert table[..i + 1][..i] == table[..i];
  }

  lemma ApplyOne(start: Stage, layers: seq<Layer>, last: Layer, allowed: set<string>)
    ensures ApplyLayers(start, layers + [last], allowed) == ApplyLayer(ApplyLayers(start, layers, allowed), last, allowed)
  {
    assert (layers + [last])[..|layers|] == layers;
  }

  lemma {:induction false} ApplyAppend(start: Stage, layers: seq<Layer>, more: seq<Layer>, allowed: set<string>)
    ensures ApplyLayers(start, layers + more, allowed) == ApplyLayers(ApplyLayers(start, layers, allowed), more, allowed)
  {
    if more == [] {
      assert layers + more == layers;
    } else {
      var init, last := more[..|more| - 1], more[|more| - 1];
      ApplyAppend(start, layers, init, allowed);
      ApplyOne(start, layers + init, last, allowed);
      assert layers + more == layers + init + [last];
    }
  }

  /** Defaults, then layers, then environment. */
  method LayerConfig(defaults: Data, layers: seq<Layer>, table: seq<EnvName>, environment: map<string, string>)
    returns (st: Stage, warnings: seq<Warning>)
    requires GoodDefaults(defaults, table)
    ensures st == ApplyLayers(InitialStage(defaults), layers + EnvLayers(table, environment), AllowedPaths(defaults))
    ensures AllOf(warnings) == WarnedBy(InitialStage(defaults), layers, AllowedPaths(defaults))
  {
    var paths := FlattenConfigPaths(defaults, "");
    var allowed := paths + {LEGACY_BYTES};
    var recorded := RecordProvenance(defaults, map[], DEFAULT_SOURCE, "");
    assert Stage(defaults, recorded) == InitialStage(defaults);
    st, warnings := MergeLayers(Stage(defaults, recorded), layers, allowed);
    forall e | e in table ensures e.key in allowed {
      assert At(defaults[e.key], []).Some? && At(Dict(defaults), [e.key]).Some?;
      FlattenContains(Dict(defaults), "", [e.key]);
    }
    st := ApplyEnvironment(st, table, environment, allowed);
    ApplyAppend(InitialStage(defaults), layers, EnvLayers(table, environment), allowed);
  }

  // ----------------------------------------------------------- last writer wins

  /** The shape of what layers may say: the defaults and the legacy key. */
  function Known(defaults: Data): Value {
    Dict(defaults[LEGACY_BYTES := Null])
  }

  predicate GoodLayer(layer: Layer, defaults: Data) {
    FaithfulTree(Dict(layer.overlay)) && Respects(Dict(layer.overlay), Known(defaults))
  }

  lemma KnownFaithful(defaults: Data, table: seq<EnvName>)
    requires GoodDefaults(defaults, table)
    ensures FaithfulTree(Known(defaults)) && Shaped(Dict(defaults), Known(defaults))
    ensures Flatten(Known(defaults), "") == AllowedPaths(defaults)
  {
    var known := Known(defaults);
    ShapedSelf(Dict(defaults));
    forall p | p in Flatten(known, "") ensures p in AllowedPaths(defaults) {
      var ks := FlattenWitness(known, "", p);
      if ks[0] != LEGACY_BYTES {
        assert At(Dict(defaults), ks) == At(known, ks);
        FlattenContains(Dict(defaults), "", ks);
      } else {
        assert ks[1..] == [];
        assert JoinFrom(PathJoin("", ks[0]), ks[1..]) == LEGACY_BYTES;
      }
    }
    forall p | p in AllowedPaths(defaults) ensures p in Flatten(known, "") {
      if p == LEGACY_BYTES {
        assert PathJoin("", LEGACY_BYTES) in Flatten(known, "");
      } else {
        var ks := FlattenWitness(Dict(defaults), "", p);
        assert At(known, ks) == At(Dict(defaults), ks);
        FlattenContains(known, "", ks);
      }
    }
  }

  lemma {:induction false} ShapedSelf(v: Value)
    requires v.Dict?
    ensures Shaped(v, v)
    decreases v
  {
    forall k | k in v.m && v.m[k].Dict? ensures Shaped(v.m[k], v.m[k]) { ShapedSelf(v.m[k]); }
  }

  /** The shape survives every layer. */
  lemma {:induction false} LayersShaped(defaults: Data, table: seq<EnvName>, layers: seq<Layer>)
    requires GoodDefaults(defaults, table)
    requires forall l | l in layers :: GoodLayer(l, defaults)
    ensures Shaped(Dict(ApplyLayers(InitialStage(defaults), layers, AllowedPaths(defaults)).data), Known(defaults))
  {
    KnownFaithful(defaults, table);
    if layers != [] {
      var init, last := layers[..|layers| - 1], layers[|layers| - 1];
      LayersShaped(defaults, table, init);
      LayerStep(defaults, table, init, last);
      assert GoodLayer(last, defaults);
      FilterShaped(Dict(ApplyLayers(InitialStage(defaults), init, AllowedPaths(defaults)).data),
                   Dict(last.overlay), Known(defaults));
    }
  }

  lemma LayerStep(defaults: Data, table: seq<EnvName>, init: seq<Layer>, last: Layer)
    requires GoodDefaults(defaults, table) && GoodLayer(last, defaults)
    ensures var before := ApplyLayers(InitialStage(defaults), init, AllowedPaths(defaults));
            ApplyLayer(before, last, AllowedPaths(defaults)).data
            == Filter(Dict(before.data), Dict(last.overlay), Known(defaults))
  {
    KnownFaithful(defaults, table);
    var before := ApplyLayers(InitialStage(defaults), init, AllowedPaths(defaults));
    assert At(Known(defaults), []) == Some(Known(defaults));
    OverlayIsFilter(Dict(before.data), Dict(last.overlay), Known(defaults), []);
  }

  /** One more layer: at every leaf it wins, value and source, exactly when it says something there. */
  lemma LeafAfterLayer(defaults: Data, table: seq<EnvName>, layers: seq<Layer>, ks: seq<string>)
    requires GoodDefaults(defaults, table) && layers != []
    requires forall l | l in layers :: GoodLayer(l, defaults)
    requires LeafAt(Known(defaults), ks)
    ensures var init, last := layers[..|layers| - 1], layers[|layers| - 1];
            var before := ApplyLayers(InitialStage(defaults), init, AllowedPaths(defaults));
            var after := ApplyLayers(InitialStage(defaults), layers, AllowedPaths(defaults));
            var p := JoinFrom("", ks);
            if At(Dict(last.overlay), ks).Some? then
              At(Dict(after.data), ks) == At(Dict(last.overlay), ks)
              && p in after.provenance && after.provenance[p] == last.source
            else
              At(Dict(after.data), ks) == At(Dict(before.data), ks)
              && (p in after.provenance <==> p in before.provenance)
              && (p in before.provenance ==> after.provenance[p] == before.provenance[p])
  {
    var init, last := layers[..|layers| - 1], layers[|layers| - 1];
    var before := ApplyLayers(InitialStage(defaults), init, AllowedPaths(defaults));
    var known := Known(defaults);
    assert GoodLayer(last, defaults);
    KnownFaithful(defaults, table);
    PositionsFaithful(known, ks);
    LayersShaped(defaults, table, init);
    LayerStep(defaults, table, init, last);
    FilterLeaf(Dict(before.data), Dict(last.overlay), known, ks);
    FatedIff(Dict(before.data), Dict(last.overlay), known, Assigned, ks);
  }

  /** A layer sets a leaf and no later one does: its value and its source stand. */
  lemma {:induction false} LastWriterWins(defaults: Data, table: seq<EnvName>, layers: seq<Layer>, ks: seq<string>, i: nat)
    requires GoodDefaults(defaults, table)
    requires forall l | l in layers :: GoodLayer(l, defaults)
    requires LeafAt(Known(defaults), ks)
    requires i < |layers| && At(Dict(layers[i].overlay), ks).Some?
    requires forall j | i < j < |layers| :: At(Dict(layers[j].overlay), ks).None?
    ensures var st := ApplyLayers(InitialStage(defaults), layers, AllowedPaths(defaults));
            && At(Dict(st.data), ks) == At(Dict(layers[i].overlay), ks)
            && JoinFrom("", ks) in st.provenance && st.provenance[JoinFrom("", ks)] == layers[i].source
    decreases |layers|
  {
    LeafAfterLayer(defaults, table, layers, ks);
    if i < |layers| - 1 {
      LastWriterWins(defaults, table, layers[..|layers| - 1], ks, i);
    }
  }

  /** No layer sets a leaf: the default and its source stand; the legacy key stays absent. */
  lemma {:induction false} DefaultStands(defaults: Data, table: seq<EnvName>, layers: seq<Layer>, ks: seq<string>)
    requires GoodDefaults(defaults, table)
    requires forall l | l in layers :: GoodLayer(l, defaults)
    requires LeafAt(Known(defaults), ks)
    requires forall j | 0 <= j < |layers| :: At(Dict(layers[j].overlay), ks).None?
    ensures var st := ApplyLayers(InitialStage(defaults), layers, AllowedPaths(defaults));
            && At(Dict(st.data), ks) == At(Dict(defaults), ks)
            && (ks != [LEGACY_BYTES] ==>
                JoinFrom("", ks) in st.provenance && st.provenance[JoinFrom("", ks)] == DEFAULT_SOURCE)
            && (ks == [LEGACY_BYTES] ==> JoinFrom("", ks) !in st.provenance)
    decreases |layers|
  {
    if layers == [] {
      KnownFaithful(defaults, table);
      PositionsFaithful(Known(defaults), ks);
      if ks != [LEGACY_BYTES] {
        assert At(Dict(defaults), ks) == At(Known(defaults), ks);
        FlattenContains(Dict(defaults), "", ks);
      } else if JoinFrom("", ks) in Flatten(Dict(defaults), "") {
        var ks' := FlattenWitness(Dict(defaults), "", JoinFrom("", ks));
        PositionsFaithful(Dict(defaults), ks');
        PathJoinInjective(ks, ks');
      }
    } else {
      LeafAfterLayer(defaults, table, layers, ks);
      DefaultStands(defaults, table, layers[..|layers| - 1], ks);
    }
  }

  /** Environment layers respect the shape, so the two laws above cover them too. */
  lemma {:induction false} EnvLayersGood(defaults: Data, whole: seq<EnvName>, table: seq<EnvName>, environment: map<string, string>)
    requires GoodDefaults(defaults, whole) && forall e | e in table :: e in whole
    ensures forall l | l in EnvLayers(table, environment) :: GoodLayer(l, defaults)
    decreases |table|
  {
    if table != [] {
      EnvLayersGood(defaults, whole, table[..|table| - 1], environment);
      var last := table[|table| - 1];
      assert last in whole;
      var raw := RawEnv(environment, last.name);
      if raw != "" {
        var overlay := map[last.key := EnvValue(last.key, raw)];
        assert DotFree(last.key) && DotFreeTree(overlay[last.key]);
      }
    }
  }

  /** Last writer wins across layers and environment together. */
  lemma LayeredLastWriter(defaults: Data, table: seq<EnvName>, layers: seq<Layer>, environment: map<string, string>,
                          ks: seq<string>, i: nat)
    requires GoodDefaults(defaults, table)
    requires forall l | l in layers :: GoodLayer(l, defaults)
    requires LeafAt(Known(defaults), ks)
    requires var all := layers + EnvLayers(table, environment);
             && i < |all| && At(Dict(all[i].overlay), ks).Some?
             && forall j | i < j < |all| :: At(Dict(all[j].overlay), ks).None?
    ensures var all := layers + EnvLayers(table, environment);
            var st := ApplyLayers(InitialStage(defaults), all, AllowedPaths(defaults));
            && At(Dict(st.data), ks) == At(Dict(all[i].overlay), ks)
            && JoinFrom("", ks) in st.provenance && st.provenance[JoinFrom("", ks)] == all[i].source
  {
    EnvLayersGood(defaults, table, table, environment);
    LastWriterWins(defaults, table, layers + EnvLayers(table, environment), ks, i);
  }

  /** And a leaf that neither layers nor environment set keeps its default and the default source. */
  lemma LayeredDefaultStands(defaults: Data, table: seq<EnvName>, layers: seq<Layer>, environment: map<string, string>, ks: seq<string>)
    requires GoodDefaults(defaults, table)
    requires forall l | l in layers :: GoodLayer(l, defaults)
    requires LeafAt(Known(defaults), ks)
    requires forall l | l in layers + EnvLayers(table, environment) :: At(Dict(l.overlay), ks).None?
    ensures var st := ApplyLayers(InitialStage(defaults), layers + EnvLayers(table, environment), AllowedPaths(defaults));
            && At(Dict(st.data), ks) == At(Dict(defaults), ks)
            && (ks != [LEGACY_BYTES] ==>
                JoinFrom("", ks) in st.provenance && st.provenance[JoinFrom("", ks)] == DEFAULT_SOURCE)
            && (ks == [LEGACY_BYTES] ==> JoinFrom("", ks) !in st.provenance)
  {
    EnvLayersGood(defaults, table, table, environment);
    DefaultStands(defaults, table, layers + EnvLayers(table, environment), ks);
  }

  /** Whatever the shapes, a leaf that a layer brings in keeps an older source
      exactly when a mapping above it was replaced outright. */
  lemma StaleSourceExactly(st: Stage, layer: Layer, known: Value, ks: seq<string>)
    requires FaithfulTree(known) && FaithfulTree(Dict(layer.overlay)) && Faithful(ks)
    requires LeafAt(Dict(ApplyLayer(st, layer, Flatten(known, "")).data), ks)
    ensures var t, o := Dict(st.data), Dict(layer.overlay);
            var after := ApplyLayer(st, layer, Flatten(known, ""));
            var fromLayer := ReplacedAbove(t, o, known, ks) || FateOf(t, o, known, ks) == Some(Assigned);
            var stamped := JoinFrom("", ks) in Fated(t, o, Flatten(known, ""), "", Assigned, o.m.Keys);
            && At(Dict(after.data), ks) == (if fromLayer then At(o, ks) else At(t, ks))
            && (fromLayer && !stamped <==> ReplacedAbove(t, o, known, ks))
            && (stamped ==> after.provenance[JoinFrom("", ks)] == layer.source)
  {
    var t, o := Dict(st.data), Dict(layer.overlay);
    assert At(known, []) == Some(known);
    OverlayIsFilter(t, o, known, []);
    LeafOrigin(t, o, known, ks);
    FatedIff(t, o, known, Assigned, ks);
    if ReplacedAbove(t, o, known, ks) { AssignedOnce(t, o, known, ks); }
  }

  /** Nothing below an assigned position is assigned. */
  lemma {:induction false} AssignedOnce(t: Value, o: Value, s: Value, ks: seq<string>)
    requires t.Dict? && o.Dict? && ReplacedAbove(t, o, s, ks)
    ensures FateOf(t, o, s, ks) != Some(Assigned)
    decreases o
  {
    var n :| 0 < n < |ks| && FateOf(t, o, s, ks[..n]) == Some(Assigned);
    var k := ks[0];
    assert ks[..n][0] == k;
    if k in o.m && KnownIn(s, k) && Recurses(t, o, k) {
      assert ks[..n][1..] == ks[1..][..n - 1];
      AssignedOnce(t.m[k], o.m[k], s.m[k], ks[1..]);
    }
  }

  /** The stale case does occur: once a layer has put a plain value where a
      section was, the next mapping for the section is stored whole, and its
      leaves keep whatever source was recorded before. */
  lemma StaleSourceExample(st: Stage, source: string, allowed: set<string>, section: string, key: string, value: Value)
    requires section != "" && section in allowed && section in st.data && !st.data[section].Dict?
    requires PathJoin(section, key) in st.provenance && st.provenance[PathJoin(section, key)] != source
    ensures var after := ApplyLayer(st, Layer(source, map[section := Dict(map[key := value])]), allowed);
            && At(Dict(after.data), [section, key]) == Some(value)
            && after.provenance[PathJoin(section, key)] == st.provenance[PathJoin(section, key)] != source
  {
    SetWhole(st, Layer(source, map[section := Dict(map[key := value])]), allowed, section);
    assert [section, key][1..] == [key] && [key][1..] == [];
    assert At(Dict(map[key := value]), [key]) == At(value, []);
    assert |PathJoin(section, key)| > |section|;
  }

  /** A single-key layer that finds no mapping to merge into replaces the key. */
  lemma SetWhole(st: Stage, layer: Layer, allowed: set<string>, key: string)
    requires layer.overlay.Keys == {key} && key in allowed && key in st.data
    requires !(st.data[key].Dict? && layer.overlay[key].Dict?)
    ensures ApplyLayer(st, layer, allowed)
         == Stage(st.data[key := layer.overlay[key]], st.provenance[key := layer.source])
  {
    hide OverlayKeys, Fated;
    SetWholeData(st, layer, allowed, key);
    SetWholeFate(st, layer, allowed, key);
  }

  lemma SetWholeData(st: Stage, layer: Layer, allowed: set<string>, key: string)
    requires layer.overlay.Keys == {key} && key in allowed && key in st.data
    requires !(st.data[key].Dict? && layer.overlay[key].Dict?)
    ensures OverlayKeys(Dict(st.data), Dict(layer.overlay), allowed, "", layer.overlay.Keys) == st.data[key := layer.overlay[key]]
  {
  }

  lemma SetWholeFate(st: Stage, layer: Layer, allowed: set<string>, key: string)
    requires layer.overlay.Keys == {key} && key in allowed && key in st.data
    requires !(st.data[key].Dict? && layer.overlay[key].Dict?)
    ensures Fated(Dict(st.data), Dict(layer.overlay), allowed, "", Assigned, layer.overlay.Keys) == {key}
  {
    assert FatedAt(Dict(st.data), Dict(layer.overlay), allowed, "", Assigned, key) == {key};
  }
}
