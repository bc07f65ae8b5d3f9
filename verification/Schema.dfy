/** Schema validation of a normalized mapping, and what a candidate mapping
    becomes: merged over the defaults, normalized, validated. */
module Schema {
  import opened Values
  import opened Text
  import opened ConfigKeys
  import opened Coercion
  import opened Normalize
  import opened FixedPoints
  import Merge

  const STRING_LIST_KEYS := {"trusted_proxy_cidrs", "metrics_allowed_cidrs", "welcome_status_labels"}
  const FLOAT_LIST_KEYS := {"metrics_histogram_buckets_run_duration", "metrics_histogram_buckets_http_duration",
                            "metrics_histogram_buckets_ai_provider_duration"}
  const FLOAT_KEYS := {"interactive_pty_control_poll_seconds", "interactive_pty_snapshot_min_publish_seconds"}

  /** The built-in defaults of the keys that normalization treats. */
  function BuiltIn(k: Key): Value {
    match k
    case AccessProfile => Str("open")
    case Oidc(_) => Str("")
    case OidcProvisioning => Str("disabled")
    case OidcItems(Scopes) => StrList(["openid"])
    case OidcItems(AllowedSubjects) => StrList([])
    case Duration(IdleMinutes) => Int(30)
    case Duration(AbsoluteHours) => Int(12)
    case Duration(ReauthMinutes) => Int(30)
    case Cidrs(_) => StrList([])
    case DomainSuffixes => StrList([])
    case Count(i) => Int(IntRule(i).0)
    case Flag(b) => Bool(BoolFallback(b))
    case AppName => Str(PROJECT_NAME)
    case FullOutputMb => Int(5)
    case PreviewMb => Int(1)
    case RedactionRules => List([])
    case _ => Null
  }

  /** Facts about the built-in defaults: the keys that normalization reads are
      there with their values, the derived ones are not, and only sections are mappings. */
  ghost predicate GoodSchema(defaults: Config) {
    && Complete(defaults)
    && (forall k {:trigger BuiltIn(k)} | Special(k) && k in defaults :: !Derived(k) && defaults[k] == BuiltIn(k))
    && (forall k | k in defaults && defaults[k].Dict? :: k.Section?)
  }

  function SchemaKeys(defaults: Config): set<Key> {
    defaults.Keys + {FullOutputBytes, PreviewBytes}
  }

  /** A strict float: integers are accepted and become floats. */
  function AsFloat(v: Value): Option<Value> {
    match v
    case Float(_) => Some(v)
    case Int(i) => Some(Float(i as real))
    case _ => None
  }

  function AsFloats(items: seq<Value>): Option<seq<Value>> {
    if items == [] then Some([])
    else
      match (AsFloat(items[0]), AsFloats(items[1..]))
      case (Some(v), Some(rest)) => Some([v] + rest)
      case _ => None
  }

  function Keep(ok: bool, v: Value): Option<Value> {
    if ok then Some(v) else None
  }

  /** The strict type that a default value implies. */
  function LikeDefault(default: Value, v: Value): Option<Value> {
    match default
    case Null => Some(v)
    case Bool(_) => Keep(v.Bool?, v)
    case Int(_) => Keep(v.Int?, v)
    case Float(_) => AsFloat(v)
    case Str(_) => Keep(v.Str?, v)
    case List(_) => Keep(v.List?, v)
    case Dict(_) => Keep(v.Dict?, v)
  }

  /** `_field_type_for`, applied: the validated value, or none when it is refused. */
  function CheckField(p: Platform, defaults: Config, k: Key, v: Value): Option<Value> {
    match k
    case Section(name) => p.section(name, v)
    case FullOutputBytes => Keep(v.Int?, v)
    case PreviewBytes => Keep(v.Int?, v)
    case Plain(name) =>
      if name in STRING_LIST_KEYS then Keep(v.List? && AllStr(v.items), v)
      else if name in FLOAT_LIST_KEYS then
        (if !v.List? then None
         else match AsFloats(v.items) case Some(items) => Some(List(items)) case None => None)
      else if name in FLOAT_KEYS then AsFloat(v)
      else LikeDefault(Get(defaults, k), v)
    case _ => LikeDefault(Get(defaults, k), v)
  }

  /** Validation: no unknown key, and every field of its type. */
  function Validated(p: Platform, defaults: Config, d: Config): Option<Config> {
    if d.Keys != SchemaKeys(defaults) then None
    else if forall k | k in d :: CheckField(p, defaults, k, d[k]).Some? then
      Some(map k | k in d :: CheckField(p, defaults, k, d[k]).value)
    else None
  }

  /** A mapping merged over the defaults. */
  function Candidate(defaults: Config, data: Config): Config {
    map k | k in defaults.Keys + data.Keys ::
      if k !in data then defaults[k] else if k in defaults then Merge.Over(defaults[k], data[k]) else data[k]
  }

  /** `_validate_candidate`: the model that would be committed, if any. */
  ghost function Attempt(p: Platform, defaults: Config, data: Config, mbSource: string): Option<Config> {
    Finish(p, defaults, Candidate(defaults, data), mbSource)
  }

  ghost function Finish(p: Platform, defaults: Config, c: Config, mbSource: string): Option<Config> {
    if Accepted(p, AccessOf(p, c)) && NoneEscapes(p, c) then Validated(p, defaults, Normalized(p, c, mbSource)) else None
  }

  // ------------------------------------------------------- what validation keeps

  lemma BuiltInNotFloat(k: Key)
    ensures !BuiltIn(k).Float?
  {
  }

  lemma BuiltInFlat(k: Key)
    ensures !BuiltIn(k).Dict?
  {
  }

  /** Validation never changes a key that normalization treats. */
  lemma CheckSpecial(p: Platform, defaults: Config, k: Key, v: Value)
    requires GoodSchema(defaults) && Special(k) && k in SchemaKeys(defaults) && CheckField(p, defaults, k, v).Some?
    ensures CheckField(p, defaults, k, v).value == v
  {
    BuiltInNotFloat(k);
    if k in defaults { assert defaults[k] == BuiltIn(k); }
  }

  lemma {:induction false} AsFloatsFixed(items: seq<Value>)
    requires AsFloats(items).Some?
    ensures AsFloats(AsFloats(items).value) == AsFloats(items)
  {
    if items != [] {
      AsFloatsFixed(items[1..]);
      var rest := AsFloats(items[1..]).value;
      assert AsFloats(items).value == [AsFloat(items[0]).value] + rest;
      assert AsFloats(items).value[1..] == rest;
    }
  }

  /** A validated flat value validates to itself. */
  lemma CheckFixed(p: Platform, defaults: Config, k: Key, v: Value)
    requires !k.Section? && CheckField(p, defaults, k, v).Some?
    ensures var w := CheckField(p, defaults, k, v).value; CheckField(p, defaults, k, w) == Some(w)
  {
    if k.Plain? && k.name in FLOAT_LIST_KEYS && k.name !in STRING_LIST_KEYS { AsFloatsFixed(v.items); }
  }

  lemma ValidatedAt(p: Platform, defaults: Config, d: Config, k: Key)
    requires GoodSchema(defaults) && Validated(p, defaults, d).Some? && k in d
    ensures var m := Validated(p, defaults, d).value;
            && m.Keys == SchemaKeys(defaults) == d.Keys
            && CheckField(p, defaults, k, d[k]) == Some(m[k])
            && (Special(k) ==> m[k] == d[k])
            && (!k.Section? ==> CheckField(p, defaults, k, m[k]) == Some(m[k]))
  {
    if Special(k) { CheckSpecial(p, defaults, k, d[k]); }
    if !k.Section? { CheckFixed(p, defaults, k, d[k]); }
  }

  /** Settledness depends on the keys that normalization treats only. */
  lemma SettledAgrees(p: Platform, n: Config, m: Config)
    requires Settled(p, n) && m.Keys == n.Keys && forall k | k in n && Special(k) :: m[k] == n[k]
    ensures Settled(p, m)
  {
    AgreeingAccess(p, n, m);
    assert Complete(m);
    forall k | Alone(k) && k in m ensures NormValue(p, k, m[k]) == m[k] { assert m[k] == n[k]; }
    forall i ensures NumberOk(m, i) { assert NumberOk(n, i) && m[Count(i)] == n[Count(i)]; }
    AgreeingBounds(n, m);
    AgreeingSizes(n, m);
    assert SuffixesOk(n) && m[DomainSuffixes] == n[DomainSuffixes];
  }

  lemma AgreeingAccess(p: Platform, n: Config, m: Config)
    requires Complete(n) && m.Keys == n.Keys && forall k | k in n && Special(k) :: m[k] == n[k]
    ensures AccessOf(p, m) == AccessOf(p, n)
  {
    forall k | AccessKey(k) ensures Get(m, k) == Get(n, k) { assert k in n <==> k in m; }
    SameReads(p, n, m);
  }

  lemma AgreeingBounds(n: Config, m: Config)
    requires BoundsOk(n) && m.Keys == n.Keys && forall k | k in n && Special(k) :: m[k] == n[k]
    ensures BoundsOk(m)
  {
    assert m[Count(PoolMin)] == n[Count(PoolMin)] && m[Count(PoolMax)] == n[Count(PoolMax)];
    assert m[Count(AuditExportMaxRows)] == n[Count(AuditExportMaxRows)];
  }

  lemma AgreeingSizes(n: Config, m: Config)
    requires SizesOk(n) && m.Keys == n.Keys && forall k | k in n && Special(k) :: m[k] == n[k]
    ensures SizesOk(m)
  {
    assert m[FullOutputMb] == n[FullOutputMb] && m[FullOutputBytes] == n[FullOutputBytes];
    assert m[PreviewMb] == n[PreviewMb] && m[PreviewBytes] == n[PreviewBytes];
  }

  // -------------------------------------------------------- what is ever committed

  /** Exactly the schema's keys, settled, and every flat value of its type. */
  ghost predicate GoodModel(p: Platform, defaults: Config, m: Config) {
    && m.Keys == SchemaKeys(defaults)
    && Settled(p, m)
    && forall k {:trigger CheckField(p, defaults, k, m[k])} | k in m && !k.Section? ::
         CheckField(p, defaults, k, m[k]) == Some(m[k])
  }

  lemma ValidatedAll(p: Platform, defaults: Config, n: Config)
    requires GoodSchema(defaults) && Validated(p, defaults, n).Some?
    ensures var m := Validated(p, defaults, n).value;
            && m.Keys == n.Keys == SchemaKeys(defaults)
            && (forall k | k in n && Special(k) :: m[k] == n[k])
            && (forall k {:trigger CheckField(p, defaults, k, m[k])} | k in m && !k.Section? ::
                  CheckField(p, defaults, k, m[k]) == Some(m[k]))
  {
    var m := Validated(p, defaults, n).value;
    forall k | k in n && Special(k) ensures m[k] == n[k] { ValidatedAt(p, defaults, n, k); }
    forall k | k in n && !k.Section? ensures CheckField(p, defaults, k, m[k]) == Some(m[k]) { ValidatedAt(p, defaults, n, k); }
  }

  /** Whatever comes out of normalization and validation is a good model. */
  lemma FinishGood(p: Platform, defaults: Config, c: Config, mbSource: string)
    requires GoodSchema(defaults) && Complete(c) && Finish(p, defaults, c, mbSource).Some?
    ensures GoodModel(p, defaults, Finish(p, defaults, c, mbSource).value)
    ensures var n, m := Normalized(p, c, mbSource), Finish(p, defaults, c, mbSource).value;
            m.Keys == n.Keys && forall k | k in n && Special(k) :: m[k] == n[k]
  {
    var n := Normalized(p, c, mbSource);
    ValidatedAll(p, defaults, n);
    NormalizedSettled(p, c, mbSource);
    SettledAgrees(p, n, Validated(p, defaults, n).value);
  }

  lemma CandidateComplete(defaults: Config, data: Config)
    requires Complete(defaults)
    ensures Complete(Candidate(defaults, data))
  {
    var c := Candidate(defaults, data);
    assert c.Keys == defaults.Keys + data.Keys;
  }

  /** A flat value laid over its default is the value. */
  lemma CandidateFlat(defaults: Config, data: Config, k: Key)
    requires GoodSchema(defaults) && k in data && !k.Section?
    ensures k in Candidate(defaults, data) && Candidate(defaults, data)[k] == data[k]
  {
  }

  /** Whatever a write could commit is a good model. */
  lemma AttemptGood(p: Platform, defaults: Config, data: Config, mbSource: string)
    requires GoodSchema(defaults) && Attempt(p, defaults, data, mbSource).Some?
    ensures GoodModel(p, defaults, Attempt(p, defaults, data, mbSource).value)
  {
    CandidateComplete(defaults, data);
    FinishGood(p, defaults, Candidate(defaults, data), mbSource);
  }

  // ----------------------------------------------------------- the defaults are good

  const DEFAULT_ACCESS :=
    Access("open", "disabled", "", "", "", "", "", Some(["openid"]), Some([]), Some(30), Some(12), Some(30))

  lemma DefaultTexts(p: Platform)
    ensures ProfileText(p, Str("open")) == "open" && PolicyText(p, Str("disabled")) == "disabled"
    ensures SettingText(p, Str("")) == ""
  {
  }

  lemma DefaultItems(p: Platform)
    ensures ItemsOf(p, Scopes, StrList(["openid"])) == Some(["openid"])
    ensures ItemsOf(p, AllowedSubjects, StrList([])) == Some([])
  {
    SplitOrListFixed(["openid"], ' ');
    SplitOrListFixed([], ',');
    StripFixed("openid");
    assert Clean(["openid"]) == ["openid"] by { assert ["openid"][1..] == []; }
  }

  lemma DefaultAccess(p: Platform, defaults: Config)
    requires GoodSchema(defaults)
    ensures AccessOf(p, defaults) == DEFAULT_ACCESS
  {
    hide ProfileText, PolicyText, SettingText, ItemsOf, StrList;
    DefaultTexts(p);
    DefaultItems(p);
    assert Get(defaults, AccessProfile) == BuiltIn(AccessProfile) && Get(defaults, OidcProvisioning) == BuiltIn(OidcProvisioning);
    forall s ensures Get(defaults, Oidc(s)) == Str("") { assert Get(defaults, Oidc(s)) == BuiltIn(Oidc(s)); }
    forall l ensures Get(defaults, OidcItems(l)) == BuiltIn(OidcItems(l)) {}
    forall t ensures Get(defaults, Duration(t)) == BuiltIn(Duration(t)) {}
  }

  /** No rule rejects the built-in defaults, whatever the platform. */
  lemma DefaultsAccepted(p: Platform, defaults: Config)
    requires GoodSchema(defaults)
    ensures Accepted(p, AccessOf(p, defaults))
  {
    hide AccessOf, GoodSchema, Violates, DEFAULT_ACCESS;
    DefaultAccess(p, defaults);
    forall rule ensures !Violates(p, DEFAULT_ACCESS, rule) { DefaultRule(p, rule); }
  }

  lemma DefaultRule(p: Platform, rule: Rule)
    ensures !Violates(p, DEFAULT_ACCESS, rule)
  {
    var a := DEFAULT_ACCESS;
    assert a.profile == PROFILES[0] && a.policy == POLICIES[0];
  }

  /** Nor does a number among them escape. */
  lemma DefaultsPass(p: Platform, defaults: Config)
    requires GoodSchema(defaults)
    ensures Accepted(p, AccessOf(p, defaults)) && NoneEscapes(p, defaults)
  {
    hide Accepted, AccessOf;
    DefaultsAccepted(p, defaults);
    forall k | k in defaults ensures !Escapes(p, k, defaults[k]) {
      if Special(k) { assert defaults[k] == BuiltIn(k); }
    }
  }
}
