/** Normalization and rejection of the merged configuration
    (`_normalize_config_data`). */
module Normalize {
  import opened Values
  import opened Text
  import opened ConfigKeys
  import opened Coercion
  import Layers

  const AUDIT_EXPORT_MAX_ROWS := 200000

  /** The provenance mapping with its paths resolved; a path inside a section is
      the plain key that spells it. */
  type Sources = map<Key, string>

  // ------------------------------------------------------------------- constants

  /** Fallback and minimum of the forgiving integers. */
  function IntRule(k: IntKey): (int, int) {
    match k
    case PoolMin => (1, 0)
    case PoolMax => (5, 1)
    case AuditRetentionDays => (90, 0)
    case AuditExportMaxRows => (10000, 1)
    case AiConnectTimeout => (5, 1)
    case AiTimeout => (120, 1)
    case AiMaxInputChars => (24000, 1000)
    case AiMaxOutputTokens => (120, 1)
    case AiNextCommandsMaxOutputTokens => (180, 1)
    case AiMaxConcurrent => (1, 1)
    case AiMaxQueueDepth => (20, 0)
    case AiRateLimitSessionHour => (5, 1)
    case AiRateLimitGlobalMinute => (2, 1)
    case WorkflowActiveLimit => (3, 1)
    case WorkflowMaxRuntime => (14400, 1)
  }

  function BoolFallback(k: BoolKey): bool {
    k == AuditLog || k == AiPrivateBaseUrl
  }

  /** Bounds of the durations, in the unit of the key. */
  function DurationBounds(k: DurationKey): (int, int) {
    match k
    case IdleMinutes => (1, 1440)
    case AbsoluteHours => (1, 8760)
    case ReauthMinutes => (5, 60)
  }

  const PROFILES := ["open", "token_required", "oidc_required", "mixed"]
  const POLICIES := ["disabled", "allowlist", "automatic"]

  // --------------------------------------------------------------- key classes

  /** Computed from another key; no default has them. */
  predicate Derived(k: Key) {
    k == FullOutputBytes || k == PreviewBytes
  }

  /** The mapping holds every key that normalization reads, as both callers guarantee. */
  ghost predicate Complete(d: Config) {
    && AccessProfile in d && OidcProvisioning in d && DomainSuffixes in d && AppName in d
    && FullOutputMb in d && PreviewMb in d && RedactionRules in d
    && (forall s :: Oidc(s) in d) && (forall l :: OidcItems(l) in d) && (forall t :: Duration(t) in d)
    && (forall c :: Cidrs(c) in d) && (forall i :: Count(i) in d) && (forall b :: Flag(b) in d)
  }

  function Get(d: Config, k: Key): Value {
    if k in d then d[k] else Null
  }

  function Separator(l: OidcList): char {
    if l == Scopes then ' ' else ','
  }

  // ------------------------------------------------------------- what is computed

  function MbOr(p: Platform, v: Value, fallback: int): int {
    match CoerceMb(p, v)
    case Some(mb) => mb
    case None => fallback
  }

  function ItemsOf(p: Platform, l: OidcList, v: Value): Option<seq<string>> {
    match SplitOrList(v, Separator(l))
    case Some(items) => Some(Clean(items))
    case None => None
  }

  function ProfileText(p: Platform, v: Value): string {
    Lower(Strip(TextOr(p.render, v, "open")))
  }

  function PolicyText(p: Platform, v: Value): string {
    Lower(Strip(TextOr(p.render, v, "disabled")))
  }

  function SettingText(p: Platform, v: Value): string {
    Strip(TextOr(p.render, v, ""))
  }

  function CountValue(p: Platform, i: IntKey, v: Value): int {
    CoerceInt(p, v, IntRule(i).0, IntRule(i).1)
  }

  /** The value of a key that depends on nothing else. */
  function NormValue(p: Platform, k: Key, v: Value): Value {
    match k
    case AccessProfile => Str(ProfileText(p, v))
    case Oidc(_) => Str(SettingText(p, v))
    case OidcProvisioning => Str(PolicyText(p, v))
    case OidcItems(l) => (match ItemsOf(p, l, v) case Some(items) => StrList(items) case None => v)
    case Duration(_) => (match ParseInt(p, v) case Some(n) => Int(n) case None => v)
    case Cidrs(_) => StrList(Networks(p, RawItems(p, v)))
    case DomainSuffixes => StrList(Suffixes(p, RawItems(p, v)))
    case Count(i) => Int(CountValue(p, i, v))
    case Flag(b) => Bool(CoerceBool(p, v, BoolFallback(b)))
    case AppName => Str(AppNameOf(p, v))
    case PreviewMb => Int(MbOr(p, v, 1))
    case RedactionRules => List(RulesOf(p, v))
    case _ => v
  }

  function CountOf(p: Platform, d: Config, i: IntKey): int {
    CountValue(p, i, Get(d, Count(i)))
  }

  /** The upper pool bound, raised to the lower one where it is below it. */
  function PoolMaxOf(p: Platform, d: Config): int {
    var lo, hi := CountOf(p, d, PoolMin), CountOf(p, d, PoolMax);
    if hi < lo then (if lo != 0 then lo else 1) else hi
  }

  /** The export row limit, never above the maximum. */
  function AuditRowsOf(p: Platform, d: Config): int {
    var rows := CountOf(p, d, AuditExportMaxRows);
    if rows > AUDIT_EXPORT_MAX_ROWS then AUDIT_EXPORT_MAX_ROWS else rows
  }

  /** The integer finally stored. */
  function FinalCount(p: Platform, d: Config, i: IntKey): int {
    if i == PoolMax then PoolMaxOf(p, d) else if i == AuditExportMaxRows then AuditRowsOf(p, d) else CountOf(p, d, i)
  }

  /** An integer or flag as finally stored, any other key as it is. */
  function NumberEntry(p: Platform, d: Config, k: Key): Value {
    match k
    case Count(i) => Int(FinalCount(p, d, i))
    case Flag(b) => Bool(CoerceBool(p, Get(d, k), BoolFallback(b)))
    case _ => Get(d, k)
  }

  /** n * 1024 * 1024 */
  function Mib(n: int): int {
    n * 1048576
  }

  /** Whole MiB that hold the bytes. */
  function CeilMib(bytes: int): int {
    (bytes + 1048575) / 1048576
  }

  /** The source of the MB limit, which decides whether bytes or MB rule. */
  function MbSource(sources: Sources): string {
    if FullOutputMb in sources then sources[FullOutputMb] else Layers.DEFAULT_SOURCE
  }

  /** The size settings as read: the byte limit if one is given, the MB limit
      if it can be read, and the preview limit. */
  datatype Limits = Limits(bytes: Option<int>, mb: Option<int>, preview: int)

  function BytesOf(p: Platform, v: Value): Option<int> {
    if v == Null then None
    else
      match PlainInt(p, v)
      case Some(n) => Some(Max(0, n))
      case None => Some(0)
  }

  function LimitsOf(p: Platform, d: Config): Limits {
    Limits(BytesOf(p, Get(d, FullOutputBytes)), CoerceMb(p, Get(d, FullOutputMb)), MbOr(p, Get(d, PreviewMb), 1))
  }

  /** A given byte limit rules unless the MB limit was overridden. */
  predicate BytesRule(l: Limits, mbSource: string) {
    l.bytes.Some? && (l.mb.None? || mbSource == Layers.DEFAULT_SOURCE)
  }

  /** The full-output limit in MB and in bytes. */
  function FullOutput(l: Limits, mbSource: string): (int, int) {
    if BytesRule(l, mbSource) then (CeilMib(l.bytes.value), l.bytes.value)
    else
      var mb := if l.mb.Some? then l.mb.value else 5;
      (mb, Mib(mb))
  }

  function NormAt(p: Platform, d: Config, mbSource: string, k: Key): Value {
    match k
    case Count(i) => Int(FinalCount(p, d, i))
    case FullOutputMb => Int(FullOutput(LimitsOf(p, d), mbSource).0)
    case FullOutputBytes => Int(FullOutput(LimitsOf(p, d), mbSource).1)
    case PreviewBytes => Int(Mib(LimitsOf(p, d).preview))
    case _ => NormValue(p, k, Get(d, k))
  }

  function Normalized(p: Platform, d: Config, mbSource: string): Config {
    map k | k in d.Keys + {FullOutputBytes, PreviewBytes} :: NormAt(p, d, mbSource, k)
  }

  function SourceOr(sources: Sources, key: Key, fallback: string): string {
    if key in sources then sources[key] else fallback
  }

  /** What normalization leaves in the provenance mapping. */
  function NormSources(l: Limits, sources: Sources): Sources {
    var sized :=
      if BytesRule(l, MbSource(sources)) then
        var s := SourceOr(sources, FullOutputBytes, "legacy full_output_max_bytes");
        sources[FullOutputMb := s][FullOutputBytes := s]
      else
        sources[FullOutputBytes := SourceOr(sources, FullOutputMb, "derived from full_output_max_mb")];
    sized[PreviewBytes := SourceOr(sized, PreviewMb, "derived from output_preview_max_mb")]
  }

  // ------------------------------------------------------------ what is rejected

  datatype Rule =
    | UnsupportedProfile
    | UnsupportedProvisioning
    | NotStrings(l: OidcList)
    | OpenidMissing
    | Repeated(l: OidcList)
    | ProviderRequired
    | SettingMissing(setting: OidcSetting)
    | UnreadableIssuer
    | UnreadableRedirect
    | InvalidIssuer
    | InvalidRedirect
    | AllowlistRequired
    | AllowlistUnused
    | ProvisioningDisallowed
    | BadDuration(duration: DurationKey)
    | IdleTooLong

  /** The access settings as normalization reads them; `None` is a list or a
      duration that could not be read. */
  datatype Access = Access(
    profile: string, policy: string,
    issuer: string, clientId: string, clientSecret: string, redirectUri: string, caBundle: string,
    scopes: Option<seq<string>>, subjects: Option<seq<string>>,
    idle: Option<int>, absolute: Option<int>, reauth: Option<int>)
  {
    function Setting(s: OidcSetting): string {
      match s
      case Issuer => issuer
      case ClientId => clientId
      case ClientSecret => clientSecret
      case RedirectUri => redirectUri
      case CaBundle => caBundle
    }

    function Items(l: OidcList): Option<seq<string>> {
      if l == Scopes then scopes else subjects
    }

    function Length(k: DurationKey): Option<int> {
      match k
      case IdleMinutes => idle
      case AbsoluteHours => absolute
      case ReauthMinutes => reauth
    }

    /** Some provider setting is given. */
    predicate Configured() {
      issuer != "" || clientId != "" || clientSecret != "" || redirectUri != "" || caBundle != ""
    }
  }

  function AccessOf(p: Platform, d: Config): Access {
    Access(
      ProfileText(p, Get(d, AccessProfile)), PolicyText(p, Get(d, OidcProvisioning)),
      SettingText(p, Get(d, Oidc(Issuer))), SettingText(p, Get(d, Oidc(ClientId))),
      SettingText(p, Get(d, Oidc(ClientSecret))), SettingText(p, Get(d, Oidc(RedirectUri))),
      SettingText(p, Get(d, Oidc(CaBundle))),
      ItemsOf(p, Scopes, Get(d, OidcItems(Scopes))), ItemsOf(p, AllowedSubjects, Get(d, OidcItems(AllowedSubjects))),
      ParseInt(p, Get(d, Duration(IdleMinutes))), ParseInt(p, Get(d, Duration(AbsoluteHours))),
      ParseInt(p, Get(d, Duration(ReauthMinutes))))
  }

  predicate Violates(p: Platform, a: Access, rule: Rule) {
    match rule
    case UnsupportedProfile => a.profile !in PROFILES
    case UnsupportedProvisioning => a.policy !in POLICIES
    case NotStrings(l) => a.Items(l).None?
    case OpenidMissing => a.scopes.Some? && "openid" !in a.scopes.value
    case Repeated(l) => a.Items(l).Some? && !Distinct(a.Items(l).value)
    case ProviderRequired => a.profile in {"oidc_required", "mixed"} && !a.Configured()
    case SettingMissing(s) => a.Configured() && s != CaBundle && a.Setting(s) == ""
    case UnreadableIssuer => a.Configured() && p.issuer(a.issuer).Unreadable?
    case UnreadableRedirect => a.Configured() && p.redirect(a.redirectUri).Unreadable?
    case InvalidIssuer => a.Configured() && p.issuer(a.issuer).Unfit?
    case InvalidRedirect => a.Configured() && p.redirect(a.redirectUri).Unfit?
    case AllowlistRequired => a.policy == "allowlist" && a.subjects == Some([])
    case AllowlistUnused => a.policy != "allowlist" && a.subjects.Some? && a.subjects.value != []
    case ProvisioningDisallowed => a.policy != "disabled" && (!a.Configured() || a.profile == "token_required")
    case BadDuration(k) =>
      a.Length(k).None? || !(DurationBounds(k).0 <= a.Length(k).value <= DurationBounds(k).1)
    case IdleTooLong => a.idle.Some? && a.absolute.Some? && a.idle.value * 60 > a.absolute.value * 3600
  }

  ghost predicate Accepted(p: Platform, a: Access) {
    forall rule :: !Violates(p, a, rule)
  }

  /** The value of a key makes its coercer escape. */
  predicate Escapes(p: Platform, k: Key, v: Value) {
    if k.Count? || k.Duration? then IntEscapes(p, v)
    else if k.FullOutputMb? || k.PreviewMb? then MbEscapes(p, v)
    else k.RedactionRules? && RulesEscape(p, v)
  }

  ghost predicate NoneEscapes(p: Platform, d: Config) {
    forall k {:trigger Escapes(p, k, d[k])} | k in d :: !Escapes(p, k, d[k])
  }

  /** What stops the pass: a rule that rejects, or a value that escapes its coercer. */
  datatype Stop = Rejects(rule: Rule) | Escaped(key: Key)

  predicate Fails(p: Platform, d: Config, stop: Stop) {
    match stop
    case Rejects(rule) => Violates(p, AccessOf(p, d), rule)
    case Escaped(k) => Escapes(p, k, Get(d, k))
  }

  /** The order in which the source checks. The forgiving integers are a set, in no order. */
  function RuleRank(rule: Rule): nat {
    match rule
    case UnsupportedProfile => 0
    case UnsupportedProvisioning => 1
    case NotStrings(l) => if l == Scopes then 2 else 3
    case OpenidMissing => 4
    case Repeated(l) => if l == Scopes then 5 else 6
    case ProviderRequired => 7
    case SettingMissing(Issuer) => 8
    case SettingMissing(ClientId) => 9
    case SettingMissing(ClientSecret) => 10
    case SettingMissing(_) => 11
    case UnreadableIssuer => 12
    case UnreadableRedirect => 13
    case InvalidIssuer => 14
    case InvalidRedirect => 15
    case AllowlistRequired => 16
    case AllowlistUnused => 17
    case ProvisioningDisallowed => 18
    case BadDuration(t) => DurationRank(t) + 1
    case IdleTooLong => 25
  }

  function DurationRank(t: DurationKey): nat {
    match t
    case IdleMinutes => 19
    case AbsoluteHours => 21
    case ReauthMinutes => 23
  }

  function Rank(stop: Stop): nat {
    match stop
    case Rejects(rule) => RuleRank(rule)
    case Escaped(Duration(t)) => DurationRank(t)
    case Escaped(Count(_)) => 26
    case Escaped(FullOutputMb) => 27
    case Escaped(PreviewMb) => 28
    case Escaped(_) => 29
  }

  /** No check before the given place fails. */
  ghost predicate PassesTo(p: Platform, d: Config, n: nat) {
    forall stop :: Rank(stop) < n ==> !Fails(p, d, stop)
  }

  ghost predicate RulesTo(p: Platform, a: Access, n: nat) {
    forall rule :: RuleRank(rule) < n ==> !Violates(p, a, rule)
  }

  datatype Outcome<+T> = Ok(value: T) | Stopped(stop: Stop)

  // ------------------------------------------------------------- the source's pass

  /** The loop over the forgiving integers. */
  method CoerceCounts(p: Platform, d: Config) returns (data: Config)
    requires forall i :: Count(i) in d
    ensures data.Keys == d.Keys
    ensures forall k | k in d :: data[k] == if k.Count? then Int(CountValue(p, k.count, d[k])) else d[k]
  {
    hide CoerceInt, INT_KEYS;
    data := d;
    for n := 0 to |INT_KEYS|
      invariant data.Keys == d.Keys
      invariant forall k | k in d ::
                  data[k] == if k.Count? && k.count in INT_KEYS[..n] then Int(CountValue(p, k.count, d[k])) else d[k]
    {
      var k := Count(INT_KEYS[n]);
      var (fallback, minimum) := IntRule(INT_KEYS[n]);
      data := data[k := Int(CoerceInt(p, d[k], fallback, minimum))];
      assert INT_KEYS[..n + 1] == INT_KEYS[..n] + [INT_KEYS[n]];
    }
    assert INT_KEYS[..|INT_KEYS|] == INT_KEYS;
    forall i: IntKey ensures i in INT_KEYS { AllIntKeys(i); }
  }

  /** The loop over the forgiving flags. */
  method CoerceFlags(p: Platform, d: Config) returns (data: Config)
    requires forall b :: Flag(b) in d
    ensures data.Keys == d.Keys
    ensures forall k | k in d ::
              data[k] == if k.Flag? then Bool(CoerceBool(p, d[k], BoolFallback(k.flag))) else d[k]
  {
    hide CoerceBool, BoolFallback, BOOL_KEYS;
    data := d;
    for n := 0 to |BOOL_KEYS|
      invariant data.Keys == d.Keys
      invariant forall k | k in d ::
                  data[k] == if k.Flag? && k.flag in BOOL_KEYS[..n]
                             then Bool(CoerceBool(p, d[k], BoolFallback(k.flag))) else d[k]
    {
      var k := Flag(BOOL_KEYS[n]);
      data := data[k := Bool(CoerceBool(p, d[k], BoolFallback(BOOL_KEYS[n])))];
      assert BOOL_KEYS[..n + 1] == BOOL_KEYS[..n] + [BOOL_KEYS[n]];
    }
    assert BOOL_KEYS[..|BOOL_KEYS|] == BOOL_KEYS;
    forall b: BoolKey ensures b in BOOL_KEYS { AllBoolKeys(b); }
  }

  /** Profile, policy and the two lists. */
  method CheckTexts(p: Platform, a: Access) returns (broken: Option<Rule>)
    ensures broken.Some? ==> Violates(p, a, broken.value) && RulesTo(p, a, RuleRank(broken.value)) && RuleRank(broken.value) < 7
    ensures broken.None? ==> a.scopes.Some? && a.subjects.Some? && RulesTo(p, a, 7)
  {
    if a.profile !in PROFILES { return Some(UnsupportedProfile); }
    if a.policy !in POLICIES { return Some(UnsupportedProvisioning); }
    if a.scopes.None? { return Some(NotStrings(Scopes)); }
    if a.subjects.None? { return Some(NotStrings(AllowedSubjects)); }
    if "openid" !in a.scopes.value { return Some(OpenidMissing); }
    if !Distinct(a.scopes.value) { return Some(Repeated(Scopes)); }
    if !Distinct(a.subjects.value) { return Some(Repeated(AllowedSubjects)); }
    return None;
  }

  /** The rules about the provider's own settings. */
  method CheckSettings(p: Platform, a: Access) returns (broken: Option<Rule>)
    requires RulesTo(p, a, 8)
    ensures broken.Some? ==> Violates(p, a, broken.value) && RulesTo(p, a, RuleRank(broken.value)) && RuleRank(broken.value) < 16
    ensures broken.None? ==> RulesTo(p, a, 16)
  {
    hide PROFILES, POLICIES, Distinct;
    if !a.Configured() { return None; }
    if a.issuer == "" { return Some(SettingMissing(Issuer)); }
    if a.clientId == "" { return Some(SettingMissing(ClientId)); }
    if a.clientSecret == "" { return Some(SettingMissing(ClientSecret)); }
    if a.redirectUri == "" { return Some(SettingMissing(RedirectUri)); }
    var issuer, redirect := p.issuer(a.issuer), p.redirect(a.redirectUri);
    if issuer.Unreadable? { return Some(UnreadableIssuer); }
    if redirect.Unreadable? { return Some(UnreadableRedirect); }
    if issuer.Unfit? { return Some(InvalidIssuer); }
    if redirect.Unfit? { return Some(InvalidRedirect); }
    return None;
  }

  /** The rules that couple profile, provider, policy and allowlist. */
  method CheckProvider(p: Platform, a: Access) returns (broken: Option<Rule>)
    requires a.subjects.Some? && RulesTo(p, a, 7)
    ensures broken.Some? ==> Violates(p, a, broken.value) && RulesTo(p, a, RuleRank(broken.value)) && RuleRank(broken.value) < 19
    ensures broken.None? ==> RulesTo(p, a, 19)
  {
    hide PROFILES, POLICIES, Distinct;
    if a.profile in {"oidc_required", "mixed"} && !a.Configured() { return Some(ProviderRequired); }
    broken := CheckSettings(p, a);
    if broken.Some? { return; }
    if a.policy == "allowlist" && a.subjects.value == [] { return Some(AllowlistRequired); }
    if a.policy != "allowlist" && a.subjects.value != [] { return Some(AllowlistUnused); }
    if a.policy != "disabled" && (!a.Configured() || a.profile == "token_required") { return Some(ProvisioningDisallowed); }
    return None;
  }

  /** A duration escapes, is out of bounds, or passes. */
  function DurationStop(p: Platform, d: Config, t: DurationKey): Option<Stop> {
    if Escapes(p, Duration(t), Get(d, Duration(t))) then Some(Escaped(Duration(t)))
    else if Violates(p, AccessOf(p, d), BadDuration(t)) then Some(Rejects(BadDuration(t)))
    else None
  }

  /** The loop over the durations, then idle against absolute. */
  method CheckDurations(p: Platform, d: Config, a: Access) returns (stop: Option<Stop>)
    requires a == AccessOf(p, d) && RulesTo(p, a, 19)
    ensures stop.Some? ==> Fails(p, d, stop.value) && PassesTo(p, d, Rank(stop.value)) && Rank(stop.value) < 26
    ensures stop.None? ==> PassesTo(p, d, 26)
  {
    hide AccessOf, PROFILES, POLICIES, Distinct, PassesTo, RulesTo, IntEscapes;
    for i := 0 to |DURATIONS|
      invariant forall j | 0 <= j < i :: DurationStop(p, d, DURATIONS[j]).None?
    {
      var (minimum, maximum) := DurationBounds(DURATIONS[i]);
      var parsed := a.Length(DURATIONS[i]);
      if IntEscapes(p, Get(d, Duration(DURATIONS[i]))) {
        DurationsTo(p, d, i, DurationRank(DURATIONS[i]));
        return Some(Escaped(Duration(DURATIONS[i])));
      }
      if parsed.None? || !(minimum <= parsed.value <= maximum) {
        DurationsTo(p, d, i, DurationRank(DURATIONS[i]) + 1);
        return Some(Rejects(BadDuration(DURATIONS[i])));
      }
    }
    DurationsTo(p, d, 3, 25);
    var idle, absolute := a.Length(IdleMinutes), a.Length(AbsoluteHours);
    assert DurationStop(p, d, DURATIONS[0]).None? && DurationStop(p, d, DURATIONS[1]).None?;
    if idle.value * 60 > absolute.value * 3600 { return Some(Rejects(IdleTooLong)); }
    assert !Violates(p, a, IdleTooLong);
    DurationsTo(p, d, 3, 26);
    return None;
  }

  /** What the durations checked so far leave to fail. */
  lemma DurationsTo(p: Platform, d: Config, i: nat, n: nat)
    requires RulesTo(p, AccessOf(p, d), 19) && i <= 3 && forall j | 0 <= j < i :: DurationStop(p, d, DURATIONS[j]).None?
    requires n <= 19 + 2 * i || (i < 3 && n == 20 + 2 * i && !IntEscapes(p, Get(d, Duration(DURATIONS[i]))))
             || (i == 3 && n == 26 && !Violates(p, AccessOf(p, d), IdleTooLong))
    ensures PassesTo(p, d, n)
  {
    hide AccessOf, IntEscapes, PROFILES, POLICIES, Distinct;
    forall stop | Rank(stop) < n ensures !Fails(p, d, stop) {
      if stop.Rejects? && RuleRank(stop.rule) < 19 {
        assert !Violates(p, AccessOf(p, d), stop.rule);
      } else if stop == Rejects(IdleTooLong) {
      } else {
        assert (stop.Rejects? && stop.rule.BadDuration?) || (stop.Escaped? && stop.key.Duration?);
        var t := if stop.Rejects? then stop.rule.duration else stop.key.duration;
        AllDurations(t);
        var j :| 0 <= j < 3 && DURATIONS[j] == t;
        assert DurationRank(t) == 19 + 2 * j;
        if j < i { assert DurationStop(p, d, DURATIONS[j]).None?; }
      }
    }
  }

  lemma AllDurations(k: DurationKey)
    ensures k in DURATIONS
  {
    match k
    case IdleMinutes => assert DURATIONS[0] == k;
    case AbsoluteHours => assert DURATIONS[1] == k;
    case ReauthMinutes => assert DURATIONS[2] == k;
  }

  /** The access checks, in the source's order. */
  method CheckAccess(p: Platform, d: Config, a: Access) returns (stop: Option<Stop>)
    requires a == AccessOf(p, d)
    ensures stop.Some? ==> Fails(p, d, stop.value) && PassesTo(p, d, Rank(stop.value)) && Rank(stop.value) < 26
    ensures stop.None? ==> PassesTo(p, d, 26)
  {
    hide AccessOf, Violates;
    var broken := CheckTexts(p, a);
    if broken.None? { broken := CheckProvider(p, a); }
    if broken.Some? {
      RulesAre(p, d, RuleRank(broken.value));
      return Some(Rejects(broken.value));
    }
    stop := CheckDurations(p, d, a);
  }

  lemma RulesAre(p: Platform, d: Config, n: nat)
    requires n <= 19 && RulesTo(p, AccessOf(p, d), n)
    ensures PassesTo(p, d, n)
  {
    hide AccessOf, Violates;
    forall stop | Rank(stop) < n ensures !Fails(p, d, stop) { assert stop.Rejects?; }
  }

  /** The forgiving integers, in whatever order, the two sizes, the redaction rules. */
  method CheckForgiving(p: Platform, d: Config) returns (stop: Option<Stop>)
    requires PassesTo(p, d, 26)
    ensures stop.Some? ==> Fails(p, d, stop.value) && PassesTo(p, d, Rank(stop.value))
    ensures stop.None? ==> forall s :: !Fails(p, d, s)
  {
    hide AccessOf, Violates, INT_KEYS, IntEscapes, MbEscapes, RulesEscape;
    for n := 0 to |INT_KEYS|
      invariant forall j | 0 <= j < n :: !Escapes(p, Count(INT_KEYS[j]), Get(d, Count(INT_KEYS[j])))
    {
      if IntEscapes(p, Get(d, Count(INT_KEYS[n]))) { return Some(Escaped(Count(INT_KEYS[n]))); }
    }
    forall i ensures !Escapes(p, Count(i), Get(d, Count(i))) {
      AllIntKeys(i);
      var j :| 0 <= j < |INT_KEYS| && INT_KEYS[j] == i;
    }
    RankedLast();
    if MbEscapes(p, Get(d, FullOutputMb)) { return Some(Escaped(FullOutputMb)); }
    if MbEscapes(p, Get(d, PreviewMb)) { return Some(Escaped(PreviewMb)); }
    var rules := NormalizeRedactionRules(p, Get(d, RedactionRules));
    if rules.None? { return Some(Escaped(RedactionRules)); }
    return None;
  }

  lemma RankedLast()
    ensures forall s :: Rank(s) < 26 || (s.Escaped? && s.key.Count?) || s == Escaped(FullOutputMb) || s == Escaped(PreviewMb)
                        || (s.Escaped? && Rank(s) == 29)
    ensures forall s: Stop :: s.Rejects? ==> Rank(s) < 26
  {
  }

  predicate AccessKey(k: Key) {
    k.AccessProfile? || k.Oidc? || k.OidcProvisioning? || k.OidcItems? || k.Duration?
  }

  predicate Readable(a: Access) {
    a.scopes.Some? && a.subjects.Some? && a.idle.Some? && a.absolute.Some? && a.reauth.Some?
  }

  /** The entries stored for the access keys. */
  function AccessEntries(a: Access): Config
    requires Readable(a)
  {
    map[AccessProfile := Str(a.profile), OidcProvisioning := Str(a.policy),
        Oidc(Issuer) := Str(a.issuer), Oidc(ClientId) := Str(a.clientId), Oidc(ClientSecret) := Str(a.clientSecret),
        Oidc(RedirectUri) := Str(a.redirectUri), Oidc(CaBundle) := Str(a.caBundle),
        OidcItems(Scopes) := StrList(a.scopes.value), OidcItems(AllowedSubjects) := StrList(a.subjects.value),
        Duration(IdleMinutes) := Int(a.idle.value), Duration(AbsoluteHours) := Int(a.absolute.value),
        Duration(ReauthMinutes) := Int(a.reauth.value)]
  }

  lemma AccessEntriesKeys(a: Access, k: Key)
    requires Readable(a)
    ensures k in AccessEntries(a) <==> AccessKey(k)
  {
    match k
    case Oidc(s) => match s { case Issuer => case ClientId => case ClientSecret => case RedirectUri => case CaBundle => }
    case OidcItems(l) => match l { case Scopes => case AllowedSubjects => }
    case Duration(t) => match t { case IdleMinutes => case AbsoluteHours => case ReauthMinutes => }
    case _ =>
  }

  lemma AccessEntriesAt(a: Access, k: Key)
    requires Readable(a) && AccessKey(k)
    ensures k in AccessEntries(a)
    ensures AccessEntries(a)[k] ==
            match k
            case AccessProfile => Str(a.profile)
            case OidcProvisioning => Str(a.policy)
            case Oidc(s) => Str(a.Setting(s))
            case OidcItems(l) => StrList(a.Items(l).value)
            case Duration(t) => Int(a.Length(t).value)
  {
    AccessEntriesKeys(a, k);
    match k
    case Oidc(s) => match s { case Issuer => case ClientId => case ClientSecret => case RedirectUri => case CaBundle => }
    case OidcItems(l) => match l { case Scopes => case AllowedSubjects => }
    case Duration(t) => match t { case IdleMinutes => case AbsoluteHours => case ReauthMinutes => }
    case _ =>
  }

  lemma AccessEntriesNormal(p: Platform, d: Config, k: Key)
    requires Readable(AccessOf(p, d)) && AccessKey(k)
    ensures k in AccessEntries(AccessOf(p, d)) && AccessEntries(AccessOf(p, d))[k] == NormValue(p, k, Get(d, k))
  {
    hide ProfileText, PolicyText, SettingText, ItemsOf, ParseInt, Texts, StrList, Clean;
    AccessEntriesAt(AccessOf(p, d), k);
    if k.Oidc? { assert AccessOf(p, d).Setting(k.setting) == SettingText(p, Get(d, k)); }
  }

  /** Integers, flags, the pool bounds and the export row limit. */
  method NormalizeNumbers(p: Platform, d: Config) returns (data: Config)
    requires (forall i :: Count(i) in d) && forall b :: Flag(b) in d
    ensures data.Keys == d.Keys
    ensures forall k | k in d :: data[k] == NumberEntry(p, d, k)
  {
    var counted := CoerceCounts(p, d);
    data := CoerceFlags(p, counted);
    var lo, hi := data[Count(PoolMin)].i, data[Count(PoolMax)].i;
    if hi < lo {
      data := data[Count(PoolMax) := Int(if lo != 0 then lo else 1)];
    }
    var rows := data[Count(AuditExportMaxRows)].i;
    if rows > AUDIT_EXPORT_MAX_ROWS {
      data := data[Count(AuditExportMaxRows) := Int(AUDIT_EXPORT_MAX_ROWS)];
    }
    assert lo == CountOf(p, d, PoolMin) && hi == CountOf(p, d, PoolMax) && rows == CountOf(p, d, AuditExportMaxRows);
    assert data[Count(PoolMax)] == Int(PoolMaxOf(p, d)) && data[Count(AuditExportMaxRows)] == Int(AuditRowsOf(p, d));
    forall k | k in d ensures data[k] == NumberEntry(p, d, k) {
      if k.Count? && k.count !in {PoolMax, AuditExportMaxRows} { assert data[k] == counted[k]; }
    }
  }

  /** The normalized lists, name and rules. */
  datatype Lists = Lists(aiCidrs: seq<string>, inputCidrs: seq<string>, suffixes: seq<string>, name: string, rules: seq<Value>) {
    function Entry(k: Key): Value {
      match k
      case Cidrs(c) => StrList(if c == AiBaseUrl then aiCidrs else inputCidrs)
      case DomainSuffixes => StrList(suffixes)
      case AppName => Str(name)
      case _ => List(rules)
    }
  }

  function ListsOf(p: Platform, d: Config): Lists {
    Lists(Networks(p, RawItems(p, Get(d, Cidrs(AiBaseUrl)))), Networks(p, RawItems(p, Get(d, Cidrs(RestrictedInput)))),
          Suffixes(p, RawItems(p, Get(d, DomainSuffixes))), AppNameOf(p, Get(d, AppName)),
          RulesOf(p, Get(d, RedactionRules)))
  }

  function ListEntries(l: Lists): Config {
    map[Cidrs(AiBaseUrl) := StrList(l.aiCidrs), Cidrs(RestrictedInput) := StrList(l.inputCidrs),
        DomainSuffixes := StrList(l.suffixes), AppName := Str(l.name), RedactionRules := List(l.rules)]
  }

  predicate ListKey(k: Key) {
    k.Cidrs? || k.DomainSuffixes? || k.AppName? || k.RedactionRules?
  }

  lemma ListEntriesAt(l: Lists, k: Key)
    ensures k in ListEntries(l) <==> ListKey(k)
    ensures ListKey(k) ==> ListEntries(l)[k] == l.Entry(k)
  {
    if k.Cidrs? { match k.cidr { case AiBaseUrl => case RestrictedInput => } }
  }

  lemma ListEntriesNormal(p: Platform, d: Config, k: Key)
    requires ListKey(k)
    ensures k in ListEntries(ListsOf(p, d)) && ListEntries(ListsOf(p, d))[k] == NormValue(p, k, Get(d, k))
  {
    hide Networks, RawItems, Suffixes, AppNameOf, RulesOf, StrList, ListEntries;
    ListEntriesAt(ListsOf(p, d), k);
    if k.Cidrs? { match k.cidr { case AiBaseUrl => case RestrictedInput => } }
  }

  method NormalizeLists(p: Platform, d: Config) returns (l: Lists)
    requires Complete(d) && !RulesEscape(p, d[RedactionRules])
    ensures l == ListsOf(p, d)
  {
    hide RulesEscape;
    var aiCidrs, _ := NormalizeCidrList(p, d[Cidrs(AiBaseUrl)]);
    var inputCidrs, _ := NormalizeCidrList(p, d[Cidrs(RestrictedInput)]);
    var suffixes := NormalizeDomainSuffixes(p, d[DomainSuffixes]);
    var rules := NormalizeRedactionRules(p, d[RedactionRules]);
    l := Lists(aiCidrs, inputCidrs, suffixes, AppNameOf(p, d[AppName]), rules.value);
  }

  predicate SizeKey(k: Key) {
    k.FullOutputMb? || k.FullOutputBytes? || k.PreviewMb? || k.PreviewBytes?
  }

  /** The entries stored for the size keys. */
  function SizeEntries(l: Limits, mbSource: string): Config {
    map[FullOutputMb := Int(FullOutput(l, mbSource).0), FullOutputBytes := Int(FullOutput(l, mbSource).1),
        PreviewMb := Int(l.preview), PreviewBytes := Int(Mib(l.preview))]
  }

  /** The two size limits. */
  method NormalizeSizes(d: Config, l: Limits, sources: Sources) returns (data: Config, recorded: Sources)
    ensures data == d + SizeEntries(l, MbSource(sources))
    ensures recorded == NormSources(l, sources)
  {
    data, recorded := d, sources;
    var mbSource := MbSource(recorded);
    if l.bytes.Some? && (l.mb.None? || mbSource == Layers.DEFAULT_SOURCE) {
      data := data[FullOutputMb := Int(CeilMib(l.bytes.value))][FullOutputBytes := Int(l.bytes.value)];
      var source := SourceOr(recorded, FullOutputBytes, "legacy full_output_max_bytes");
      recorded := recorded[FullOutputMb := source][FullOutputBytes := source];
    } else {
      var limit := if l.mb.Some? then l.mb.value else 5;
      data := data[FullOutputMb := Int(limit)][FullOutputBytes := Int(Mib(limit))];
      recorded := recorded[FullOutputBytes := SourceOr(recorded, FullOutputMb, "derived from full_output_max_mb")];
    }
    data := data[PreviewMb := Int(l.preview)][PreviewBytes := Int(Mib(l.preview))];
    recorded := recorded[PreviewBytes := SourceOr(recorded, PreviewMb, "derived from output_preview_max_mb")];
  }

  /** The whole pass: it stops exactly when some rule is violated or some value
      escapes, at the first check that fails; otherwise it returns the normal form. */
  method NormalizeConfigData(p: Platform, d: Config, sources: Sources) returns (r: Outcome<Config>, recorded: Sources)
    requires Complete(d)
    ensures r.Ok? <==> Accepted(p, AccessOf(p, d)) && NoneEscapes(p, d)
    ensures r.Stopped? ==> Fails(p, d, r.stop) && PassesTo(p, d, Rank(r.stop))
    ensures r.Ok? ==> r.value == Normalized(p, d, MbSource(sources)) && recorded == NormSources(LimitsOf(p, d), sources)
  {
    hide AccessOf, Violates, Normalized, NormSources, LimitsOf, MbSource, Complete;
    recorded := sources;
    var a := AccessOf(p, d);
    var stop := CheckAccess(p, d, a);
    if stop.None? { stop := CheckForgiving(p, d); }
    if stop.Some? {
      StopsPass(p, d, stop.value);
      return Stopped(stop.value), recorded;
    }
    PassesAll(p, d);
    AcceptedReads(p, a);
    RulesPass(p, d);
    var data;
    data, recorded := NormalizeAccepted(p, d, a, sources);
    return Ok(data), recorded;
  }

  lemma StopsPass(p: Platform, d: Config, stop: Stop)
    requires Complete(d) && Fails(p, d, stop)
    ensures !(Accepted(p, AccessOf(p, d)) && NoneEscapes(p, d))
  {
    hide AccessOf, Violates, IntEscapes, MbEscapes, RulesEscape;
    if stop.Escaped? {
      assert stop.key in d;
      assert Escapes(p, stop.key, d[stop.key]);
    }
  }

  lemma RulesPass(p: Platform, d: Config)
    requires Complete(d) && NoneEscapes(p, d)
    ensures !RulesEscape(p, d[RedactionRules])
  {
    hide RulesEscape;
    assert !Escapes(p, RedactionRules, d[RedactionRules]);
  }

  lemma PassesAll(p: Platform, d: Config)
    requires forall s :: !Fails(p, d, s)
    ensures Accepted(p, AccessOf(p, d)) && NoneEscapes(p, d)
  {
    hide AccessOf, Violates, IntEscapes, MbEscapes, RulesEscape;
    forall rule ensures !Violates(p, AccessOf(p, d), rule) { assert !Fails(p, d, Rejects(rule)); }
    forall k | k in d ensures !Escapes(p, k, d[k]) { assert !Fails(p, d, Escaped(k)); }
  }

  method NormalizeAccepted(p: Platform, d: Config, a: Access, sources: Sources) returns (data: Config, recorded: Sources)
    requires Complete(d) && a == AccessOf(p, d) && Readable(a) && !RulesEscape(p, d[RedactionRules])
    ensures data == Normalized(p, d, MbSource(sources)) && recorded == NormSources(LimitsOf(p, d), sources)
  {
    var stored := StoreEntries(p, d, a);
    SameKeysComplete(d, stored);
    var counted := NormalizeNumbers(p, stored);
    data, recorded := NormalizeSizes(counted, LimitsOf(p, d), sources);
    Assembled(p, d, MbSource(sources), stored, counted);
  }

  lemma SameKeysComplete(d: Config, data: Config)
    requires Complete(d) && data.Keys == d.Keys
    ensures Complete(data)
  {
  }

  lemma Assembled(p: Platform, d: Config, mbSource: string, stored: Config, counted: Config)
    requires Complete(d) && stored.Keys == counted.Keys == d.Keys
    requires forall k | k in d :: stored[k] == if LaterKey(k) then d[k] else NormValue(p, k, d[k])
    requires forall k | k in stored :: counted[k] == NumberEntry(p, stored, k)
    ensures counted + SizeEntries(LimitsOf(p, d), mbSource) == Normalized(p, d, mbSource)
  {
    var data := counted + SizeEntries(LimitsOf(p, d), mbSource);
    NumbersFrom(p, d, stored);
    SizedKeys(counted, LimitsOf(p, d), mbSource);
    forall k | k in data ensures data[k] == NormAt(p, d, mbSource, k) {
      SizeAt(p, d, mbSource, k);
      if k in d && !SizeKey(k) { AssembledAt(p, d, mbSource, stored, k); }
    }
    NormalizedIs(p, d, mbSource, data);
  }

  lemma NormalizedIs(p: Platform, d: Config, mbSource: string, data: Config)
    requires data.Keys == d.Keys + {FullOutputBytes, PreviewBytes}
    requires forall k | k in data :: data[k] == NormAt(p, d, mbSource, k)
    ensures data == Normalized(p, d, mbSource)
  {
  }

  lemma SizedKeys(d: Config, l: Limits, mbSource: string)
    requires FullOutputMb in d && PreviewMb in d
    ensures (d + SizeEntries(l, mbSource)).Keys == d.Keys + {FullOutputBytes, PreviewBytes}
  {
    assert SizeEntries(l, mbSource).Keys == {FullOutputMb, FullOutputBytes, PreviewMb, PreviewBytes};
  }

  lemma AssembledAt(p: Platform, d: Config, mbSource: string, stored: Config, k: Key)
    requires Complete(d) && stored.Keys == d.Keys && k in d && !SizeKey(k)
    requires forall i :: FinalCount(p, stored, i) == FinalCount(p, d, i)
    requires stored[k] == if LaterKey(k) then d[k] else NormValue(p, k, d[k])
    ensures NumberEntry(p, stored, k) == NormAt(p, d, mbSource, k)
  {
    if k.Count? { assert FinalCount(p, stored, k.count) == FinalCount(p, d, k.count); }
    else { NormAtPlain(p, d, mbSource, k); }
  }

  predicate LaterKey(k: Key) {
    k.Count? || k.Flag? || SizeKey(k)
  }

  method StoreEntries(p: Platform, d: Config, a: Access) returns (stored: Config)
    requires Complete(d) && a == AccessOf(p, d) && Readable(a) && !RulesEscape(p, d[RedactionRules])
    ensures stored.Keys == d.Keys
    ensures forall k | k in d :: stored[k] == if LaterKey(k) then d[k] else NormValue(p, k, d[k])
  {
    var l := NormalizeLists(p, d);
    stored := d + ListEntries(l) + AccessEntries(a);
    StoredKeys(d, a, l);
    forall k | k in d && !LaterKey(k) ensures stored[k] == NormValue(p, k, d[k]) { StoredNormal(p, d, k); }
  }

  /** The numbers depend on their own keys only. */
  lemma NumbersFrom(p: Platform, d: Config, stored: Config)
    requires Complete(d) && stored.Keys == d.Keys && forall k | k in d && (k.Count? || k.Flag?) :: stored[k] == d[k]
    ensures forall i :: FinalCount(p, stored, i) == FinalCount(p, d, i)
  {
  }

  lemma SizeAt(p: Platform, d: Config, mbSource: string, k: Key)
    ensures k in SizeEntries(LimitsOf(p, d), mbSource) <==> SizeKey(k)
    ensures SizeKey(k) ==> SizeEntries(LimitsOf(p, d), mbSource)[k] == NormAt(p, d, mbSource, k)
  {
  }

  lemma NormAtPlain(p: Platform, d: Config, mbSource: string, k: Key)
    requires !SizeKey(k) && !k.Count?
    ensures NormAt(p, d, mbSource, k) == NormValue(p, k, Get(d, k))
  {
  }

  /** Storing the access and list entries touches exactly their keys. */
  lemma StoredAt(d: Config, a: Access, l: Lists, k: Key)
    requires Complete(d) && Readable(a)
    ensures var stored := d + ListEntries(l) + AccessEntries(a);
            && (k in stored <==> k in d)
            && (k in d ==> stored[k] == if AccessKey(k) && k in AccessEntries(a) then AccessEntries(a)[k]
                                        else if ListKey(k) && k in ListEntries(l) then ListEntries(l)[k] else d[k])
  {
    AccessEntriesKeys(a, k);
    ListEntriesAt(l, k);
  }

  lemma StoredKeys(d: Config, a: Access, l: Lists)
    requires Complete(d) && Readable(a)
    ensures var stored := d + ListEntries(l) + AccessEntries(a);
            stored.Keys == d.Keys && forall k | k in d && (k.Count? || k.Flag? || SizeKey(k)) :: stored[k] == d[k]
  {
    forall k ensures var stored := d + ListEntries(l) + AccessEntries(a);
                     && (k in stored <==> k in d)
                     && (k in d && (k.Count? || k.Flag? || SizeKey(k)) ==> stored[k] == d[k])
    {
      StoredAt(d, a, l, k);
    }
  }

  lemma StoredNormal(p: Platform, d: Config, k: Key)
    requires Complete(d) && Readable(AccessOf(p, d)) && k in d && !k.Count? && !k.Flag? && !SizeKey(k)
    ensures var stored := d + ListEntries(ListsOf(p, d)) + AccessEntries(AccessOf(p, d));
            k in stored && stored[k] == NormValue(p, k, Get(d, k))
  {
    StoredAt(d, AccessOf(p, d), ListsOf(p, d), k);
    if AccessKey(k) { AccessEntriesNormal(p, d, k); }
    else if ListKey(k) { ListEntriesNormal(p, d, k); }
  }

  lemma AcceptedReads(p: Platform, a: Access)
    requires Accepted(p, a)
    ensures Readable(a)
  {
    assert !Violates(p, a, NotStrings(Scopes)) && !Violates(p, a, NotStrings(AllowedSubjects));
    assert !Violates(p, a, BadDuration(IdleMinutes)) && !Violates(p, a, BadDuration(AbsoluteHours));
    assert !Violates(p, a, BadDuration(ReauthMinutes));
  }
}
