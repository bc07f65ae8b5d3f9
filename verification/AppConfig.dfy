/** The runtime configuration object: a validated model behind a mutable mapping,
    and what holds over every run of writes to it. */
module AppConfigs {
  import opened Values
  import opened Paths
  import opened Text
  import opened ConfigKeys
  import opened Coercion
  import opened Normalize
  import opened FixedPoints
  import opened Schema
  import Merge

  const RUNTIME_SOURCE := "runtime mutation"
  const OVERRIDE_SOURCE := "test overrides"

  // -------------------------------------------------------------- the state machine

  datatype State = State(model: Config, sources: Sources)

  /** Operations, on resolved keys. */
  datatype Op =
    | Set(key: Key, value: Value)
    | Delete(key: Key)
    | Clear
    | Override(overrides: Config)

  /** The key and every path inside its value. */
  function StampedKeys(k: Key, v: Value): set<Key> {
    {k} + set path | path in Flatten(v, Name(k)) :: Plain(path)
  }

  function Stamped(data: Config, source: string): Sources {
    map k | k in AllStamped(data) :: source
  }

  function AllStamped(data: Config): set<Key> {
    set k, stamped | k in data && stamped in StampedKeys(k, data[k]) :: stamped
  }

  /** The mapping that an operation tries to commit; none for a missing key. */
  function Proposal(s: State, op: Op): Option<Config> {
    match op
    case Set(key, value) => Some(s.model[key := value])
    case Delete(key) => if key in s.model then Some(s.model - {key}) else None
    case Clear => Some(map[])
    case Override(overrides) => Some(Laid(s.model, overrides))
  }

  /** One mapping laid over another. */
  function Laid(t: Config, o: Config): Config {
    map k | k in t.Keys + o.Keys :: if k !in o then t[k] else if k in t then Merge.Over(t[k], o[k]) else o[k]
  }

  /** The provenance that goes with it. Deleting and clearing leave it alone. */
  function NewSources(s: State, op: Op): Sources {
    match op
    case Set(key, value) => s.sources + Stamped(map[key := value], RUNTIME_SOURCE)
    case Override(overrides) => s.sources + Stamped(overrides, OVERRIDE_SOURCE)
    case _ => s.sources
  }

  /** What the operation commits, if it is accepted. */
  ghost function Commits(p: Platform, defaults: Config, s: State, op: Op): Option<Config> {
    match Proposal(s, op)
    case None => None
    case Some(data) => Attempt(p, defaults, data, MbSource(NewSources(s, op)))
  }

  /** A rejected operation leaves everything as it was. An override yields a new
      object; following it is following the newest object. */
  ghost function Step(p: Platform, defaults: Config, s: State, op: Op): State {
    match Commits(p, defaults, s, op)
    case Some(model) => State(model, NewSources(s, op))
    case None => s
  }

  ghost function Run(p: Platform, defaults: Config, s: State, ops: seq<Op>): State {
    if ops == [] then s else Step(p, defaults, Run(p, defaults, s, ops[..|ops| - 1]), ops[|ops| - 1])
  }

  // ------------------------------------------------------- the reachable invariant

  /** What a step leads to: the committed model, or the state as it was. */
  lemma StepCases(p: Platform, defaults: Config, s: State, op: Op)
    ensures var next := Step(p, defaults, s, op);
            || next == s
            || (&& Proposal(s, op).Some?
                && Attempt(p, defaults, Proposal(s, op).value, MbSource(NewSources(s, op))) == Some(next.model)
                && next.sources == NewSources(s, op))
  {
  }

  lemma StepGood(p: Platform, defaults: Config, s: State, op: Op)
    requires GoodSchema(defaults) && GoodModel(p, defaults, s.model)
    ensures GoodModel(p, defaults, Step(p, defaults, s, op).model)
  {
    StepCases(p, defaults, s, op);
    var next := Step(p, defaults, s, op);
    if next != s {
      AttemptGood(p, defaults, Proposal(s, op).value, MbSource(NewSources(s, op)));
    }
  }

  /** Every state reachable by writes, accepted or not, is a good model. */
  lemma {:induction false} ReachableGood(p: Platform, defaults: Config, s: State, ops: seq<Op>)
    requires GoodSchema(defaults) && GoodModel(p, defaults, s.model)
    ensures GoodModel(p, defaults, Run(p, defaults, s, ops).model)
    decreases |ops|
  {
    if ops != [] {
      ReachableGood(p, defaults, s, ops[..|ops| - 1]);
      StepGood(p, defaults, Run(p, defaults, s, ops[..|ops| - 1]), ops[|ops| - 1]);
    }
  }

  // ------------------------------------------------ what a good model says outright

  function TextAt(m: Config, k: Key): string {
    if k in m && m[k].Str? then m[k].s else ""
  }

  /** `_credential_sign_in_enabled` */
  predicate CredentialSignIn(m: Config) {
    TextAt(m, AccessProfile) in {"open", "token_required", "mixed"}
  }

  /** `_oidc_sign_in_enabled`, with the provider configured as `oidc.configured` reads it. */
  predicate OidcSignIn(m: Config) {
    && TextAt(m, AccessProfile) in {"open", "oidc_required", "mixed"}
    && TextAt(m, Oidc(Issuer)) != "" && TextAt(m, Oidc(ClientId)) != "" && TextAt(m, Oidc(ClientSecret)) != ""
  }

  /** A settled access key holds exactly what is read from it. */
  lemma AccessStored(p: Platform, m: Config)
    requires Settled(p, m)
    ensures var a := AccessOf(p, m);
            && m[AccessProfile] == Str(a.profile) && m[OidcProvisioning] == Str(a.policy)
            && (forall s :: m[Oidc(s)] == Str(a.Setting(s)))
  {
    hide Accepted, BoundsOk, SizesOk, SuffixesOk, ProfileText, PolicyText, SettingText, ItemsOf, ParseInt;
    assert NormValue(p, AccessProfile, m[AccessProfile]) == m[AccessProfile];
    assert NormValue(p, OidcProvisioning, m[OidcProvisioning]) == m[OidcProvisioning];
    forall s ensures m[Oidc(s)] == Str(AccessOf(p, m).Setting(s)) {
      assert NormValue(p, Oidc(s), m[Oidc(s)]) == m[Oidc(s)];
      match s { case Issuer => case ClientId => case ClientSecret => case RedirectUri => case CaBundle => }
    }
  }

  lemma ItemsRead(p: Platform, m: Config, l: OidcList)
    ensures AccessOf(p, m).Items(l) == ItemsOf(p, l, Get(m, OidcItems(l)))
  {
    match l { case Scopes => case AllowedSubjects => }
  }

  lemma LengthRead(p: Platform, m: Config, t: DurationKey)
    ensures AccessOf(p, m).Length(t) == ParseInt(p, Get(m, Duration(t)))
  {
    match t { case IdleMinutes => case AbsoluteHours => case ReauthMinutes => }
  }

  lemma ListsStored(p: Platform, m: Config, l: OidcList)
    requires Settled(p, m)
    ensures AccessOf(p, m).Items(l).Some? && m[OidcItems(l)] == StrList(AccessOf(p, m).Items(l).value)
  {
    hide Violates, Accepted, AccessOf, BoundsOk, SizesOk, SuffixesOk, StrList, ItemsOf, ProfileText, PolicyText, ParseInt;
    ReadsAccepted(p, m);
    ItemsRead(p, m, l);
    assert NormValue(p, OidcItems(l), m[OidcItems(l)]) == m[OidcItems(l)];
  }

  lemma DurationStored(p: Platform, m: Config, t: DurationKey)
    requires Settled(p, m)
    ensures AccessOf(p, m).Length(t).Some? && m[Duration(t)] == Int(AccessOf(p, m).Length(t).value)
  {
    hide Violates, Accepted, AccessOf, BoundsOk, SizesOk, SuffixesOk, ParseInt, ProfileText, PolicyText, ItemsOf;
    ReadsAccepted(p, m);
    LengthRead(p, m, t);
    assert NormValue(p, Duration(t), m[Duration(t)]) == m[Duration(t)];
  }

  /** Durations in bounds, idle never longer than absolute. */
  lemma DurationsHold(p: Platform, m: Config)
    requires Settled(p, m)
    ensures forall t :: m[Duration(t)].Int? && DurationBounds(t).0 <= m[Duration(t)].i <= DurationBounds(t).1
    ensures m[Duration(IdleMinutes)].i * 60 <= m[Duration(AbsoluteHours)].i * 3600
  {
    hide AccessOf, BoundsOk, SizesOk, SuffixesOk, NormValue;
    var a := AccessOf(p, m);
    forall t ensures m[Duration(t)].Int? && DurationBounds(t).0 <= m[Duration(t)].i <= DurationBounds(t).1 {
      DurationStored(p, m, t);
      assert !Violates(p, a, BadDuration(t));
    }
    DurationStored(p, m, IdleMinutes);
    DurationStored(p, m, AbsoluteHours);
    assert !Violates(p, a, IdleTooLong);
  }

  /** Pool bounds ordered, the upper one positive; the export limit between 1 and 200000. */
  lemma NumbersHold(p: Platform, m: Config)
    requires Settled(p, m)
    ensures NumberOk(m, PoolMin) && NumberOk(m, PoolMax) && NumberOk(m, AuditExportMaxRows)
    ensures m[Count(PoolMax)].i >= Max(1, m[Count(PoolMin)].i)
    ensures 1 <= m[Count(AuditExportMaxRows)].i <= 200000
  {
    assert BoundsOk(m);
  }

  /** Both lists hold distinct strings. */
  lemma ItemsDistinct(p: Platform, m: Config, l: OidcList)
    requires Settled(p, m)
    ensures m[OidcItems(l)].List? && AllStr(m[OidcItems(l)].items) && Distinct(Texts(m[OidcItems(l)].items))
    ensures AccessOf(p, m).Items(l) == Some(Texts(m[OidcItems(l)].items))
  {
    hide AccessOf, BoundsOk, SizesOk, SuffixesOk, NormValue;
    ListsStored(p, m, l);
    TextsOfStrList(AccessOf(p, m).Items(l).value);
    assert !Violates(p, AccessOf(p, m), Repeated(l));
  }

  /** Scopes hold `openid`; the allowlist is non-empty exactly under its policy. */
  lemma ListsHold(p: Platform, m: Config)
    requires Settled(p, m)
    ensures m[OidcItems(Scopes)].List? && AllStr(m[OidcItems(Scopes)].items)
    ensures "openid" in Texts(m[OidcItems(Scopes)].items)
    ensures m[OidcItems(AllowedSubjects)].List?
    ensures m[OidcItems(AllowedSubjects)].items != [] <==> m[OidcProvisioning] == Str("allowlist")
  {
    var a := AccessOf(p, m);
    ItemsDistinct(p, m, Scopes);
    ItemsDistinct(p, m, AllowedSubjects);
    AccessStored(p, m);
    AllowlistRules(p, a);
  }

  lemma AllowlistRules(p: Platform, a: Access)
    requires Accepted(p, a)
    ensures a.scopes.Some? && a.subjects.Some? && "openid" in a.scopes.value
    ensures a.subjects.value != [] <==> a.policy == "allowlist"
  {
    AcceptedReads(p, a);
    assert !Violates(p, a, OpenidMissing) && !Violates(p, a, AllowlistRequired) && !Violates(p, a, AllowlistUnused);
  }

  lemma ProviderRules(p: Platform, a: Access)
    requires Accepted(p, a)
    ensures a.profile in {"open", "token_required", "oidc_required", "mixed"}
    ensures a.profile in {"oidc_required", "mixed"} ==>
              a.issuer != "" && a.clientId != "" && a.clientSecret != "" && a.redirectUri != ""
  {
    assert !Violates(p, a, UnsupportedProfile) && !Violates(p, a, ProviderRequired);
    var i :| 0 <= i < 4 && a.profile == PROFILES[i];
    assert !Violates(p, a, SettingMissing(Issuer)) && !Violates(p, a, SettingMissing(ClientId));
    assert !Violates(p, a, SettingMissing(ClientSecret)) && !Violates(p, a, SettingMissing(RedirectUri));
  }

  /** Under a provider profile all four provider settings are given, so there is
      always a way to sign in. */
  lemma SomeSignIn(p: Platform, m: Config)
    requires Settled(p, m)
    ensures TextAt(m, AccessProfile) in {"oidc_required", "mixed"} ==>
              && TextAt(m, Oidc(Issuer)) != "" && TextAt(m, Oidc(ClientId)) != ""
              && TextAt(m, Oidc(ClientSecret)) != "" && TextAt(m, Oidc(RedirectUri)) != ""
    ensures CredentialSignIn(m) || OidcSignIn(m)
  {
    var a := AccessOf(p, m);
    AccessStored(p, m);
    ProviderRules(p, a);
    assert m[Oidc(Issuer)] == Str(a.Setting(Issuer)) && m[Oidc(ClientId)] == Str(a.Setting(ClientId));
    assert m[Oidc(ClientSecret)] == Str(a.Setting(ClientSecret)) && m[Oidc(RedirectUri)] == Str(a.Setting(RedirectUri));
  }

  /** Which ways to sign in a settled configuration offers, by its profile. */
  lemma SignInByProfile(p: Platform, m: Config)
    requires Settled(p, m)
    ensures TextAt(m, AccessProfile) == "token_required" ==> CredentialSignIn(m) && !OidcSignIn(m)
    ensures TextAt(m, AccessProfile) == "oidc_required" ==> !CredentialSignIn(m) && OidcSignIn(m)
    ensures TextAt(m, AccessProfile) == "mixed" ==> CredentialSignIn(m) && OidcSignIn(m)
    ensures TextAt(m, AccessProfile) == "open" ==>
              CredentialSignIn(m)
              && (OidcSignIn(m) <==> TextAt(m, Oidc(Issuer)) != "" && TextAt(m, Oidc(ClientId)) != "" && TextAt(m, Oidc(ClientSecret)) != "")
  {
    hide Settled;
    SomeSignIn(p, m);
    assert |"token_required"| == 14 && |"oidc_required"| == 13 && |"open"| == 4 && |"mixed"| == 5;
  }
}
