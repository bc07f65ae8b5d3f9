/** Exactly which mappings are committed, and which writes can never be refused. */
module Acceptance {
  import opened Values
  import opened Text
  import opened ConfigKeys
  import opened Coercion
  import opened Normalize
  import opened FixedPoints
  import opened Schema
  import opened AppConfigs
  import Merge

  /** Normalization leaves every key it treats with the type its default has. */
  predicate SameKind(v: Value, w: Value) {
    match v
    case Bool(_) => w.Bool?
    case Int(_) => w.Int?
    case Str(_) => w.Str?
    case List(_) => w.List?
    case _ => true
  }

  lemma NormalizedKind(p: Platform, c: Config, src: string, k: Key)
    requires Accepted(p, AccessOf(p, c)) && Special(k)
    ensures SameKind(BuiltIn(k), NormAt(p, c, src, k))
    ensures Derived(k) ==> NormAt(p, c, src, k).Int?
  {
    hide ProfileText, PolicyText, SettingText, ItemsOf, ParseInt, Networks, Suffixes, RulesOf, AppNameOf, CoerceBool, FullOutput;
    hide AccessOf, Accepted, RawItems, LimitsOf, FinalCount;
    ReadsAccepted(p, c);
  }

  lemma KindPasses(p: Platform, defaults: Config, k: Key, v: Value)
    requires GoodSchema(defaults) && Special(k) && k in SchemaKeys(defaults)
    requires SameKind(BuiltIn(k), v) && (Derived(k) ==> v.Int?)
    ensures CheckField(p, defaults, k, v).Some?
  {
    if !Derived(k) {
      assert defaults[k] == BuiltIn(k);
      BuiltInNotFloat(k);
      BuiltInFlat(k);
    }
  }

  /** The fields that only validation sees pass it. */
  ghost predicate FieldsPass(p: Platform, defaults: Config, c: Config) {
    forall k {:trigger CheckField(p, defaults, k, c[k])} | k in c && !Special(k) :: CheckField(p, defaults, k, c[k]).Some?
  }

  lemma NormalizedPasses(p: Platform, defaults: Config, c: Config, src: string, k: Key)
    requires GoodSchema(defaults) && Accepted(p, AccessOf(p, c))
    requires Normalized(p, c, src).Keys == SchemaKeys(defaults) && FieldsPass(p, defaults, c) && k in SchemaKeys(defaults)
    ensures CheckField(p, defaults, k, Normalized(p, c, src)[k]).Some?
  {
    hide Accepted, AccessOf, CheckField, NormAt, GoodSchema;
    if Special(k) {
      NormalizedKind(p, c, src, k);
      KindPasses(p, defaults, k, NormAt(p, c, src, k));
    } else {
      Untouched(p, c, src, k);
      assert CheckField(p, defaults, k, c[k]).Some?;
    }
  }

  lemma Untouched(p: Platform, c: Config, src: string, k: Key)
    requires !Special(k) && k in Normalized(p, c, src)
    ensures k in c && Normalized(p, c, src)[k] == c[k]
  {
    assert NormAt(p, c, src, k) == c[k];
  }

  /** A mapping is committed exactly when no access rule is violated, no value
      escapes, its keys are the schema's, and the fields that normalization does not treat pass
      validation: what normalization produces always does. */
  lemma CommittedIff(p: Platform, defaults: Config, c: Config, src: string)
    requires GoodSchema(defaults)
    ensures Finish(p, defaults, c, src).Some?
            <==> && Accepted(p, AccessOf(p, c)) && NoneEscapes(p, c)
                 && Normalized(p, c, src).Keys == SchemaKeys(defaults) && FieldsPass(p, defaults, c)
  {
    hide Accepted, AccessOf, NoneEscapes, CheckField, NormAt, GoodSchema, Normalized;
    var n := Normalized(p, c, src);
    if Accepted(p, AccessOf(p, c)) && NoneEscapes(p, c) && n.Keys == SchemaKeys(defaults) && FieldsPass(p, defaults, c) {
      forall k | k in n ensures CheckField(p, defaults, k, n[k]).Some? { NormalizedPasses(p, defaults, c, src, k); }
    } else if Finish(p, defaults, c, src).Some? {
      forall k | k in c && !Special(k) ensures CheckField(p, defaults, k, c[k]).Some? {
        NormalizedHas(p, c, src, k);
        Untouched(p, c, src, k);
        assert CheckField(p, defaults, k, n[k]).Some?;
      }
    }
  }

  lemma NormalizedHas(p: Platform, c: Config, src: string, k: Key)
    requires k in c
    ensures k in Normalized(p, c, src)
  {
  }

  // ------------------------------------------------------------------ never refused

  /** A schema whose own plain and nested defaults are valid. */
  ghost predicate ValidDefaults(p: Platform, defaults: Config) {
    GoodSchema(defaults) && FieldsPass(p, defaults, defaults)
  }

  lemma NormalizedKeys(p: Platform, defaults: Config, c: Config, src: string)
    requires defaults.Keys <= c.Keys <= SchemaKeys(defaults)
    ensures Normalized(p, c, src).Keys == SchemaKeys(defaults)
  {
  }

  lemma DefaultsFinish(p: Platform, defaults: Config, src: string)
    requires ValidDefaults(p, defaults)
    ensures Finish(p, defaults, defaults, src).Some?
  {
    hide Accepted, AccessOf, NoneEscapes, CheckField, Finish, GoodSchema, Normalized;
    DefaultsPass(p, defaults);
    NormalizedKeys(p, defaults, defaults, src);
    CommittedIff(p, defaults, defaults, src);
  }

  /** Clearing is never refused, in whatever state. */
  lemma ClearCommits(p: Platform, defaults: Config, s: State)
    requires ValidDefaults(p, defaults)
    ensures Commits(p, defaults, s, Clear).Some?
  {
    hide Finish, ValidDefaults;
    DefaultsFinish(p, defaults, MbSource(s.sources));
    assert Candidate(defaults, map[]) == defaults;
  }

  /** The keys that are coerced rather than rejected. */
  predicate Forgiving(k: Key) {
    Special(k) && !AccessKey(k)
  }

  /** The nested models accept their own current values, laid over the defaults. */
  ghost predicate SectionsPass(p: Platform, defaults: Config, m: Config) {
    forall k | k in m && k in defaults && k.Section? :: p.section(k.section, Merge.Over(defaults[k], m[k])).Some?
  }

  lemma SameAccess(p: Platform, m: Config, c: Config)
    requires forall k | AccessKey(k) :: Get(c, k) == Get(m, k)
    ensures AccessOf(p, c) == AccessOf(p, m)
  {
    hide ProfileText, PolicyText, SettingText, ItemsOf, ParseInt;
    SameReads(p, m, c);
  }

  lemma CandidateOf(p: Platform, defaults: Config, m: Config, k: Key, v: Value, j: Key)
    requires GoodSchema(defaults) && m.Keys == SchemaKeys(defaults) && k in m && !k.Section? && j in m
    ensures var c := Candidate(defaults, m[k := v]);
            && c.Keys == SchemaKeys(defaults)
            && c[j] == if j == k then v else if j.Section? then Merge.Over(defaults[j], m[j]) else m[j]
  {
    hide BuiltIn, Complete;
    assert j in defaults || Derived(j);
  }

  lemma ForgivingFields(p: Platform, defaults: Config, m: Config, k: Key, v: Value)
    requires GoodSchema(defaults) && GoodModel(p, defaults, m) && SectionsPass(p, defaults, m) && Forgiving(k) && k in m
    ensures FieldsPass(p, defaults, Candidate(defaults, m[k := v]))
  {
    hide Settled, GoodSchema, Candidate;
    var c := Candidate(defaults, m[k := v]);
    CandidateOf(p, defaults, m, k, v, k);
    forall j | j in c && !Special(j) ensures CheckField(p, defaults, j, c[j]).Some? {
      CandidateOf(p, defaults, m, k, v, j);
      if j.Section? { assert j in defaults; } else { assert CheckField(p, defaults, j, m[j]) == Some(m[j]); }
    }
  }

  lemma ForgivingAccess(p: Platform, defaults: Config, m: Config, k: Key, v: Value)
    requires GoodSchema(defaults) && m.Keys == SchemaKeys(defaults) && Complete(m) && Forgiving(k) && k in m
    ensures AccessOf(p, Candidate(defaults, m[k := v])) == AccessOf(p, m)
  {
    hide AccessOf, GoodSchema, Candidate;
    var c := Candidate(defaults, m[k := v]);
    forall j | AccessKey(j) ensures Get(c, j) == Get(m, j) {
      assert j in m;
      CandidateOf(p, defaults, m, k, v, j);
    }
    SameAccess(p, m, c);
  }

  /** No value of a settled model escapes. */
  lemma SettledEscapesNot(p: Platform, m: Config, j: Key)
    requires Settled(p, m) && j in m
    ensures !Escapes(p, j, m[j])
  {
    hide Accepted, AccessOf, SuffixesOk, RulesOf;
    if j.RedactionRules? { SettledRulesStay(p, m); }
    if j.Count? { assert NumberOk(m, j.count); }
    if j.Duration? { DurationStored(p, m, j.duration); }
  }

  lemma SettledRulesStay(p: Platform, m: Config)
    requires Settled(p, m)
    ensures !RulesEscape(p, m[RedactionRules])
  {
    hide Accepted, AccessOf, SuffixesOk, BoundsOk, SizesOk, RuleEscapes, Rules;
    var v := m[RedactionRules];
    assert NormValue(p, RedactionRules, v) == v;
    forall i | 0 <= i < |v.items| ensures !RuleEscapes(p, v.items[i]) {
      assert v.items == Rules(p, v.items);
      KeptRulesStay(p, v.items, i);
    }
  }

  lemma ForgivingEscapes(p: Platform, defaults: Config, m: Config, k: Key, v: Value)
    requires GoodSchema(defaults) && m.Keys == SchemaKeys(defaults) && Settled(p, m) && Forgiving(k) && k in m
    ensures NoneEscapes(p, Candidate(defaults, m[k := v])) <==> !Escapes(p, k, v)
  {
    hide Settled, GoodSchema, Candidate, IntEscapes, MbEscapes, RulesEscape;
    var c := Candidate(defaults, m[k := v]);
    CandidateOf(p, defaults, m, k, v, k);
    if Escapes(p, k, v) { assert Escapes(p, k, c[k]); }
    forall j | j in c && j != k ensures !Escapes(p, j, c[j]) {
      CandidateOf(p, defaults, m, k, v, j);
      SettledEscapesNot(p, m, j);
    }
  }

  /** In a good state, a value written to a forgiving key is refused exactly when it is
      a value that escapes its coercer. */
  lemma ForgivingCommittedIff(p: Platform, defaults: Config, s: State, k: Key, v: Value)
    requires GoodSchema(defaults) && GoodModel(p, defaults, s.model) && SectionsPass(p, defaults, s.model)
    requires Forgiving(k) && k in s.model
    ensures Commits(p, defaults, s, Set(k, v)).Some? <==> !Escapes(p, k, v)
  {
    hide AccessOf, Accepted, GoodSchema, Candidate, Finish, FieldsPass, Normalized, SectionsPass, BoundsOk, SizesOk, SuffixesOk, Complete, NormValue;
    hide NoneEscapes, Escapes;
    var c, src := Candidate(defaults, s.model[k := v]), MbSource(NewSources(s, Set(k, v)));
    CandidateOf(p, defaults, s.model, k, v, k);
    ForgivingFields(p, defaults, s.model, k, v);
    ForgivingAccess(p, defaults, s.model, k, v);
    ForgivingEscapes(p, defaults, s.model, k, v);
    NormalizedKeys(p, defaults, c, src);
    CommittedIff(p, defaults, c, src);
  }

  /** Such texts exist: where the float reader takes `inf`, the upper pool bound refuses it. */
  lemma InfinityRefused(p: Platform, defaults: Config, s: State)
    requires GoodSchema(defaults) && GoodModel(p, defaults, s.model) && SectionsPass(p, defaults, s.model)
    requires p.number("inf").TooLarge?
    ensures Commits(p, defaults, s, Set(Count(PoolMax), Str("inf"))).None?
  {
    hide GoodSchema, GoodModel, Commits, SectionsPass;
    TreatedInModel(p, defaults, s.model);
    ForgivingCommittedIff(p, defaults, s, Count(PoolMax), Str("inf"));
  }

  const WIDE_PATTERN := "a{4294967295}"
  const WIDE_RULES := List([Dict(map["pattern" := Str(WIDE_PATTERN)])])

  /** And so do patterns: where compiling raises an overflow, the redaction rules refuse it. */
  lemma WidePatternRefused(p: Platform, defaults: Config, s: State)
    requires GoodSchema(defaults) && GoodModel(p, defaults, s.model) && SectionsPass(p, defaults, s.model)
    requires p.compiles(WIDE_PATTERN, "").Raises?
    ensures Commits(p, defaults, s, Set(RedactionRules, WIDE_RULES)).None?
  {
    hide GoodSchema, GoodModel, Commits, SectionsPass, Escapes, WIDE_RULES, WIDE_PATTERN;
    WideEscapes(p);
    TreatedInModel(p, defaults, s.model);
    ForgivingCommittedIff(p, defaults, s, RedactionRules, WIDE_RULES);
  }

  lemma TreatedInModel(p: Platform, defaults: Config, m: Config)
    requires GoodModel(p, defaults, m)
    ensures RedactionRules in m && Count(PoolMax) in m
  {
    hide Accepted, AccessOf, NormValue, BoundsOk, SizesOk, SuffixesOk;
  }

  lemma WideEscapes(p: Platform)
    requires p.compiles(WIDE_PATTERN, "").Raises?
    ensures Escapes(p, RedactionRules, WIDE_RULES)
  {
    var item := WIDE_RULES.items[0];
    StripFixed(WIDE_PATTERN);
    assert KeepFlags(TextField(item.m, "flags", "")) == "" by { assert "flags"[0] != "pattern"[0]; }
    assert RuleEscapes(p, WIDE_RULES.items[0]);
  }

  // ----------------------------------------------------------------- a small schema

  ghost function TreatedKeys(): set<Key> {
    {AccessProfile, OidcProvisioning, DomainSuffixes, AppName, FullOutputMb, PreviewMb, RedactionRules}
    + (set s: OidcSetting | true :: Oidc(s)) + (set l: OidcList | true :: OidcItems(l))
    + (set t: DurationKey | true :: Duration(t)) + (set c: CidrKey | true :: Cidrs(c))
    + (set i: IntKey | true :: Count(i)) + (set b: BoolKey | true :: Flag(b))
  }

  lemma TreatedAre(k: Key)
    ensures k in TreatedKeys() <==> Special(k) && !Derived(k)
  {
  }

  /** The schema of the treated keys alone. */
  ghost function SmallSchema(): Config {
    map k | k in TreatedKeys() :: BuiltIn(k)
  }

  /** The hypotheses about schemas and models can be met on every platform: the
      treated keys form such a schema, and clearing yields a good model of it. */
  lemma SmallSchemaWorks(p: Platform, s: State) returns (model: Config)
    ensures ValidDefaults(p, SmallSchema())
    ensures Commits(p, SmallSchema(), s, Clear) == Some(model) && GoodModel(p, SmallSchema(), model)
  {
    hide Commits, GoodModel, ValidDefaults, SmallSchema, Attempt;
    var defaults := SmallSchema();
    SmallSchemaValid(p);
    ClearCommits(p, defaults, s);
    model := Commits(p, defaults, s, Clear).value;
    ClearedGood(p, defaults, s);
  }

  lemma SmallSchemaValid(p: Platform)
    ensures ValidDefaults(p, SmallSchema())
  {
    hide BuiltIn, CheckField, TreatedKeys;
    var defaults := SmallSchema();
    forall k ensures k in defaults <==> Special(k) && !Derived(k) { TreatedAre(k); }
    forall k | k in defaults ensures !defaults[k].Dict? { BuiltInFlat(k); }
  }

  lemma ClearedGood(p: Platform, defaults: Config, s: State)
    requires ValidDefaults(p, defaults) && Commits(p, defaults, s, Clear).Some?
    ensures GoodModel(p, defaults, Commits(p, defaults, s, Clear).value)
  {
    hide GoodModel, Attempt, GoodSchema, FieldsPass;
    AttemptGood(p, defaults, map[], MbSource(s.sources));
  }
}
