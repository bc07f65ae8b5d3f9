/** The spellings of the treated keys: no two alike, none with a dot, each resolving to
    its key; and defaults that meet every fact the other modules take for granted. */
module KeySpelling {
  import opened Values
  import opened Paths
  import opened Shape
  import opened ConfigKeys
  import opened Normalize
  import opened Schema
  import opened Layers

  /** A number that tells the spellings of the treated keys apart. */
  function Mark(name: string): int
    requires |name| >= 4
  {
    |name| * 65536 + (name[3] as int) * 256 + name[|name| - 1] as int
  }

  function Marked(n: int): Key {
    if n == 943461 then AccessProfile
    else if n == 746354 then Oidc(Issuer)
    else if n == 942948 then Oidc(ClientId)
    else if n == 1205108 then Oidc(ClientSecret)
    else if n == 1139561 then Oidc(RedirectUri)
    else if n == 942949 then Oidc(CaBundle)
    else if n == 1139559 then OidcProvisioning
    else if n == 746355 then OidcItems(Scopes)
    else if n == 1401715 then OidcItems(AllowedSubjects)
    else if n == 1865587 then Duration(IdleMinutes)
    else if n == 1996659 then Duration(AbsoluteHours)
    else if n == 1862003 then Duration(ReauthMinutes)
    else if n == 1663603 then Cidrs(AiBaseUrl)
    else if n == 1995891 then Cidrs(RestrictedInput)
    else if n == 2322547 then DomainSuffixes
    else if n == 1139054 then Count(PoolMin)
    else if n == 1139064 then Count(PoolMax)
    else if n == 1337715 then Count(AuditRetentionDays)
    else if n == 1403251 then Count(AuditExportMaxRows)
    else if n == 1729395 then Count(AiConnectTimeout)
    else if n == 1209459 then Count(AiTimeout)
    else if n == 1207667 then Count(AiMaxInputChars)
    else if n == 1338739 then Count(AiMaxOutputTokens)
    else if n == 2256499 then Count(AiNextCommandsMaxOutputTokens)
    else if n == 1142132 then Count(AiMaxConcurrent)
    else if n == 1207656 then Count(AiMaxQueueDepth)
    else if n == 1995378 then Count(AiRateLimitSessionHour)
    else if n == 2060901 then Count(AiRateLimitGlobalMinute)
    else if n == 2059124 then Count(WorkflowActiveLimit)
    else if n == 2517875 then Count(WorkflowMaxRuntime)
    else if n == 2126948 then Flag(PublicShares)
    else if n == 1141604 then Flag(Workspace)
    else if n == 1533284 then Flag(InteractivePty)
    else if n == 2385252 then Flag(IntrusiveActions)
    else if n == 1793892 then Flag(RawPacketScanning)
    else if n == 1401204 then Flag(PostgresJit)
    else if n == 1141092 then Flag(AuditLog)
    else if n == 681316 then Flag(AiEnabled)
    else if n == 1335668 then Flag(AiFullOutput)
    else if n == 1798764 then Flag(AiPrivateBaseUrl)
    else if n == 1205881 then Flag(AiSummary)
    else if n == 1599091 then Flag(AiNextCommands)
    else if n == 1730163 then Flag(AiRunSuggestions)
    else if n == 548709 then AppName
    else if n == 1207394 then FullOutputMb
    else if n == 1404019 then FullOutputBytes
    else if n == 1405026 then PreviewMb
    else if n == 1601651 then PreviewBytes
    else if n == 1405555 then RedactionRules
    else Plain("")
  }

  /** A spelling without dots whose mark is that of the key. */
  predicate Spells(name: string, k: Key) {
    |name| >= 4 && '.' !in name && Marked(Mark(name)) == k
  }

  // The treated keys, then the other keys that the environment sets.
  lemma Spelling1() ensures Spells("access_profile", AccessProfile) {}
  lemma Spelling2() ensures Spells("oidc_issuer", Oidc(Issuer)) {}
  lemma Spelling3() ensures Spells("oidc_client_id", Oidc(ClientId)) {}
  lemma Spelling4() ensures Spells("oidc_client_secret", Oidc(ClientSecret)) {}
  lemma Spelling5() ensures Spells("oidc_redirect_uri", Oidc(RedirectUri)) {}
  lemma Spelling6() ensures Spells("oidc_ca_bundle", Oidc(CaBundle)) {}
  lemma Spelling7() ensures Spells("oidc_provisioning", OidcProvisioning) {}
  lemma Spelling8() ensures Spells("oidc_scopes", OidcItems(Scopes)) {}
  lemma Spelling9() ensures Spells("oidc_allowed_subjects", OidcItems(AllowedSubjects)) {}
  lemma Spelling10() ensures Spells("browser_session_idle_minutes", Duration(IdleMinutes)) {}
  lemma Spelling11() ensures Spells("browser_session_absolute_hours", Duration(AbsoluteHours)) {}
  lemma Spelling12() ensures Spells("admin_console_reauth_minutes", Duration(ReauthMinutes)) {}
  lemma Spelling13() ensures Spells("ai_base_url_allowed_cidrs", Cidrs(AiBaseUrl)) {}
  lemma Spelling14() ensures Spells("restricted_command_input_cidrs", Cidrs(RestrictedInput)) {}
  lemma Spelling15() ensures Spells("output_entity_extra_domain_suffixes", DomainSuffixes) {}
  lemma Spelling16() ensures Spells("database_pool_min", Count(PoolMin)) {}
  lemma Spelling17() ensures Spells("database_pool_max", Count(PoolMax)) {}
  lemma Spelling18() ensures Spells("audit_retention_days", Count(AuditRetentionDays)) {}
  lemma Spelling19() ensures Spells("audit_export_max_rows", Count(AuditExportMaxRows)) {}
  lemma Spelling20() ensures Spells("ai_connect_timeout_seconds", Count(AiConnectTimeout)) {}
  lemma Spelling21() ensures Spells("ai_timeout_seconds", Count(AiTimeout)) {}
  lemma Spelling22() ensures Spells("ai_max_input_chars", Count(AiMaxInputChars)) {}
  lemma Spelling23() ensures Spells("ai_max_output_tokens", Count(AiMaxOutputTokens)) {}
  lemma Spelling24() ensures Spells("ai_next_commands_max_output_tokens", Count(AiNextCommandsMaxOutputTokens)) {}
  lemma Spelling25() ensures Spells("ai_max_concurrent", Count(AiMaxConcurrent)) {}
  lemma Spelling26() ensures Spells("ai_max_queue_depth", Count(AiMaxQueueDepth)) {}
  lemma Spelling27() ensures Spells("ai_rate_limit_per_session_hour", Count(AiRateLimitSessionHour)) {}
  lemma Spelling28() ensures Spells("ai_rate_limit_global_per_minute", Count(AiRateLimitGlobalMinute)) {}
  lemma Spelling29() ensures Spells("workflow_active_execution_limit", Count(WorkflowActiveLimit)) {}
  lemma Spelling30() ensures Spells("workflow_execution_max_runtime_seconds", Count(WorkflowMaxRuntime)) {}
  lemma Spelling31() ensures Spells("restricted_public_shares_enabled", Flag(PublicShares)) {}
  lemma Spelling32() ensures Spells("workspace_enabled", Flag(Workspace)) {}
  lemma Spelling33() ensures Spells("interactive_pty_enabled", Flag(InteractivePty)) {}
  lemma Spelling34() ensures Spells("assessment_intrusive_actions_enabled", Flag(IntrusiveActions)) {}
  lemma Spelling35() ensures Spells("raw_packet_scanning_enabled", Flag(RawPacketScanning)) {}
  lemma Spelling36() ensures Spells("database_postgres_jit", Flag(PostgresJit)) {}
  lemma Spelling37() ensures Spells("audit_log_enabled", Flag(AuditLog)) {}
  lemma Spelling38() ensures Spells("ai_enabled", Flag(AiEnabled)) {}
  lemma Spelling39() ensures Spells("ai_allow_full_output", Flag(AiFullOutput)) {}
  lemma Spelling40() ensures Spells("ai_require_private_base_url", Flag(AiPrivateBaseUrl)) {}
  lemma Spelling41() ensures Spells("ai_feature_summary", Flag(AiSummary)) {}
  lemma Spelling42() ensures Spells("ai_feature_next_commands", Flag(AiNextCommands)) {}
  lemma Spelling43() ensures Spells("ai_feature_run_suggestions", Flag(AiRunSuggestions)) {}
  lemma Spelling44() ensures Spells("app_name", AppName) {}
  lemma Spelling45() ensures Spells("full_output_max_mb", FullOutputMb) {}
  lemma Spelling46() ensures Spells("full_output_max_bytes", FullOutputBytes) {}
  lemma Spelling47() ensures Spells("output_preview_max_mb", PreviewMb) {}
  lemma Spelling48() ensures Spells("output_preview_max_bytes", PreviewBytes) {}
  lemma Spelling49() ensures Spells("share_redaction_rules", RedactionRules) {}
  lemma Spelling50() ensures Spells("ai_provider", Plain("")) {}
  lemma Spelling51() ensures Spells("ai_base_url", Plain("")) {}
  lemma Spelling52() ensures Spells("ai_model", Plain("")) {}
  lemma Spelling53() ensures Spells("ai_api_key_secret_name", Plain("")) {}
  lemma Spelling54() ensures Spells("ai_api_key", Plain("")) {}
  lemma Spelling55() ensures Spells("ai_prompt_version_override", Plain("")) {}
  lemma Spelling56() ensures Spells("workspace_backend", Flag(Workspace)) {}
  lemma Spelling57() ensures Spells("workspace_root", Plain("")) {}
  lemma Spelling58() ensures Spells("prometheus_multiproc_dir", Plain("")) {}
  lemma Spelling59() ensures Spells("asset_bundle_mode", Plain("")) {}
  lemma Spelling60() ensures Spells("database_backend", Plain("")) {}
  lemma Spelling61() ensures Spells("database_url", Plain("")) {}

  lemma CountSpelled(i: IntKey)
    ensures Spells(CountName(i), Count(i))
  {
    hide Spells;
    match i {
      case PoolMin => Spelling16();
      case PoolMax => Spelling17();
      case AuditRetentionDays => Spelling18();
      case AuditExportMaxRows => Spelling19();
      case AiConnectTimeout => Spelling20();
      case AiTimeout => Spelling21();
      case AiMaxInputChars => Spelling22();
      case AiMaxOutputTokens => Spelling23();
      case AiNextCommandsMaxOutputTokens => Spelling24();
      case AiMaxConcurrent => Spelling25();
      case AiMaxQueueDepth => Spelling26();
      case AiRateLimitSessionHour => Spelling27();
      case AiRateLimitGlobalMinute => Spelling28();
      case WorkflowActiveLimit => Spelling29();
      case WorkflowMaxRuntime => Spelling30();
    }
  }

  lemma FlagSpelled(b: BoolKey)
    ensures Spells(FlagName(b), Flag(b))
  {
    hide Spells;
    match b {
      case PublicShares => Spelling31();
      case Workspace => Spelling32();
      case InteractivePty => Spelling33();
      case IntrusiveActions => Spelling34();
      case RawPacketScanning => Spelling35();
      case PostgresJit => Spelling36();
      case AuditLog => Spelling37();
      case AiEnabled => Spelling38();
      case AiFullOutput => Spelling39();
      case AiPrivateBaseUrl => Spelling40();
      case AiSummary => Spelling41();
      case AiNextCommands => Spelling42();
      case AiRunSuggestions => Spelling43();
    }
  }

  lemma NameSpelled(k: Key)
    requires Special(k)
    ensures Spells(Name(k), k)
  {
    hide Spells, CountName, FlagName;
    match k {
      case AccessProfile => Spelling1();
      case Oidc(x) =>
        match x {
          case Issuer => Spelling2();
          case ClientId => Spelling3();
          case ClientSecret => Spelling4();
          case RedirectUri => Spelling5();
          case CaBundle => Spelling6();
        }
      case OidcProvisioning => Spelling7();
      case OidcItems(x) =>
        match x {
          case Scopes => Spelling8();
          case AllowedSubjects => Spelling9();
        }
      case Duration(x) =>
        match x {
          case IdleMinutes => Spelling10();
          case AbsoluteHours => Spelling11();
          case ReauthMinutes => Spelling12();
        }
      case Cidrs(x) =>
        match x {
          case AiBaseUrl => Spelling13();
          case RestrictedInput => Spelling14();
        }
      case DomainSuffixes => Spelling15();
      case Count(i) => CountSpelled(i);
      case Flag(b) => FlagSpelled(b);
      case AppName => Spelling44();
      case FullOutputMb => Spelling45();
      case FullOutputBytes => Spelling46();
      case PreviewMb => Spelling47();
      case PreviewBytes => Spelling48();
      case RedactionRules => Spelling49();
    }
  }

  /** No two treated keys are spelled alike. */
  lemma NamesDiffer(a: Key, b: Key)
    requires Special(a) && Special(b) && Name(a) == Name(b)
    ensures a == b
  {
    hide Name, Mark, Marked;
    NameSpelled(a);
    NameSpelled(b);
  }

  lemma {:induction false} FindKeyFinds(k: Key, candidates: seq<Key>)
    requires Special(k) && k in candidates && forall i :: 0 <= i < |candidates| ==> Special(candidates[i])
    ensures FindKey(Name(k), candidates) == k
  {
    hide Name;
    if Name(candidates[0]) == Name(k) { NamesDiffer(candidates[0], k); } else { FindKeyFinds(k, candidates[1..]); }
  }

  lemma ListedAreSpecial()
    ensures forall i :: 0 <= i < |SpecialKeys()| ==> Special(SpecialKeys()[i])
  {
    hide INT_KEYS, BOOL_KEYS;
  }

  lemma SpecialAreListed(k: Key)
    requires Special(k)
    ensures k in SpecialKeys()
  {
    hide INT_KEYS, BOOL_KEYS;
    var counts, flags := CountKeys(), FlagKeys();
    if k.Count? {
      AllIntKeys(k.count);
      var j :| 0 <= j < |INT_KEYS| && INT_KEYS[j] == k.count;
      assert counts[j] == k;
      assert k in counts;
    } else if k.Flag? {
      AllBoolKeys(k.flag);
      var j :| 0 <= j < |BOOL_KEYS| && BOOL_KEYS[j] == k.flag;
      assert flags[j] == k;
      assert k in flags;
    } else {
      ListedOther(k);
    }
  }

  lemma ListedOther(k: Key)
    requires Special(k) && !k.Count? && !k.Flag?
    ensures k in OIDC_KEYS || k in DURATION_KEYS || k in OTHER_KEYS
  {
    match k {
      case AccessProfile => assert OTHER_KEYS[0] == k;
      case Oidc(s) => match s { case Issuer => assert OIDC_KEYS[0] == k; case ClientId => assert OIDC_KEYS[1] == k;
                                case ClientSecret => assert OIDC_KEYS[2] == k; case RedirectUri => assert OIDC_KEYS[3] == k;
                                case CaBundle => assert OIDC_KEYS[4] == k; }
      case OidcProvisioning => assert OIDC_KEYS[5] == k;
      case OidcItems(l) => match l { case Scopes => assert OIDC_KEYS[6] == k; case AllowedSubjects => assert OIDC_KEYS[7] == k; }
      case Duration(t) => match t { case IdleMinutes => assert DURATION_KEYS[0] == k; case AbsoluteHours => assert DURATION_KEYS[1] == k;
                                    case ReauthMinutes => assert DURATION_KEYS[2] == k; }
      case Cidrs(c) => match c { case AiBaseUrl => assert OTHER_KEYS[1] == k; case RestrictedInput => assert OTHER_KEYS[2] == k; }
      case DomainSuffixes => assert OTHER_KEYS[3] == k;
      case AppName => assert OTHER_KEYS[4] == k;
      case FullOutputMb => assert OTHER_KEYS[5] == k;
      case FullOutputBytes => assert OTHER_KEYS[6] == k;
      case PreviewMb => assert OTHER_KEYS[7] == k;
      case PreviewBytes => assert OTHER_KEYS[8] == k;
      case RedactionRules => assert OTHER_KEYS[9] == k;
    }
  }

  /** Spelling a treated key and resolving the spelling gives the key back. */
  lemma KeyOfName(k: Key)
    requires Special(k)
    ensures KeyOf(Name(k)) == k
  {
    hide Name, SpecialKeys;
    ListedAreSpecial();
    SpecialAreListed(k);
    FindKeyFinds(k, SpecialKeys());
  }

  // ------------------------------------------------------- the environment's keys

  /** Without dots, and neither of the derived keys. */
  predicate EnvKeyFine(key: string) {
    |key| >= 4 && '.' !in key && !Derived(Marked(Mark(key)))
  }

  lemma FineKey(key: string, k: Key)
    requires Spells(key, k) && !Derived(k)
    ensures EnvKeyFine(key)
  {
  }

  lemma AccessEnvFine()
    ensures forall i :: 0 <= i < |ACCESS_ENV| ==> EnvKeyFine(ACCESS_ENV[i].key)
  {
    hide EnvKeyFine;
    Spelling1();
    FineKey("access_profile", AccessProfile);
    Spelling31();
    FineKey("restricted_public_shares_enabled", Flag(PublicShares));
    Spelling10();
    FineKey("browser_session_idle_minutes", Duration(IdleMinutes));
    Spelling11();
    FineKey("browser_session_absolute_hours", Duration(AbsoluteHours));
    Spelling2();
    FineKey("oidc_issuer", Oidc(Issuer));
    Spelling3();
    FineKey("oidc_client_id", Oidc(ClientId));
  }

  lemma OidcEnvFine()
    ensures forall i :: 0 <= i < |OIDC_ENV| ==> EnvKeyFine(OIDC_ENV[i].key)
  {
    hide EnvKeyFine;
    Spelling4();
    FineKey("oidc_client_secret", Oidc(ClientSecret));
    Spelling5();
    FineKey("oidc_redirect_uri", Oidc(RedirectUri));
    Spelling8();
    FineKey("oidc_scopes", OidcItems(Scopes));
    Spelling7();
    FineKey("oidc_provisioning", OidcProvisioning);
    Spelling9();
    FineKey("oidc_allowed_subjects", OidcItems(AllowedSubjects));
    Spelling6();
    FineKey("oidc_ca_bundle", Oidc(CaBundle));
  }

  lemma AiModelEnvFine()
    ensures forall i :: 0 <= i < |AI_MODEL_ENV| ==> EnvKeyFine(AI_MODEL_ENV[i].key)
  {
    hide EnvKeyFine;
    Spelling38();
    FineKey("ai_enabled", Flag(AiEnabled));
    Spelling50();
    FineKey("ai_provider", Plain(""));
    Spelling51();
    FineKey("ai_base_url", Plain(""));
    Spelling52();
    FineKey("ai_model", Plain(""));
    Spelling53();
    FineKey("ai_api_key_secret_name", Plain(""));
    Spelling54();
    FineKey("ai_api_key", Plain(""));
  }

  lemma AiLimitEnvFine()
    ensures forall i :: 0 <= i < |AI_LIMIT_ENV| ==> EnvKeyFine(AI_LIMIT_ENV[i].key)
  {
    hide EnvKeyFine;
    Spelling20();
    FineKey("ai_connect_timeout_seconds", Count(AiConnectTimeout));
    Spelling21();
    FineKey("ai_timeout_seconds", Count(AiTimeout));
    Spelling22();
    FineKey("ai_max_input_chars", Count(AiMaxInputChars));
    Spelling23();
    FineKey("ai_max_output_tokens", Count(AiMaxOutputTokens));
    Spelling24();
    FineKey("ai_next_commands_max_output_tokens", Count(AiNextCommandsMaxOutputTokens));
    Spelling25();
    FineKey("ai_max_concurrent", Count(AiMaxConcurrent));
  }

  lemma AiRateEnvFine()
    ensures forall i :: 0 <= i < |AI_RATE_ENV| ==> EnvKeyFine(AI_RATE_ENV[i].key)
  {
    hide EnvKeyFine;
    Spelling26();
    FineKey("ai_max_queue_depth", Count(AiMaxQueueDepth));
    Spelling27();
    FineKey("ai_rate_limit_per_session_hour", Count(AiRateLimitSessionHour));
    Spelling28();
    FineKey("ai_rate_limit_global_per_minute", Count(AiRateLimitGlobalMinute));
    Spelling39();
    FineKey("ai_allow_full_output", Flag(AiFullOutput));
    Spelling40();
    FineKey("ai_require_private_base_url", Flag(AiPrivateBaseUrl));
    Spelling13();
    FineKey("ai_base_url_allowed_cidrs", Cidrs(AiBaseUrl));
  }

  lemma AiFeatureEnvFine()
    ensures forall i :: 0 <= i < |AI_FEATURE_ENV| ==> EnvKeyFine(AI_FEATURE_ENV[i].key)
  {
    hide EnvKeyFine;
    Spelling55();
    FineKey("ai_prompt_version_override", Plain(""));
    Spelling41();
    FineKey("ai_feature_summary", Flag(AiSummary));
    Spelling42();
    FineKey("ai_feature_next_commands", Flag(AiNextCommands));
    Spelling43();
    FineKey("ai_feature_run_suggestions", Flag(AiRunSuggestions));
    Spelling32();
    FineKey("workspace_enabled", Flag(Workspace));
    Spelling56();
    FineKey("workspace_backend", Flag(Workspace));
  }

  lemma WorkspaceEnvFine()
    ensures forall i :: 0 <= i < |WORKSPACE_ENV| ==> EnvKeyFine(WORKSPACE_ENV[i].key)
  {
    hide EnvKeyFine;
    Spelling57();
    FineKey("workspace_root", Plain(""));
    Spelling33();
    FineKey("interactive_pty_enabled", Flag(InteractivePty));
    Spelling58();
    FineKey("prometheus_multiproc_dir", Plain(""));
    Spelling59();
    FineKey("asset_bundle_mode", Plain(""));
    Spelling14();
    FineKey("restricted_command_input_cidrs", Cidrs(RestrictedInput));
    Spelling35();
    FineKey("raw_packet_scanning_enabled", Flag(RawPacketScanning));
  }

  lemma DatabaseEnvFine()
    ensures forall i :: 0 <= i < |DATABASE_ENV| ==> EnvKeyFine(DATABASE_ENV[i].key)
  {
    hide EnvKeyFine;
    Spelling34();
    FineKey("assessment_intrusive_actions_enabled", Flag(IntrusiveActions));
    Spelling60();
    FineKey("database_backend", Plain(""));
    Spelling61();
    FineKey("database_url", Plain(""));
    Spelling16();
    FineKey("database_pool_min", Count(PoolMin));
    Spelling17();
    FineKey("database_pool_max", Count(PoolMax));
    Spelling36();
    FineKey("database_postgres_jit", Flag(PostgresJit));
  }

  lemma EnvKeysFine()
    ensures forall i :: 0 <= i < |ENVIRONMENT_KEYS| ==> EnvKeyFine(ENVIRONMENT_KEYS[i].key)
  {
    hide EnvKeyFine, ACCESS_ENV, OIDC_ENV, AI_MODEL_ENV, AI_LIMIT_ENV, AI_RATE_ENV, AI_FEATURE_ENV, WORKSPACE_ENV, DATABASE_ENV;
    AccessEnvFine();
    OidcEnvFine();
    AiModelEnvFine();
    AiLimitEnvFine();
    AiRateEnvFine();
    AiFeatureEnvFine();
    WorkspaceEnvFine();
    DatabaseEnvFine();
  }

  // ---------------------------------------------------------- defaults that work

  ghost function WitnessNames(): set<string> {
    (set k | k in SpecialKeys() && !Derived(k) :: Name(k)) + (set e | e in ENVIRONMENT_KEYS :: e.key)
  }

  /** The treated keys with their defaults, and every key that the environment sets. */
  ghost function WitnessDefaults(): Data {
    map name | name in WitnessNames() :: BuiltIn(KeyOf(name))
  }

  lemma WitnessName(name: string)
    requires name in WitnessNames()
    ensures |name| >= 4 && '.' !in name && !Derived(Marked(Mark(name)))
  {
    hide Name, Mark, Marked, SpecialKeys, ENVIRONMENT_KEYS;
    if k :| k in SpecialKeys() && !Derived(k) && Name(k) == name {
      ListedAreSpecial();
      NameSpelled(k);
    } else {
      var e :| e in ENVIRONMENT_KEYS && e.key == name;
      EnvKeysFine();
    }
  }

  /** None of them resolves to a derived key. */
  lemma WitnessKey(name: string)
    requires name in WitnessNames()
    ensures !Derived(KeyOf(name)) && name != LEGACY_BYTES
  {
    hide Name, Mark, Marked, KeyOf, WitnessNames;
    WitnessName(name);
    NameSpelled(FullOutputBytes);
    NameSpelled(PreviewBytes);
    Spelling46();
    assert Name(KeyOf(name)) == name by { KeyOfSpells(name); }
  }

  lemma KeyOfSpells(name: string)
    ensures Name(KeyOf(name)) == name
  {
  }

  lemma WitnessLeaf(name: string)
    requires name in WitnessDefaults()
    ensures !WitnessDefaults()[name].Dict?
  {
    hide KeyOf, WitnessNames, BuiltIn;
    BuiltInFlat(KeyOf(name));
  }

  lemma WitnessGoodDefaults()
    ensures GoodDefaults(WitnessDefaults(), ENVIRONMENT_KEYS)
  {
    hide Name, KeyOf, BuiltIn, ENVIRONMENT_KEYS, SpecialKeys, Mark, Marked;
    var d := WitnessDefaults();
    forall name | name in d ensures DotFree(name) && DotFreeTree(d[name]) && name != "" && name != LEGACY_BYTES {
      WitnessName(name);
      WitnessKey(name);
      WitnessLeaf(name);
    }
    forall e | e in ENVIRONMENT_KEYS ensures e.key in d && !d[e.key].Dict? {
      assert e.key in WitnessNames();
      WitnessLeaf(e.key);
    }
  }

  lemma WitnessHas(k: Key)
    requires Special(k) && !Derived(k)
    ensures k in Keyed(WitnessDefaults())
  {
    hide Name, KeyOf, BuiltIn, SpecialKeys, ENVIRONMENT_KEYS;
    SpecialAreListed(k);
    KeyOfName(k);
    assert Name(k) in WitnessNames();
    assert KeyOf(Name(k)) in Keyed(WitnessDefaults());
  }

  lemma WitnessIs(k: Key)
    requires k in Keyed(WitnessDefaults())
    ensures !Derived(k) && Keyed(WitnessDefaults())[k] == BuiltIn(k)
  {
    hide Name, KeyOf, BuiltIn, WitnessNames;
    var d := WitnessDefaults();
    var name :| name in d && KeyOf(name) == k;
    assert Keyed(d)[k] == d[name];
    WitnessKey(name);
  }

  lemma WitnessComplete()
    ensures Complete(Keyed(WitnessDefaults()))
  {
    hide Name, KeyOf, BuiltIn, WitnessDefaults, Keyed;
    var c := Keyed(WitnessDefaults());
    forall k | Special(k) && !Derived(k) ensures k in c { WitnessHas(k); }
    CompleteIf(c);
  }

  lemma CompleteIf(c: Config)
    requires forall k | Special(k) && !Derived(k) :: k in c
    ensures Complete(c)
  {
    assert Special(AccessProfile) && Special(OidcProvisioning) && Special(DomainSuffixes) && Special(AppName);
    assert Special(FullOutputMb) && Special(PreviewMb) && Special(RedactionRules);
  }

  /** The facts that a build takes for granted about the defaults hold together, with the
      code's own table of environment names. */
  lemma DefaultsExist()
    ensures GoodDefaults(WitnessDefaults(), ENVIRONMENT_KEYS) && GoodSchema(Keyed(WitnessDefaults()))
  {
    hide Name, KeyOf, BuiltIn, WitnessDefaults, Keyed, Complete, GoodDefaults, ENVIRONMENT_KEYS;
    WitnessGoodDefaults();
    WitnessComplete();
    var c := Keyed(WitnessDefaults());
    forall k | k in c ensures !Derived(k) && c[k] == BuiltIn(k) && !c[k].Dict? {
      WitnessIs(k);
      BuiltInFlat(k);
    }
  }
}
