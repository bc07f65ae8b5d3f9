/** The configuration keys, grouped as normalization groups them, and the
    spelling each has in the configuration mapping. */
module ConfigKeys {
  import opened Values

  datatype OidcSetting = Issuer | ClientId | ClientSecret | RedirectUri | CaBundle

  datatype OidcList = Scopes | AllowedSubjects

  datatype DurationKey = IdleMinutes | AbsoluteHours | ReauthMinutes

  datatype CidrKey = AiBaseUrl | RestrictedInput

  /** `_FORGIVING_INT_KEYS` */
  datatype IntKey =
    | PoolMin | PoolMax | AuditRetentionDays | AuditExportMaxRows
    | AiConnectTimeout | AiTimeout | AiMaxInputChars | AiMaxOutputTokens | AiNextCommandsMaxOutputTokens
    | AiMaxConcurrent | AiMaxQueueDepth | AiRateLimitSessionHour | AiRateLimitGlobalMinute
    | WorkflowActiveLimit | WorkflowMaxRuntime

  /** `_FORGIVING_BOOL_KEYS` */
  datatype BoolKey =
    | PublicShares | Workspace | InteractivePty | IntrusiveActions | RawPacketScanning | PostgresJit | AuditLog
    | AiEnabled | AiFullOutput | AiPrivateBaseUrl | AiSummary | AiNextCommands | AiRunSuggestions

  datatype Key =
    | AccessProfile
    | Oidc(setting: OidcSetting)
    | OidcProvisioning
    | OidcItems(list: OidcList)
    | Duration(duration: DurationKey)
    | Cidrs(cidr: CidrKey)
    | DomainSuffixes
    | Count(count: IntKey)
    | Flag(flag: BoolKey)
    | AppName
    | FullOutputMb | FullOutputBytes
    | PreviewMb | PreviewBytes
    | RedactionRules
    | Section(section: string)   // a nested model
    | Plain(name: string)        // checked against its type only, or unknown

  type Config = map<Key, Value>

  /** The keys that normalization treats one way or another. */
  predicate Special(k: Key) {
    !k.Plain? && !k.Section?
  }

  const SECTIONS := {"notifications", "scheduler", "watchers", "project_digests", "assessment_batches",
                     "cve_risk", "oast_connector", "zap_connector"}

  const FULL_OUTPUT_MB := "full_output_max_mb"
  const FULL_OUTPUT_BYTES := "full_output_max_bytes"
  const PREVIEW_MB := "output_preview_max_mb"
  const PREVIEW_BYTES := "output_preview_max_bytes"

  function CountName(i: IntKey): string {
    match i
    case PoolMin => "database_pool_min"
    case PoolMax => "database_pool_max"
    case AuditRetentionDays => "audit_retention_days"
    case AuditExportMaxRows => "audit_export_max_rows"
    case AiConnectTimeout => "ai_connect_timeout_seconds"
    case AiTimeout => "ai_timeout_seconds"
    case AiMaxInputChars => "ai_max_input_chars"
    case AiMaxOutputTokens => "ai_max_output_tokens"
    case AiNextCommandsMaxOutputTokens => "ai_next_commands_max_output_tokens"
    case AiMaxConcurrent => "ai_max_concurrent"
    case AiMaxQueueDepth => "ai_max_queue_depth"
    case AiRateLimitSessionHour => "ai_rate_limit_per_session_hour"
    case AiRateLimitGlobalMinute => "ai_rate_limit_global_per_minute"
    case WorkflowActiveLimit => "workflow_active_execution_limit"
    case WorkflowMaxRuntime => "workflow_execution_max_runtime_seconds"
  }

  function FlagName(b: BoolKey): string {
    match b
    case PublicShares => "restricted_public_shares_enabled"
    case Workspace => "workspace_enabled"
    case InteractivePty => "interactive_pty_enabled"
    case IntrusiveActions => "assessment_intrusive_actions_enabled"
    case RawPacketScanning => "raw_packet_scanning_enabled"
    case PostgresJit => "database_postgres_jit"
    case AuditLog => "audit_log_enabled"
    case AiEnabled => "ai_enabled"
    case AiFullOutput => "ai_allow_full_output"
    case AiPrivateBaseUrl => "ai_require_private_base_url"
    case AiSummary => "ai_feature_summary"
    case AiNextCommands => "ai_feature_next_commands"
    case AiRunSuggestions => "ai_feature_run_suggestions"
  }

  function SettingName(s: OidcSetting): string {
    match s
    case Issuer => "oidc_issuer"
    case ClientId => "oidc_client_id"
    case ClientSecret => "oidc_client_secret"
    case RedirectUri => "oidc_redirect_uri"
    case CaBundle => "oidc_ca_bundle"
  }

  function ItemsName(l: OidcList): string {
    match l
    case Scopes => "oidc_scopes"
    case AllowedSubjects => "oidc_allowed_subjects"
  }

  function DurationName(t: DurationKey): string {
    match t
    case IdleMinutes => "browser_session_idle_minutes"
    case AbsoluteHours => "browser_session_absolute_hours"
    case ReauthMinutes => "admin_console_reauth_minutes"
  }

  function CidrsName(c: CidrKey): string {
    match c
    case AiBaseUrl => "ai_base_url_allowed_cidrs"
    case RestrictedInput => "restricted_command_input_cidrs"
  }

  function Name(k: Key): string {
    match k
    case AccessProfile => "access_profile"
    case Oidc(s) => SettingName(s)
    case OidcProvisioning => "oidc_provisioning"
    case OidcItems(l) => ItemsName(l)
    case Duration(t) => DurationName(t)
    case Cidrs(c) => CidrsName(c)
    case DomainSuffixes => "output_entity_extra_domain_suffixes"
    case Count(i) => CountName(i)
    case Flag(b) => FlagName(b)
    case AppName => "app_name"
    case FullOutputMb => FULL_OUTPUT_MB
    case FullOutputBytes => FULL_OUTPUT_BYTES
    case PreviewMb => PREVIEW_MB
    case PreviewBytes => PREVIEW_BYTES
    case RedactionRules => "share_redaction_rules"
    case Section(s) => s
    case Plain(n) => n
  }

  lemma SizeNames()
    ensures Name(FullOutputMb) == FULL_OUTPUT_MB && Name(FullOutputBytes) == FULL_OUTPUT_BYTES
  {
    hide FULL_OUTPUT_MB, FULL_OUTPUT_BYTES, CountName, FlagName, SettingName, ItemsName, DurationName, CidrsName;
  }

  lemma SizeTexts()
    ensures FULL_OUTPUT_MB == "full_output_max_mb" && FULL_OUTPUT_BYTES == "full_output_max_bytes"
  {
    hide Name;
  }

  const DURATIONS := [IdleMinutes, AbsoluteHours, ReauthMinutes]
  const INT_KEYS := [
    PoolMin, PoolMax, AuditRetentionDays, AuditExportMaxRows, AiConnectTimeout, AiTimeout, AiMaxInputChars,
    AiMaxOutputTokens, AiNextCommandsMaxOutputTokens, AiMaxConcurrent, AiMaxQueueDepth, AiRateLimitSessionHour,
    AiRateLimitGlobalMinute, WorkflowActiveLimit, WorkflowMaxRuntime
  ]
  const BOOL_KEYS := [
    PublicShares, Workspace, InteractivePty, IntrusiveActions, RawPacketScanning, PostgresJit, AuditLog, AiEnabled,
    AiFullOutput, AiPrivateBaseUrl, AiSummary, AiNextCommands, AiRunSuggestions
  ]

  const DURATION_KEYS: seq<Key> := [Duration(IdleMinutes), Duration(AbsoluteHours), Duration(ReauthMinutes)]
  const OIDC_KEYS: seq<Key> := [
    Oidc(Issuer), Oidc(ClientId), Oidc(ClientSecret), Oidc(RedirectUri), Oidc(CaBundle), OidcProvisioning,
    OidcItems(Scopes), OidcItems(AllowedSubjects)
  ]
  const OTHER_KEYS: seq<Key> := [
    AccessProfile, Cidrs(AiBaseUrl), Cidrs(RestrictedInput), DomainSuffixes, AppName,
    FullOutputMb, FullOutputBytes, PreviewMb, PreviewBytes, RedactionRules
  ]

  function CountKeys(): seq<Key> {
    seq(|INT_KEYS|, i requires 0 <= i < |INT_KEYS| => Count(INT_KEYS[i]))
  }

  function FlagKeys(): seq<Key> {
    seq(|BOOL_KEYS|, i requires 0 <= i < |BOOL_KEYS| => Flag(BOOL_KEYS[i]))
  }

  /** The treated keys, listed. */
  function SpecialKeys(): seq<Key> {
    OIDC_KEYS + DURATION_KEYS + OTHER_KEYS + CountKeys() + FlagKeys()
  }

  /** The key that a mapping key spells. */
  function KeyOf(name: string): (k: Key)
    ensures Name(k) == name
  {
    FindKey(name, SpecialKeys())
  }

  function FindKey(name: string, candidates: seq<Key>): (k: Key)
    ensures Name(k) == name
  {
    if candidates == [] then (if name in SECTIONS then Section(name) else Plain(name))
    else if Name(candidates[0]) == name then candidates[0]
    else FindKey(name, candidates[1..])
  }

  /** A mapping with its keys resolved. */
  function Keyed(data: Data): (c: Config)
    ensures forall name | name in data :: KeyOf(name) in c && c[KeyOf(name)] == data[name]
    ensures forall k | k in c :: exists name :: name in data && KeyOf(name) == k
  {
    map k | k in KeySet(data) :: data[Name(k)]
  }

  function KeySet(data: Data): set<Key> {
    set name | name in data :: KeyOf(name)
  }

  lemma AllIntKeys(k: IntKey)
    ensures k in INT_KEYS
  {
    match k
    case PoolMin => assert INT_KEYS[0] == k;
    case PoolMax => assert INT_KEYS[1] == k;
    case AuditRetentionDays => assert INT_KEYS[2] == k;
    case AuditExportMaxRows => assert INT_KEYS[3] == k;
    case AiConnectTimeout => assert INT_KEYS[4] == k;
    case AiTimeout => assert INT_KEYS[5] == k;
    case AiMaxInputChars => assert INT_KEYS[6] == k;
    case AiMaxOutputTokens => assert INT_KEYS[7] == k;
    case AiNextCommandsMaxOutputTokens => assert INT_KEYS[8] == k;
    case AiMaxConcurrent => assert INT_KEYS[9] == k;
    case AiMaxQueueDepth => assert INT_KEYS[10] == k;
    case AiRateLimitSessionHour => assert INT_KEYS[11] == k;
    case AiRateLimitGlobalMinute => assert INT_KEYS[12] == k;
    case WorkflowActiveLimit => assert INT_KEYS[13] == k;
    case WorkflowMaxRuntime => assert INT_KEYS[14] == k;
  }

  lemma AllBoolKeys(k: BoolKey)
    ensures k in BOOL_KEYS
  {
    match k
    case PublicShares => assert BOOL_KEYS[0] == k;
    case Workspace => assert BOOL_KEYS[1] == k;
    case InteractivePty => assert BOOL_KEYS[2] == k;
    case IntrusiveActions => assert BOOL_KEYS[3] == k;
    case RawPacketScanning => assert BOOL_KEYS[4] == k;
    case PostgresJit => assert BOOL_KEYS[5] == k;
    case AuditLog => assert BOOL_KEYS[6] == k;
    case AiEnabled => assert BOOL_KEYS[7] == k;
    case AiFullOutput => assert BOOL_KEYS[8] == k;
    case AiPrivateBaseUrl => assert BOOL_KEYS[9] == k;
    case AiSummary => assert BOOL_KEYS[10] == k;
    case AiNextCommands => assert BOOL_KEYS[11] == k;
    case AiRunSuggestions => assert BOOL_KEYS[12] == k;
  }
}
