/** The redacted dump of a configuration (`_redact_config_mapping`). */
module RedactedDump {
  import opened Values
  import opened Paths
  import Text

  const REDACTED := Str("<redacted>")

  const SECRET_KEYS := {
    "oidc_client_secret", "ai_api_key", "ai_api_key_secret_name", "notifications.smtp.password_secret_id",
    "oast_connector.token_secret_id", "zap_connector.api_key_secret_id", "zap_connector.scope_policy_token_secret_id"
  }

  const SENSITIVE_URL_KEYS := {
    "database_url", "oast_connector.base_url", "zap_connector.base_url", "zap_connector.scope_policy_url"
  }

  predicate Sensitive(path: string) {
    || path in SECRET_KEYS || Text.EndsWith(path, "_secret_id") || Text.EndsWith(path, "_secret_name")
    || path in SENSITIVE_URL_KEYS
    || Text.Contains(path, "api_key") || Text.Contains(path, "password") || Text.Contains(path, "webhook")
  }

  /** What `_redacted_config_value` returns for a leaf, `text` being its repr. */
  function Shown(path: string, text: string): string {
    if Sensitive(path) then "<redacted>"
    else if |text| > 120 then text[..117] + "..."
    else text
  }

  /** repr() never yields the placeholder for a scalar or a list. */
  ghost predicate PlainRepr(repr: Value -> string) {
    forall v: Value :: repr(v) != "<redacted>"
  }

  function Redact(repr: Value -> string, v: Value, prefix: string): Value {
    if v.Dict? then Dict(map k | k in v.m :: Redact(repr, v.m[k], PathJoin(prefix, k)))
    else if Shown(prefix, repr(v)) == "<redacted>" then REDACTED
    else v
  }

  method RedactConfigMapping(repr: Value -> string, data: Data, prefix: string) returns (redacted: Data)
    ensures redacted == Redact(repr, Dict(data), prefix).m
    decreases Dict(data)
  {
    redacted := map[];
    var todo := data.Keys;
    while todo != {}
      invariant todo <= data.Keys
      invariant redacted.Keys == data.Keys - todo
      invariant forall k | k in redacted :: redacted[k] == Redact(repr, data[k], PathJoin(prefix, k))
    {
      var key :| key in todo;
      var path := PathJoin(prefix, key);
      if data[key].Dict? {
        var inner := RedactConfigMapping(repr, data[key].m, path);
        redacted := redacted[key := Dict(inner)];
      } else if Shown(path, repr(data[key])) == "<redacted>" {
        redacted := redacted[key := REDACTED];
      } else {
        redacted := redacted[key := data[key]];
      }
      todo := todo - {key};
    }
  }

  /** A leaf is hidden exactly when its path is sensitive. */
  lemma HiddenIff(repr: Value -> string, path: string, v: Value)
    requires PlainRepr(repr)
    ensures Shown(path, repr(v)) == "<redacted>" <==> Sensitive(path)
  {
    if !Sensitive(path) && |repr(v)| > 120 {
      assert |Shown(path, repr(v))| == 120;
    }
  }

  /** The same tree up to what sensitive leaves hold. */
  predicate SameOutside(v: Value, w: Value, prefix: string) {
    if v.Dict? && w.Dict? then
      v.m.Keys == w.m.Keys && forall k | k in v.m :: SameOutside(v.m[k], w.m[k], PathJoin(prefix, k))
    else !v.Dict? && !w.Dict? && (Sensitive(prefix) || v == w)
  }

  /** The dump reveals everything but sensitive leaves, and nothing of those:
      two configurations have equal dumps exactly when they differ at sensitive leaves only. */
  lemma {:induction false} DumpRevealsExactly(repr: Value -> string, v: Value, w: Value, prefix: string)
    requires PlainRepr(repr)
    ensures Redact(repr, v, prefix) == Redact(repr, w, prefix) <==> SameOutside(v, w, prefix)
    decreases v
  {
    if v.Dict? && w.Dict? {
      forall k | k in v.m && k in w.m
        ensures Redact(repr, v.m[k], PathJoin(prefix, k)) == Redact(repr, w.m[k], PathJoin(prefix, k))
                <==> SameOutside(v.m[k], w.m[k], PathJoin(prefix, k))
      {
        DumpRevealsExactly(repr, v.m[k], w.m[k], PathJoin(prefix, k));
      }
      var a, b := Redact(repr, v, prefix).m, Redact(repr, w, prefix).m;
      assert a.Keys == v.m.Keys && b.Keys == w.m.Keys;
      if a == b {
        forall k | k in v.m ensures SameOutside(v.m[k], w.m[k], PathJoin(prefix, k)) { assert a[k] == b[k]; }
      }
    } else {
      HiddenIff(repr, prefix, v);
      HiddenIff(repr, prefix, w);
    }
  }

  /** The dump has the same positions; a leaf is kept as it is exactly off the sensitive paths. */
  lemma {:induction false} DumpPositions(repr: Value -> string, v: Value, prefix: string, ks: seq<string>)
    requires PlainRepr(repr)
    ensures At(Redact(repr, v, prefix), ks).Some? <==> At(v, ks).Some?
    ensures LeafAt(v, ks) ==>
              At(Redact(repr, v, prefix), ks) == Some(if Sensitive(JoinFrom(prefix, ks)) then REDACTED else At(v, ks).value)
    decreases ks
  {
    if ks == [] {
      HiddenIff(repr, prefix, v);
    } else if v.Dict? && ks[0] in v.m {
      DumpPositions(repr, v.m[ks[0]], PathJoin(prefix, ks[0]), ks[1..]);
    } else if !v.Dict? {
      assert !Redact(repr, v, prefix).Dict?;
    }
  }

  /** Redacting a dump changes nothing. */
  lemma {:induction false} DumpIdempotent(repr: Value -> string, v: Value, prefix: string)
    requires PlainRepr(repr)
    ensures Redact(repr, Redact(repr, v, prefix), prefix) == Redact(repr, v, prefix)
    decreases v
  {
    if v.Dict? {
      forall k | k in v.m
        ensures Redact(repr, Redact(repr, v.m[k], PathJoin(prefix, k)), PathJoin(prefix, k))
                == Redact(repr, v.m[k], PathJoin(prefix, k))
      {
        DumpIdempotent(repr, v.m[k], PathJoin(prefix, k));
      }
    } else {
      HiddenIff(repr, prefix, v);
      HiddenIff(repr, prefix, Redact(repr, v, prefix));
    }
  }

  /** The listed secrets and URLs are redacted wherever they hold a leaf, and so is every
      path that speaks of a key, a password or a webhook. */
  lemma SecretsHidden(repr: Value -> string, v: Value, path: string)
    requires PlainRepr(repr) && !v.Dict?
    requires path in {"oidc_client_secret", "ai_api_key", "ai_api_key_secret_name", "notifications.smtp.password_secret_id",
                      "oast_connector.token_secret_id", "zap_connector.api_key_secret_id", "zap_connector.scope_policy_token_secret_id",
                      "database_url", "oast_connector.base_url", "zap_connector.base_url", "zap_connector.scope_policy_url"}
             || (exists a, b :: path == a + "api_key" + b) || (exists a, b :: path == a + "password" + b)
             || (exists a, b :: path == a + "webhook" + b)
             || (exists a :: path == a + "_secret_id") || exists a :: path == a + "_secret_name"
    ensures Redact(repr, v, path) == Str("<redacted>")
  {
    hide SECRET_KEYS, SENSITIVE_URL_KEYS;
    assert Sensitive(path) by { SecretSensitive(path); }
    HiddenIff(repr, path, v);
  }

  lemma HasPart(path: string, a: string, part: string, b: string)
    requires path == a + part + b
    ensures Text.Contains(path, part)
  {
    assert path[|a|..] == part + b;
    assert part <= path[|a|..];
  }

  lemma SecretSensitive(path: string)
    requires path in {"oidc_client_secret", "ai_api_key", "ai_api_key_secret_name", "notifications.smtp.password_secret_id",
                      "oast_connector.token_secret_id", "zap_connector.api_key_secret_id", "zap_connector.scope_policy_token_secret_id",
                      "database_url", "oast_connector.base_url", "zap_connector.base_url", "zap_connector.scope_policy_url"}
             || (exists a, b :: path == a + "api_key" + b) || (exists a, b :: path == a + "password" + b)
             || (exists a, b :: path == a + "webhook" + b)
             || (exists a :: path == a + "_secret_id") || exists a :: path == a + "_secret_name"
    ensures Sensitive(path)
  {
    if a, b :| path == a + "api_key" + b { HasPart(path, a, "api_key", b); }
    else if a, b :| path == a + "password" + b { HasPart(path, a, "password", b); }
    else if a, b :| path == a + "webhook" + b { HasPart(path, a, "webhook", b); }
    else if a :| path == a + "_secret_id" { assert path[|a|..] == "_secret_id"; }
    else if a :| path == a + "_secret_name" { assert path[|a|..] == "_secret_name"; }
  }

  /** Nothing else is: a path with none of these marks is shown. */
  lemma OthersShown(repr: Value -> string, v: Value, path: string)
    requires PlainRepr(repr) && !v.Dict? && path !in SECRET_KEYS && path !in SENSITIVE_URL_KEYS
    requires !Text.EndsWith(path, "_secret_id") && !Text.EndsWith(path, "_secret_name")
    requires !Text.Contains(path, "api_key") && !Text.Contains(path, "password") && !Text.Contains(path, "webhook")
    ensures Redact(repr, v, path) == v
  {
    HiddenIff(repr, path, v);
  }
}
