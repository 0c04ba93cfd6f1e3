/**
 * The OAuth configuration manager: a provider's configuration is its
 * built-in template overlaid with the administrator's dynamic settings,
 * and it is usable only when the credentials the protocol needs are there.
 * Provider "x" speaks OAuth 1.0 (RFC 5849) and needs a client key and
 * secret; the others speak OAuth 2.0 (RFC 6749) and need a client id and
 * secret.
 *
 * The template table is a class-level dictionary, shared by every manager
 * and changed in place by add_provider_template; here it is an object the
 * managers hold a reference to. What the configuration-source function
 * answers on each call is an input.
 */
module OAuthConfig {
  import opened Common
  import opened PyValues

  /** A ConfigurationError: its message, its code and the provider. */
  datatype ConfigError = ConfigError(message: string, code: string, provider: string)

  /** What the configuration-source function does when called. */
  datatype SourceAnswer = SourceRaises | SourceReturns(value: PyValue)

  const GITHUB_TEMPLATE: PyDict := map[
    "auth_url" := PStr("https://github.com/login/oauth/authorize"),
    "token_url" := PStr("https://github.com/login/oauth/access_token"),
    "user_info_url" := PStr("https://api.github.com/user"),
    "emails_url" := PStr("https://api.github.com/user/emails"),
    "scope" := PStr("user:email")]

  const GOOGLE_TEMPLATE: PyDict := map[
    "auth_url" := PStr("https://accounts.google.com/o/oauth2/v2/auth"),
    "token_url" := PStr("https://oauth2.googleapis.com/token"),
    "user_info_url" := PStr("https://people.googleapis.com/v1/people/me"),
    "scope" := PStr("openid email profile")]

  const X_TEMPLATE: PyDict := map[
    "request_token_url" := PStr("https://api.twitter.com/oauth/request_token"),
    "auth_url" := PStr("https://api.twitter.com/oauth/authenticate"),
    "access_token_url" := PStr("https://api.twitter.com/oauth/access_token"),
    "user_info_url" := PStr("https://api.twitter.com/1.1/account/verify_credentials.json"),
    "include_email" := PStr("true")]

  const YANDEX_TEMPLATE: PyDict := map[
    "auth_url" := PStr("https://oauth.yandex.com/authorize"),
    "token_url" := PStr("https://oauth.yandex.com/token"),
    "user_info_url" := PStr("https://login.yandex.ru/info"),
    "scope" := PStr("login:email login:info")]

  const GITEE_TEMPLATE: PyDict := map[
    "auth_url" := PStr("https://gitee.com/oauth/authorize"),
    "token_url" := PStr("https://gitee.com/oauth/token"),
    "user_info_url" := PStr("https://gitee.com/api/v5/user"),
    "emails_url" := PStr("https://gitee.com/api/v5/emails"),
    "scope" := PStr("user_info emails")]

  /** The built-in providers, in the table's order. */
  const PROVIDER_ORDER: seq<string> := ["github", "google", "x", "yandex", "gitee"]

  const PROVIDER_TEMPLATES: map<string, PyValue> := map[
    "github" := PDict(GITHUB_TEMPLATE),
    "google" := PDict(GOOGLE_TEMPLATE),
    "x" := PDict(X_TEMPLATE),
    "yandex" := PDict(YANDEX_TEMPLATE),
    "gitee" := PDict(GITEE_TEMPLATE)]

  /**
   * _get_dynamic_config: the provider's entry of the source's answer, when
   * there is a source, its answer is switched on by a truthy 'enable', and
   * the entry is a non-empty dictionary whose 'enabled' is missing or
   * truthy. A source that raises, or an answer without `.get`, gives None.
   */
  function DynamicConfig(provider: string, hasSource: bool, answer: SourceAnswer): Option<PyDict>
  {
    if !hasSource || answer.SourceRaises? then None
    else
      var config := answer.value;
      if !Truthy(config) || !config.PDict? then None
      else if !Truthy(Get(config.d, "enable", PBool(false))) then None
      else
        var entry := Get(config.d, provider, PNone);
        if !Truthy(entry) || !entry.PDict? then None
        else if !Truthy(Get(entry.d, "enabled", PBool(true))) then None
        else Some(entry.d)
  }

  /** The conditions under which dynamic settings apply, spelled out without defaults. */
  lemma DynamicConfigSpec(provider: string, hasSource: bool, answer: SourceAnswer)
    ensures var r := DynamicConfig(provider, hasSource, answer);
      && (r.Some? <==>
            hasSource && answer.SourceReturns? && answer.value.PDict?
            && "enable" in answer.value.d && Truthy(answer.value.d["enable"])
            && provider in answer.value.d && answer.value.d[provider].PDict?
            && answer.value.d[provider].d != map[]
            && ("enabled" !in answer.value.d[provider].d || Truthy(answer.value.d[provider].d["enabled"])))
      && (r.Some? ==> r.value == answer.value.d[provider].d)
  {
  }

  /** The fields the provider's protocol needs, in the order they are reported. */
  function RequiredFields(provider: string): seq<string>
  {
    if provider == "x" then ["client_key", "client_secret"] else ["client_id", "client_secret"]
  }

  predicate Missing(config: PyDict, field: string)
  {
    !Truthy(Get(config, field, PNone))
  }

  /** The fields of `fields` that are missing or falsy in `config`, in order. */
  function MissingFrom(config: PyDict, fields: seq<string>): seq<string>
  {
    if fields == [] then []
    else (if Missing(config, fields[0]) then [fields[0]] else []) + MissingFrom(config, fields[1..])
  }

  /** A field is reported exactly when it is required and missing. */
  lemma {:induction false} MissingFromMembership(config: PyDict, fields: seq<string>, f: string)
    ensures f in MissingFrom(config, fields) <==> f in fields && Missing(config, f)
  {
    if fields != [] {
      MissingFromMembership(config, fields[1..], f);
      assert fields == [fields[0]] + fields[1..];
    }
  }

  /** The required fields that are missing or falsy, in order. */
  function MissingFields(config: PyDict, provider: string): seq<string>
  {
    MissingFrom(config, RequiredFields(provider))
  }

  /** ', '.join(parts). */
  function Join(parts: seq<string>, sep: string): string
  {
    if parts == [] then "" else if |parts| == 1 then parts[0] else parts[0] + sep + Join(parts[1..], sep)
  }

  /** The missing list names exactly the required fields that are falsy, keeping their order. */
  lemma MissingFieldsSpec(config: PyDict, provider: string)
    ensures var key := if provider == "x" then "client_key" else "client_id";
      var m := MissingFields(config, provider);
      m == (if Missing(config, key) then [key] else []) + (if Missing(config, "client_secret") then ["client_secret"] else [])
  {
    var req := RequiredFields(provider);
    assert req[1..][1..] == [];
    assert MissingFrom(config, req[1..]) ==
      (if Missing(config, req[1]) then [req[1]] else []) + MissingFrom(config, req[1..][1..]);
    assert MissingFrom(config, req) ==
      (if Missing(config, req[0]) then [req[0]] else []) + MissingFrom(config, req[1..]);
  }

  /**
   * get_provider_config: the template, overlaid with the dynamic settings,
   * checked for the required fields. A missing or falsy template is
   * "unsupported_provider"; a template that is not a dictionary makes
   * `.copy()` raise, which is wrapped as "config_error" (`errorText` is that
   * exception's text); missing fields are "incomplete_config".
   */
  function ProviderConfig(templates: map<string, PyValue>, provider: string, hasSource: bool,
                          answer: SourceAnswer, errorText: string): Result<PyDict, ConfigError>
  {
    var template := Get(templates, provider, PNone);
    if !Truthy(template) then
      Failure(ConfigError("不支持的OAuth提供商: " + provider, "unsupported_provider", provider))
    else if !template.PDict? then
      Failure(ConfigError("获取" + provider + "配置时出错: " + errorText, "config_error", provider))
    else
      var dynamic := DynamicConfig(provider, hasSource, answer);
      var config := if dynamic.Some? then template.d + dynamic.value else template.d;
      var missing := MissingFields(config, provider);
      if missing != [] then
        Failure(ConfigError(provider + "配置不完整，缺少字段: " + Join(missing, ", "), "incomplete_config", provider))
      else Success(config)
  }

  /**
   * The result is the template with every dynamic key overriding it, and it
   * is returned exactly when the template is a non-empty dictionary and the
   * merged configuration has every required field.
   */
  lemma ProviderConfigSpec(templates: map<string, PyValue>, provider: string, hasSource: bool,
                           answer: SourceAnswer, errorText: string)
    ensures var r := ProviderConfig(templates, provider, hasSource, answer, errorText);
      var dynamic := DynamicConfig(provider, hasSource, answer);
      && ((provider !in templates || !Truthy(templates[provider])) ==>
            r.Failure? && r.error.code == "unsupported_provider")
      && (provider in templates && Truthy(templates[provider]) && !templates[provider].PDict? ==>
            r.Failure? && r.error.code == "config_error")
      && (r.Success? ==>
            && provider in templates && templates[provider].PDict?
            && (forall k :: k in r.value <==> k in templates[provider].d || (dynamic.Some? && k in dynamic.value))
            && (forall k :: k in r.value ==>
                  r.value[k] == if dynamic.Some? && k in dynamic.value then dynamic.value[k] else templates[provider].d[k])
            && (forall f :: f in RequiredFields(provider) ==> f in r.value && Truthy(r.value[f])))
      && (r.Failure? ==> r.error.provider == provider)
  {
    var r := ProviderConfig(templates, provider, hasSource, answer, errorText);
    if r.Success? {
      var dynamic := DynamicConfig(provider, hasSource, answer);
      var template := templates[provider].d;
      var config := if dynamic.Some? then template + dynamic.value else template;
      forall f | f in RequiredFields(provider) ensures f in r.value && Truthy(r.value[f]) {
        MissingFromMembership(config, RequiredFields(provider), f);
      }
    }
  }

  /** An incomplete configuration is reported with the missing fields joined by ", ". */
  lemma IncompleteMessage(templates: map<string, PyValue>, provider: string, hasSource: bool,
                          answer: SourceAnswer, errorText: string)
    requires provider in templates && templates[provider].PDict? && templates[provider].d != map[]
    ensures var r := ProviderConfig(templates, provider, hasSource, answer, errorText);
      var dynamic := DynamicConfig(provider, hasSource, answer);
      var config := if dynamic.Some? then templates[provider].d + dynamic.value else templates[provider].d;
      MissingFields(config, provider) != [] <==>
        r.Failure? && r.error.code == "incomplete_config"
        && r.error.message == provider + "配置不完整，缺少字段: " + Join(MissingFields(config, provider), ", ")
  {
  }

  /** A non-empty template without a client secret, and no dynamic settings, is "incomplete_config". */
  lemma NoSecretIsIncomplete(templates: map<string, PyValue>, provider: string, errorText: string)
    requires provider in templates && templates[provider].PDict? && templates[provider].d != map[]
    requires "client_secret" !in templates[provider].d
    ensures ProviderConfig(templates, provider, false, SourceRaises, errorText).Failure?
    ensures ProviderConfig(templates, provider, false, SourceRaises, errorText).error.code == "incomplete_config"
  {
    MissingFieldsSpec(templates[provider].d, provider);
    assert Missing(templates[provider].d, "client_secret");
  }

  /** Every built-in template is a non-empty dictionary without credentials. */
  lemma BuiltInTemplatesLackSecrets(provider: string)
    requires provider in PROVIDER_ORDER
    ensures provider in PROVIDER_TEMPLATES && PROVIDER_TEMPLATES[provider].PDict?
    ensures "user_info_url" in PROVIDER_TEMPLATES[provider].d
    ensures "client_secret" !in PROVIDER_TEMPLATES[provider].d
  {
  }

  /** Without dynamic settings no built-in provider is usable: no template carries credentials. */
  lemma BuiltInTemplatesNeedCredentials(provider: string, errorText: string)
    requires provider in PROVIDER_ORDER
    ensures ProviderConfig(PROVIDER_TEMPLATES, provider, false, SourceRaises, errorText).Failure?
    ensures ProviderConfig(PROVIDER_TEMPLATES, provider, false, SourceRaises, errorText).error.code == "incomplete_config"
  {
    BuiltInTemplatesLackSecrets(provider);
    NoSecretIsIncomplete(PROVIDER_TEMPLATES, provider, errorText);
  }

  /** The shared template table: the providers in insertion order, and their templates. */
  class TemplateTable {
    var order: seq<string>
    var templates: map<string, PyValue>

    /** The order lists each key of the table once. */
    predicate Valid()
      reads this
    {
      && NoDuplicates(order)
      && (forall k :: k in templates ==> k in order)
      && (forall k :: k in order ==> k in templates)
    }

    constructor ()
      ensures order == PROVIDER_ORDER && templates == PROVIDER_TEMPLATES
      ensures Valid()
    {
      order := PROVIDER_ORDER;
      templates := PROVIDER_TEMPLATES;
    }

    /** get_supported_providers: the table's keys, in order. */
    method SupportedProviders() returns (r: seq<string>)
      requires Valid()
      ensures r == order
      ensures NoDuplicates(r) && forall k :: k in r <==> k in templates
    {
      r := order;
    }

    /** add_provider_template: adds or replaces exactly one entry; a new provider goes last. */
    method AddProviderTemplate(provider: string, template: PyValue)
      requires Valid()
      modifies this
      ensures Valid()
      ensures templates == old(templates)[provider := template]
      ensures order == if provider in old(templates) then old(order) else old(order) + [provider]
    {
      if provider !in templates {
        order := order + [provider];
      }
      templates := templates[provider := template];
    }
  }

  /** A fresh table lists the five built-in providers. */
  method SupportedProvidersOfFreshTable() returns (r: seq<string>)
    ensures r == PROVIDER_ORDER
  {
    var table := new TemplateTable();
    r := table.SupportedProviders();
  }

  /** OAuthConfigManager: the shared table and whether a configuration source was given. */
  class OAuthConfigManager {
    const table: TemplateTable
    const hasSource: bool

    constructor (table: TemplateTable, hasSource: bool)
      ensures this.table == table && this.hasSource == hasSource
    {
      this.table := table;
      this.hasSource := hasSource;
    }

    /** get_provider_config against the table as it is now; the table is not changed. */
    method GetProviderConfig(provider: string, answer: SourceAnswer, errorText: string) returns (r: Result<PyDict, ConfigError>)
      ensures r == ProviderConfig(table.templates, provider, hasSource, answer, errorText)
    {
      r := ProviderConfig(table.templates, provider, hasSource, answer, errorText);
    }

    /** is_provider_enabled: true exactly when get_provider_config raises no ConfigurationError. */
    method IsProviderEnabled(provider: string, answer: SourceAnswer) returns (enabled: bool)
      ensures enabled <==> ProviderConfig(table.templates, provider, hasSource, answer, "").Success?
    {
      var r := GetProviderConfig(provider, answer, "");
      enabled := r.Success?;
    }
  }
}
