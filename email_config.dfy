/**
 * The mail-configuration service: which stored configuration is used, the
 * defaults filled in when configurations are saved, the SSL decision for an
 * SMTP connection, the checks of a configuration under test, and what the
 * save and test endpoints do to the request before that.
 *
 * Configurations are JSON dictionaries. The stored file's contents and
 * whether it can be read and written, the configuration cache, the random
 * choice, the Java back end's reply and the SMTP server's behaviour are
 * inputs.
 */
module EmailConfig {
  import opened Common
  import opened Text
  import opened PyValues

  // ---------------------------------------------------------------------------
  // Choosing a configuration
  // ---------------------------------------------------------------------------

  /** str(config.get('id', '')) == str(config_id); a dictionary-valued id matches nothing. */
  predicate IdMatches(config: PyDict, configId: PyValue)
  {
    PyStr(Get(config, "id", PStr(""))).Some? && PyStr(Get(config, "id", PStr(""))) == PyStr(configId)
  }

  predicate IsDefaultConfig(config: PyDict)
  {
    Truthy(Get(config, "isDefault", PBool(false)))
  }

  /** The position of the configuration get_mail_config returns, if any. */
  function MailConfigIndex(configs: seq<PyDict>, configId: PyValue): Option<nat>
  {
    if configs == [] then None
    else
      var byId := if Truthy(configId) then FirstWhere(configs, c => IdMatches(c, configId)) else None;
      if byId.Some? then byId
      else
        var byDefault := FirstWhere(configs, IsDefaultConfig);
        if byDefault.Some? then byDefault else Some(0)
  }

  /**
   * Nothing without configurations; otherwise the first one whose id prints
   * like the requested id, when an id is given and one matches; else the
   * first marked default; else the first.
   */
  lemma MailConfigIndexSpec(configs: seq<PyDict>, configId: PyValue)
    ensures MailConfigIndex(configs, configId).None? <==> configs == []
    ensures MailConfigIndex(configs, configId).Some? ==> MailConfigIndex(configs, configId).value < |configs|
    ensures var r := MailConfigIndex(configs, configId);
      Truthy(configId) && (exists k :: 0 <= k < |configs| && IdMatches(configs[k], configId)) ==>
        r.Some? && IdMatches(configs[r.value], configId) && forall j :: 0 <= j < r.value ==> !IdMatches(configs[j], configId)
    ensures var r := MailConfigIndex(configs, configId);
      (!Truthy(configId) || forall k :: 0 <= k < |configs| ==> !IdMatches(configs[k], configId)) ==>
        && ((exists k :: 0 <= k < |configs| && IsDefaultConfig(configs[k])) ==>
              r.Some? && IsDefaultConfig(configs[r.value]) && forall j :: 0 <= j < r.value ==> !IsDefaultConfig(configs[j]))
        && (configs != [] && (forall k :: 0 <= k < |configs| ==> !IsDefaultConfig(configs[k])) ==> r == Some(0))
  {
  }

  /** get_mail_config: the two searches, then the first configuration. */
  method GetMailConfig(configs: seq<PyDict>, configId: PyValue) returns (r: Option<PyDict>)
    ensures var k := MailConfigIndex(configs, configId);
      r == if k.None? then None else Some(configs[k.value])
  {
    if configs == [] {
      return None;
    }
    if Truthy(configId) {
      var i := 0;
      while i < |configs|
        invariant 0 <= i <= |configs|
        invariant forall j :: 0 <= j < i ==> !IdMatches(configs[j], configId)
      {
        if IdMatches(configs[i], configId) {
          return Some(configs[i]);
        }
        i := i + 1;
      }
    }
    var i := 0;
    while i < |configs|
      invariant 0 <= i <= |configs|
      invariant forall j :: 0 <= j < i ==> !IsDefaultConfig(configs[j])
    {
      if IsDefaultConfig(configs[i]) {
        return Some(configs[i]);
      }
      i := i + 1;
    }
    return Some(configs[0]);
  }

  predicate IsEnabledConfig(config: PyDict)
  {
    Truthy(Get(config, "enabled", PBool(false)))
  }

  /**
   * get_random_email_config: one of the enabled configurations, chosen by
   * `pick`; without one, the configuration at the cached default index when
   * that index is a number in range. A cache that fails reads as `PNone`; an
   * index that is not a number makes the comparison raise, which is caught.
   */
  function RandomEmailConfig(configs: seq<PyDict>, cached: PyValue, pick: nat): (r: Option<PyDict>)
  {
    var enabled := Filter(configs, IsEnabledConfig);
    if enabled != [] then Some(enabled[pick % |enabled|])
    else if !cached.PDict? || !Truthy(cached) then None
    else
      var index := AsNumber(Get(cached.d, "defaultIndex", PInt(-1)));
      if index.Some? && 0 <= index.value < |configs| then Some(configs[index.value]) else None
  }

  /** Any enabled configuration is picked over the default; the fallback is used only without one. */
  lemma RandomEmailConfigSpec(configs: seq<PyDict>, cached: PyValue, pick: nat)
    ensures var r := RandomEmailConfig(configs, cached, pick);
      && ((exists k :: 0 <= k < |configs| && IsEnabledConfig(configs[k])) ==>
            r.Some? && r.value in configs && IsEnabledConfig(r.value))
      && ((forall k :: 0 <= k < |configs| ==> !IsEnabledConfig(configs[k])) ==>
            (r.Some? <==> cached.PDict? && "defaultIndex" in cached.d
                          && AsNumber(cached.d["defaultIndex"]).Some?
                          && 0 <= AsNumber(cached.d["defaultIndex"]).value < |configs|))
  {
    var enabled := Filter(configs, IsEnabledConfig);
    if k :| 0 <= k < |configs| && IsEnabledConfig(configs[k]) {
      FilterMembership(configs, IsEnabledConfig, configs[k]);
      FilterMembership(configs, IsEnabledConfig, enabled[pick % |enabled|]);
    } else if enabled != [] {
      FilterMembership(configs, IsEnabledConfig, enabled[0]);
    }
  }

  // ---------------------------------------------------------------------------
  // Saving configurations
  // ---------------------------------------------------------------------------

  /** `if key not in d: d[key] = v`. */
  function SetDefault(d: PyDict, key: string, v: PyValue): PyDict
  {
    if key in d then d else d[key := v]
  }

  const SAVED_KEYS: set<string> := {"id", "connectionTimeout", "timeout", "jndiName", "trustAllCerts", "customProperties"}

  /** The configuration at position i after save_email_configs has filled it in. */
  function WithSavedDefaults(config: PyDict, i: nat): PyDict
  {
    var c := SetDefault(config, "id", PInt(i + 1));
    var c := SetDefault(c, "connectionTimeout", PInt(25000));
    var c := SetDefault(c, "timeout", PInt(25000));
    var c := SetDefault(c, "jndiName", PStr(""));
    var c := SetDefault(c, "trustAllCerts", PBool(false));
    SetDefault(c, "customProperties", PDict(map[]))
  }

  /** One default: the key is added with `v` when missing; every other key stays. */
  lemma SetDefaultSpec(d: PyDict, key: string, v: PyValue)
    ensures SetDefault(d, key, v).Keys == d.Keys + {key}
    ensures forall k :: k in d ==> SetDefault(d, key, v)[k] == d[k]
    ensures key !in d ==> SetDefault(d, key, v)[key] == v
  {
  }

  /** The six keys are added where missing, and nothing else. */
  lemma SavedDefaultsKeys(config: PyDict, i: nat)
    ensures WithSavedDefaults(config, i).Keys == config.Keys + SAVED_KEYS
  {
    var c1 := SetDefault(config, "id", PInt(i + 1));
    var c2 := SetDefault(c1, "connectionTimeout", PInt(25000));
    var c3 := SetDefault(c2, "timeout", PInt(25000));
    var c4 := SetDefault(c3, "jndiName", PStr(""));
    var c5 := SetDefault(c4, "trustAllCerts", PBool(false));
    assert c5.Keys == config.Keys + {"id", "connectionTimeout", "timeout", "jndiName", "trustAllCerts"};
  }

  /** Every key present keeps its value. */
  lemma SavedDefaultsSpec(config: PyDict, i: nat)
    ensures forall k :: k in config ==> WithSavedDefaults(config, i)[k] == config[k]
  {
    var c1 := SetDefault(config, "id", PInt(i + 1));
    SetDefaultSpec(config, "id", PInt(i + 1));
    var c2 := SetDefault(c1, "connectionTimeout", PInt(25000));
    SetDefaultSpec(c1, "connectionTimeout", PInt(25000));
    var c3 := SetDefault(c2, "timeout", PInt(25000));
    SetDefaultSpec(c2, "timeout", PInt(25000));
    var c4 := SetDefault(c3, "jndiName", PStr(""));
    SetDefaultSpec(c3, "jndiName", PStr(""));
    var c5 := SetDefault(c4, "trustAllCerts", PBool(false));
    SetDefaultSpec(c4, "trustAllCerts", PBool(false));
    SetDefaultSpec(c5, "customProperties", PDict(map[]));
  }

  /** The values added: the id numbered from 1 by position, the timeouts 25000, and empty or false otherwise. */
  lemma SavedDefaultsAdded(config: PyDict, i: nat)
    ensures var r := WithSavedDefaults(config, i);
      && ("id" !in config ==> r["id"] == PInt(i + 1))
      && ("connectionTimeout" !in config ==> r["connectionTimeout"] == PInt(25000))
      && ("timeout" !in config ==> r["timeout"] == PInt(25000))
      && ("jndiName" !in config ==> r["jndiName"] == PStr(""))
      && ("trustAllCerts" !in config ==> r["trustAllCerts"] == PBool(false))
      && ("customProperties" !in config ==> r["customProperties"] == PDict(map[]))
  {
    var c1 := SetDefault(config, "id", PInt(i + 1));
    SetDefaultSpec(config, "id", PInt(i + 1));
    var c2 := SetDefault(c1, "connectionTimeout", PInt(25000));
    SetDefaultSpec(c1, "connectionTimeout", PInt(25000));
    var c3 := SetDefault(c2, "timeout", PInt(25000));
    SetDefaultSpec(c2, "timeout", PInt(25000));
    var c4 := SetDefault(c3, "jndiName", PStr(""));
    SetDefaultSpec(c3, "jndiName", PStr(""));
    var c5 := SetDefault(c4, "trustAllCerts", PBool(false));
    SetDefaultSpec(c4, "trustAllCerts", PBool(false));
    SetDefaultSpec(c5, "customProperties", PDict(map[]));
  }

  /** Saving again, at any position, changes nothing: the numbering of the first save stays. */
  lemma SavedDefaultsIdempotent(config: PyDict, i: nat, j: nat)
    ensures WithSavedDefaults(WithSavedDefaults(config, i), j) == WithSavedDefaults(config, i)
  {
    SavedDefaultsKeys(config, i);
    SavedDefaultsSpec(config, i);
    var once := WithSavedDefaults(config, i);
    SavedDefaultsKeys(once, j);
    SavedDefaultsSpec(once, j);
  }

  /** The file save_email_configs writes. */
  datatype MailFile = MailFile(configs: seq<PyDict>, defaultIndex: PyValue)

  /**
   * The index kept when none is given: the stored one, -1 when the file has
   * none or does not exist; None where the stored document is not an object
   * and `.get` raises.
   */
  function StoredDefaultIndex(stored: Option<PyValue>): Option<PyValue>
  {
    if stored.None? then Some(PInt(-1))
    else if stored.value.PDict? then Some(Get(stored.value.d, "defaultIndex", PInt(-1)))
    else None
  }

  /** The defaults loop: each configuration in the list gets its defaults, in place. */
  method FillSavedDefaults(configs: array<PyDict>)
    modifies configs
    ensures forall k :: 0 <= k < configs.Length ==> configs[k] == WithSavedDefaults(old(configs[k]), k)
  {
    for i := 0 to configs.Length
      invariant forall k :: 0 <= k < i ==> configs[k] == WithSavedDefaults(old(configs[k]), k)
      invariant forall k :: i <= k < configs.Length ==> configs[k] == old(configs[k])
    {
      var c := configs[i];
      c := SetDefault(c, "id", PInt(i + 1));
      c := SetDefault(c, "connectionTimeout", PInt(25000));
      c := SetDefault(c, "timeout", PInt(25000));
      c := SetDefault(c, "jndiName", PStr(""));
      c := SetDefault(c, "trustAllCerts", PBool(false));
      c := SetDefault(c, "customProperties", PDict(map[]));
      configs[i] := c;
    }
  }

  /**
   * save_email_configs: reads the stored file (`readable`), fills the
   * defaults into the configurations themselves, and writes the file
   * (`writable`); any failure returns false.
   */
  method SaveEmailConfigs(configs: array<PyDict>, defaultIndex: PyValue, stored: Option<PyValue>,
                          readable: bool, writable: bool) returns (ok: bool, written: Option<MailFile>)
    modifies configs
    ensures var index := if defaultIndex == PNone then StoredDefaultIndex(stored) else Some(defaultIndex);
      && (ok <==> readable && index.Some? && writable)
      && (ok ==> written == Some(MailFile(configs[..], index.value)))
      && (!ok ==> written == None)
    ensures readable && (defaultIndex != PNone || StoredDefaultIndex(stored).Some?) ==>
      forall k :: 0 <= k < configs.Length ==> configs[k] == WithSavedDefaults(old(configs[k]), k)
    ensures !readable || (defaultIndex == PNone && StoredDefaultIndex(stored).None?) ==>
      configs[..] == old(configs[..])
  {
    if !readable {
      return false, None;
    }
    var index := defaultIndex;
    if index == PNone {
      var s := StoredDefaultIndex(stored);
      if s.None? {
        return false, None;
      }
      index := s.value;
    }
    FillSavedDefaults(configs);
    if !writable {
      return false, None;
    }
    return true, Some(MailFile(configs[..], index));
  }

  /** The request body of the save endpoint: a list of configurations, another value `len` accepts, or one it rejects. */
  datatype SaveBody = ListBody(items: seq<PyDict>) | SizedBody | UnsizedBody

  /** The defaultIndex query parameter: "-1" when absent, -1 when int() rejects it. */
  function DefaultIndexParam(query: Option<string>): int
  {
    var v := ParseInt(if query.Some? then query.value else "-1");
    if v.Some? then v.value else -1
  }

  lemma MinusOneSpelled()
    ensures IntToDecimal(-1) == "-1"
  {
  }

  /** An absent parameter and a non-number give -1; a printed integer gives itself. */
  lemma DefaultIndexParamSpec(query: Option<string>, n: int)
    ensures DefaultIndexParam(None) == -1
    ensures DefaultIndexParam(Some(IntToDecimal(n))) == n
    ensures query.Some? && (exists k :: 0 <= k < |query.value| && !PyIsSpace(query.value[k]) && !IsDigit(query.value[k])
                                         && query.value[k] != '+' && query.value[k] != '-' && query.value[k] != '_') ==>
      DefaultIndexParam(query) == -1
  {
    MinusOneSpelled();
    ParseIntDecimal(-1);
    ParseIntDecimal(n);
    if query.Some? && exists k :: 0 <= k < |query.value| && !PyIsSpace(query.value[k]) && !IsDigit(query.value[k])
                                   && query.value[k] != '+' && query.value[k] != '-' && query.value[k] != '_' {
      var k :| 0 <= k < |query.value| && !PyIsSpace(query.value[k]) && !IsDigit(query.value[k])
               && query.value[k] != '+' && query.value[k] != '-' && query.value[k] != '_';
      ParseIntRejects(query.value, k);
    }
  }

  /** What the save endpoint adds before saving: enabled = True and customProperties = {} where missing. */
  function WithEndpointDefaults(config: PyDict): PyDict
  {
    SetDefault(SetDefault(config, "enabled", PBool(true)), "customProperties", PDict(map[]))
  }

  /** The configurations the save endpoint writes for the request's list. */
  function SavedConfigs(items: seq<PyDict>): (r: seq<PyDict>)
    ensures |r| == |items|
    ensures forall k :: 0 <= k < |items| ==> r[k] == WithSavedDefaults(WithEndpointDefaults(items[k]), k)
  {
    seq(|items|, k requires 0 <= k < |items| => WithSavedDefaults(WithEndpointDefaults(items[k]), k))
  }

  /** Every saved configuration is enabled unless the request said otherwise, and keeps every key it was sent with. */
  lemma SavedConfigsSpec(items: seq<PyDict>, k: nat)
    requires k < |items|
    ensures var saved := SavedConfigs(items)[k];
      && "enabled" in saved
      && ("enabled" !in items[k] ==> saved["enabled"] == PBool(true))
      && (forall key :: key in items[k] ==> key in saved && saved[key] == items[k][key])
      && saved["id"] == (if "id" in items[k] then items[k]["id"] else PInt(k + 1))
  {
    var sent := WithEndpointDefaults(items[k]);
    SavedDefaultsKeys(sent, k);
    SavedDefaultsSpec(sent, k);
    SavedDefaultsAdded(sent, k);
  }

  /**
   * The save endpoint: 500 when `len` of the body raises, 400 when the body
   * is not a list, otherwise the configurations get the endpoint's and the
   * service's defaults and are saved with the integer query index; 200 when
   * the save succeeds, 500 otherwise.
   */
  method SaveEmailConfigsApi(query: Option<string>, body: SaveBody, stored: Option<PyValue>,
                             readable: bool, writable: bool) returns (status: int, written: Option<MailFile>)
    ensures body.UnsizedBody? ==> status == 500 && written == None
    ensures body.SizedBody? ==> status == 400 && written == None
    ensures body.ListBody? ==> (status == 200 <==> readable && writable) && (status == 200 || status == 500)
    ensures body.ListBody? && status == 200 ==>
      written == Some(MailFile(SavedConfigs(body.items), PInt(DefaultIndexParam(query))))
    ensures status != 200 ==> written == None
  {
    if body.UnsizedBody? {
      return 500, None;
    }
    var index := DefaultIndexParam(query);
    if body.SizedBody? {
      return 400, None;
    }
    var items := body.items;
    var configs := new PyDict[|items|](k requires 0 <= k < |items| => items[k]);
    for i := 0 to configs.Length
      invariant forall k :: 0 <= k < i ==> configs[k] == WithEndpointDefaults(items[k])
      invariant forall k :: i <= k < configs.Length ==> configs[k] == items[k]
    {
      var c := configs[i];
      if "enabled" !in c {
        c := c["enabled" := PBool(true)];
      }
      if "customProperties" !in c {
        c := c["customProperties" := Get(c, "customProperties", PDict(map[]))];
      }
      configs[i] := c;
    }
    var ok;
    ok, written := SaveEmailConfigs(configs, PInt(index), stored, readable, writable);
    if ok {
      assert configs[..] == SavedConfigs(items);
      status := 200;
    } else {
      status := 500;
    }
  }

  // ---------------------------------------------------------------------------
  // The SSL decision
  // ---------------------------------------------------------------------------

  /** How create_smtp_connection reads the `ssl` value. */
  predicate SslFlag(v: PyValue)
  {
    match v
    case PBool(b) => b
    case PStr(s) => Lower(s) == "true" || Lower(s) == "1" || Lower(s) == "yes"
    case _ => PyEq(v, PInt(1)) || PyEq(v, PBool(true))
  }

  /** Why create_smtp_connection raises before it connects. */
  datatype SmtpSetupError = EmptyConfig | BadPort | BadProtocol | BadTimeout | BadProxyPort | BadProxyType

  /** The port a connection uses: int() of the configured one, 25 when absent. */
  function SmtpPort(config: PyDict): Option<int>
  {
    PyInt(Get(config, "port", PInt(25)))
  }

  /**
   * create_smtp_connection up to the SSL decision: an empty configuration
   * and a port int() rejects raise; otherwise whether SSL is used.
   */
  function SmtpSsl(config: PyDict): Result<bool, SmtpSetupError>
  {
    if config == map[] then Failure(EmptyConfig)
    else if SmtpPort(config).None? then Failure(BadPort)
    else Success(("ssl" in config && SslFlag(config["ssl"])) || SmtpPort(config).value == 465)
  }

  /**
   * SSL is used exactly when the port is 465, or `ssl` is True, 1, or a
   * string reading "true", "1" or "yes" in any case.
   */
  lemma SmtpSslSpec(config: PyDict)
    ensures SmtpSsl(config).Failure? <==> config == map[] || SmtpPort(config).None?
    ensures SmtpSsl(config) == Success(true) <==>
      config != map[] && SmtpPort(config).Some?
      && (SmtpPort(config) == Some(465)
          || ("ssl" in config
              && (config["ssl"] == PBool(true) || config["ssl"] == PInt(1)
                  || (config["ssl"].PStr? && Lower(config["ssl"].s) in ["true", "1", "yes"]))))
  {
    if "ssl" in config {
      PyEqNumbers(config["ssl"]);
    }
  }

  /**
   * create_smtp_connection up to the connection itself: after the SSL
   * decision it upper-cases the protocol and the proxy type, which raises for
   * a value that is not a string, and applies int() to the timeout (60 when
   * absent) and to a truthy proxy port. The result is the SSL decision.
   */
  function SmtpSetup(config: PyDict): Result<bool, SmtpSetupError>
  {
    if SmtpSsl(config).Failure? then SmtpSsl(config)
    else if "protocol" in config && !config["protocol"].PStr? then Failure(BadProtocol)
    else if PyInt(Get(config, "connectionTimeout", PInt(60))).None? then Failure(BadTimeout)
    else if Truthy(Get(config, "proxyPort", PNone)) && PyInt(config["proxyPort"]).None? then Failure(BadProxyPort)
    else if "proxyType" in config && !config["proxyType"].PStr? then Failure(BadProxyType)
    else SmtpSsl(config)
  }

  /**
   * Setting up succeeds exactly when the SSL decision can be made, the
   * protocol and proxy type are strings when present, the timeout is absent
   * or int() accepts it, and the proxy port is falsy or int() accepts it;
   * it then makes the same SSL decision. The first problem in source order
   * is the one reported.
   */
  lemma SmtpSetupSpec(config: PyDict)
    ensures SmtpSetup(config).Success? <==>
      && SmtpSsl(config).Success?
      && ("protocol" in config ==> config["protocol"].PStr?)
      && ("connectionTimeout" in config ==> PyInt(config["connectionTimeout"]).Some?)
      && ("proxyPort" in config && Truthy(config["proxyPort"]) ==> PyInt(config["proxyPort"]).Some?)
      && ("proxyType" in config ==> config["proxyType"].PStr?)
    ensures SmtpSetup(config).Success? ==> SmtpSetup(config) == SmtpSsl(config)
    ensures SmtpSsl(config).Failure? ==> SmtpSetup(config) == SmtpSsl(config)
    ensures SmtpSsl(config).Success? && "protocol" in config && config["protocol"] == PNone ==> SmtpSetup(config) == Failure(BadProtocol)
    ensures SmtpSsl(config).Success? && "protocol" !in config && "connectionTimeout" in config && config["connectionTimeout"] == PNone ==>
      SmtpSetup(config) == Failure(BadTimeout)
  {
    assert PyInt(PInt(60)) == Some(60);
  }

  /** "465" as a string is read as port 465 and forces SSL. */
  lemma QuotedSslPort(config: PyDict)
    requires "port" in config && config["port"] == PStr(IntToDecimal(465))
    ensures SmtpSsl(config) == Success(true)
  {
    ParseIntDecimal(465);
  }

  // ---------------------------------------------------------------------------
  // Testing a configuration
  // ---------------------------------------------------------------------------

  const MSG_EMPTY := "邮箱配置不能为空"
  const MSG_NO_HOST := "邮箱服务器地址不能为空"
  const MSG_NO_PORT := "邮箱服务器端口不能为空"
  const MSG_NO_CREDENTIALS := "用户名和密码不能为空"
  const MSG_TIMEOUT := "连接邮箱服务器超时，请检查服务器地址和端口设置是否正确，网络连接是否正常"
  const MSG_AUTH := "认证失败，用户名或密码错误。请检查：\n1. 密码是否正确\n2. 是否需要使用应用专用密码/授权码而非登录密码\n3. 邮箱是否已开启SMTP服务"
  const TIMEOUT_WORD := "超时"

  /** What connecting to and logging in at the SMTP server does: it succeeds or raises one of the handled exceptions. */
  datatype SmtpOutcome =
    | Connected
    | TimedOut
    | SslFailed(detail: string)
    | AuthFailed
    | ConnectFailed(detail: string)
    | SmtpFailed(detail: string)
    | OtherFailed(detail: string)

  /** The provider-specific hint in the success message. */
  datatype ProviderTip = NeteaseTip | QqTip | GmailTip | OutlookTip | AliyunTip | NoProviderTip

  /** The port-specific hint in the success message. */
  datatype PortTip = SslPortTip | StarttlsPortTip | PlainPortTip | NoPortTip

  /** test_email_config's verdict: success with its two hints, or failure with its message. */
  datatype TestResult = Passed(provider: ProviderTip, port: PortTip) | Failed(message: string)

  /** The hint for a lower-cased host name; the first that applies wins. */
  function ProviderTipOf(host: string): ProviderTip
  {
    if Contains(host, "163.com") || Contains(host, "126.com") then NeteaseTip
    else if Contains(host, "qq.com") then QqTip
    else if Contains(host, "gmail.com") then GmailTip
    else if Contains(host, "outlook.com") || Contains(host, "hotmail.com") then OutlookTip
    else if Contains(host, "aliyun.com") then AliyunTip
    else NoProviderTip
  }

  /** The hint for the configured port value, compared as it is stored. */
  function PortTipOf(port: PyValue): PortTip
  {
    if PyEq(port, PInt(465)) then SslPortTip
    else if PyEq(port, PInt(587)) then StarttlsPortTip
    else if PyEq(port, PInt(25)) then PlainPortTip
    else NoPortTip
  }

  /** The message of a failed connection. */
  function OutcomeMessage(outcome: SmtpOutcome): string
    requires !outcome.Connected?
  {
    match outcome
    case TimedOut => MSG_TIMEOUT
    case SslFailed(d) => "SSL/TLS连接错误: " + d + "，请检查SSL设置是否正确"
    case AuthFailed => MSG_AUTH
    case ConnectFailed(d) => "无法连接到邮箱服务器: " + d
    case SmtpFailed(d) => "SMTP错误: " + d
    case OtherFailed(d) => "测试邮箱配置失败: " + d
  }

  /**
   * test_email_config. The four checks come first, in order; then the
   * connection is made. A port int() rejects, or a host that is not a string
   * when the hints are built, raises inside the function; `errorText` is
   * that exception's text.
   */
  function TestEmailConfig(config: PyDict, outcome: SmtpOutcome, errorText: string): TestResult
  {
    if config == map[] then Failed(MSG_EMPTY)
    else if !Truthy(Get(config, "host", PNone)) then Failed(MSG_NO_HOST)
    else if !Truthy(Get(config, "port", PNone)) then Failed(MSG_NO_PORT)
    else if !Truthy(Get(config, "username", PNone)) || !Truthy(Get(config, "password", PNone)) then Failed(MSG_NO_CREDENTIALS)
    else if SmtpSetup(config).Failure? then Failed(OutcomeMessage(OtherFailed(errorText)))
    else if !outcome.Connected? then Failed(OutcomeMessage(outcome))
    else if !config["host"].PStr? then Failed(OutcomeMessage(OtherFailed(errorText)))
    else Passed(ProviderTipOf(Lower(config["host"].s)), PortTipOf(config["port"]))
  }

  /**
   * The checks in their order, each applying only when the earlier ones
   * pass; a pass needs all four, a usable port and a connection.
   */
  lemma TestEmailConfigOrder(config: PyDict, outcome: SmtpOutcome, errorText: string)
    ensures var r := TestEmailConfig(config, outcome, errorText);
      var host := Truthy(Get(config, "host", PNone));
      var port := Truthy(Get(config, "port", PNone));
      var credentials := Truthy(Get(config, "username", PNone)) && Truthy(Get(config, "password", PNone));
      && (config == map[] ==> r == Failed(MSG_EMPTY))
      && (config != map[] && !host ==> r == Failed(MSG_NO_HOST))
      && (config != map[] && host && !port ==> r == Failed(MSG_NO_PORT))
      && (config != map[] && host && port && !credentials ==> r == Failed(MSG_NO_CREDENTIALS))
      && (r.Passed? <==> host && port && credentials && SmtpSetup(config).Success? && outcome.Connected? && config["host"].PStr?)
      && (host && port && credentials && SmtpSetup(config).Failure? ==> r == Failed(OutcomeMessage(OtherFailed(errorText))))
      && (host && port && credentials && SmtpSetup(config).Success? && !outcome.Connected? ==> r == Failed(OutcomeMessage(outcome)))
  {
  }

  // ---------------------------------------------------------------------------
  // The test endpoint
  // ---------------------------------------------------------------------------

  /**
   * The recipient of the test mail: a non-empty testEmail query parameter,
   * else the configuration's testTo, falling back to its username when that
   * is empty.
   */
  function TestRecipient(queryTestEmail: Option<string>, config: PyDict): PyValue
  {
    var first := if queryTestEmail.Some? && queryTestEmail.value != "" then PStr(queryTestEmail.value)
      else if "testTo" in config then config["testTo"]
      else PNone;
    if Truthy(first) then first else Get(config, "username", PStr(""))
  }

  /** The query parameter wins; testTo is used only when falsy values do not hide it; username is the last resort. */
  lemma TestRecipientSpec(queryTestEmail: Option<string>, config: PyDict)
    ensures queryTestEmail.Some? && queryTestEmail.value != "" ==> TestRecipient(queryTestEmail, config) == PStr(queryTestEmail.value)
    ensures (queryTestEmail.None? || queryTestEmail.value == "") && "testTo" in config && Truthy(config["testTo"]) ==>
      TestRecipient(queryTestEmail, config) == config["testTo"]
    ensures (queryTestEmail.None? || queryTestEmail.value == "") && !("testTo" in config && Truthy(config["testTo"])) ==>
      TestRecipient(queryTestEmail, config) == Get(config, "username", PStr(""))
  {
  }

  /** Port 465 forces ssl = True; port 587 sets starttls = True when that key is absent. */
  function ForcedByPort(config: PyDict): PyDict
  {
    var port := Get(config, "port", PNone);
    if PyEq(port, PInt(465)) then config["ssl" := PBool(true)]
    else if PyEq(port, PInt(587)) && "starttls" !in config then config["starttls" := PBool(true)]
    else config
  }

  /** The flags filled in when missing or None, with their defaults, in the endpoint's order. */
  const FLAG_DEFAULTS: seq<(string, bool)> :=
    [("ssl", false), ("starttls", false), ("auth", true), ("enabled", true), ("trustAllCerts", false)]

  /** Fill one flag when it is missing or None; False and other values stay. */
  function FillFlag(config: PyDict, key: string, v: bool): PyDict
  {
    if key !in config || config[key] == PNone then config[key := PBool(v)] else config
  }

  /** The configuration after the first n rounds of the flag loop. */
  function FillFlags(config: PyDict, n: nat): PyDict
    requires n <= |FLAG_DEFAULTS|
  {
    if n == 0 then config
    else FillFlag(FillFlags(config, n - 1), FLAG_DEFAULTS[n - 1].0, FLAG_DEFAULTS[n - 1].1)
  }

  /** The configuration the test endpoint forwards and tests. */
  function NormalisedTestConfig(config: PyDict): PyDict
  {
    FillFlags(ForcedByPort(config), |FLAG_DEFAULTS|)
  }

  /** The default of each filled flag, as a lookup. */
  function FlagDefault(key: string): bool
  {
    key == "auth" || key == "enabled"
  }

  const FLAG_KEYS: set<string> := {"ssl", "starttls", "auth", "enabled", "trustAllCerts"}

  /** The fields create_smtp_connection reads before it connects, besides `ssl`. */
  const SETUP_KEYS: set<string> := {"port", "protocol", "connectionTimeout", "proxyPort", "proxyType"}

  /** The flag loop written out. */
  lemma FlagsUnrolled(c: PyDict)
    ensures FillFlags(c, |FLAG_DEFAULTS|) ==
      FillFlag(FillFlag(FillFlag(FillFlag(FillFlag(c, "ssl", false), "starttls", false), "auth", true), "enabled", true), "trustAllCerts", false)
  {
    assert FillFlags(c, 1) == FillFlag(c, "ssl", false);
    assert FillFlags(c, 2) == FillFlag(FillFlags(c, 1), "starttls", false);
    assert FillFlags(c, 3) == FillFlag(FillFlags(c, 2), "auth", true);
    assert FillFlags(c, 4) == FillFlag(FillFlags(c, 3), "enabled", true);
  }

  /** One flag: filled when missing or None; every other key stays. */
  lemma FillFlagAt(c: PyDict, key: string, v: bool, k: string)
    requires k in c || k == key
    ensures FillFlag(c, key, v).Keys == c.Keys + {key}
    ensures FillFlag(c, key, v)[k] ==
      if k == key && (key !in c || c[key] == PNone) then PBool(v) else c[k]
  {
  }

  /** What the port rule leaves in one key. */
  lemma ForcedByPortKeys(config: PyDict)
    ensures ForcedByPort(config).Keys <= config.Keys + {"ssl", "starttls"}
    ensures config.Keys <= ForcedByPort(config).Keys
    ensures forall k :: k in config && k != "ssl" && k != "starttls" ==> ForcedByPort(config)[k] == config[k]
  {
  }

  /** The keys of the normalised configuration: the flags are added; other keys keep their values. */
  lemma NormalisedTestConfigKeys(config: PyDict)
    ensures NormalisedTestConfig(config).Keys == config.Keys + FLAG_KEYS
    ensures forall k :: k in config && k !in FLAG_KEYS ==> NormalisedTestConfig(config)[k] == config[k]
  {
    var c0 := ForcedByPort(config);
    ForcedByPortKeys(config);
    FlagsUnrolled(c0);
    var c1 := FillFlag(c0, "ssl", false);
    var c2 := FillFlag(c1, "starttls", false);
    var c3 := FillFlag(c2, "auth", true);
    var c4 := FillFlag(c3, "enabled", true);
    var c5 := FillFlag(c4, "trustAllCerts", false);
    assert c5.Keys == c0.Keys + FLAG_KEYS;
  }

  /** The value a flag has in the forwarded configuration. */
  function NormalisedFlag(config: PyDict, k: string): PyValue
  {
    var port := Get(config, "port", PNone);
    if k == "ssl" && port == PInt(465) then PBool(true)
    else if k == "starttls" && port == PInt(587) && "starttls" !in config then PBool(true)
    else if k in config && config[k] != PNone then config[k]
    else PBool(FlagDefault(k))
  }

  /** A flag after the whole loop: filled with its default when missing or None, unchanged otherwise. */
  lemma FlagLoopAt(c0: PyDict, k: string)
    requires k in FLAG_KEYS
    ensures var r := FillFlags(c0, |FLAG_DEFAULTS|);
      k in r && r[k] == if k !in c0 || c0[k] == PNone then PBool(FlagDefault(k)) else c0[k]
  {
    FlagsUnrolled(c0);
    var c1 := FillFlag(c0, "ssl", false);
    var c2 := FillFlag(c1, "starttls", false);
    var c3 := FillFlag(c2, "auth", true);
    var c4 := FillFlag(c3, "enabled", true);
    if k == "ssl" {
      FillFlagAt(c0, "ssl", false, k);
      FillFlagAt(c1, "starttls", false, k);
      FillFlagAt(c2, "auth", true, k);
      FillFlagAt(c3, "enabled", true, k);
      FillFlagAt(c4, "trustAllCerts", false, k);
    } else if k == "starttls" {
      FillFlagAt(c1, "starttls", false, k);
      FillFlagAt(c2, "auth", true, k);
      FillFlagAt(c3, "enabled", true, k);
      FillFlagAt(c4, "trustAllCerts", false, k);
    } else if k == "auth" {
      FillFlagAt(c2, "auth", true, k);
      FillFlagAt(c3, "enabled", true, k);
      FillFlagAt(c4, "trustAllCerts", false, k);
    } else if k == "enabled" {
      FillFlagAt(c3, "enabled", true, k);
      FillFlagAt(c4, "trustAllCerts", false, k);
    } else {
      FillFlagAt(c4, "trustAllCerts", false, k);
    }
  }

  /**
   * Each flag of the normalised configuration: port 465 has ssl True; port
   * 587 without a starttls key has starttls True; otherwise a value that is
   * not None stays, False included, and a missing or None one gets its
   * default.
   */
  lemma NormalisedTestConfigFlag(config: PyDict, k: string)
    requires k in FLAG_KEYS
    ensures k in NormalisedTestConfig(config)
    ensures NormalisedTestConfig(config)[k] == NormalisedFlag(config, k)
    ensures NormalisedTestConfig(config)[k] != PNone
  {
    PyEqNumbers(Get(config, "port", PNone));
    FlagLoopAt(ForcedByPort(config), k);
  }

  /** The endpoint's normalisation: the port rule, then the flag loop. */
  method NormaliseTestConfig(config: PyDict) returns (c: PyDict)
    ensures c == NormalisedTestConfig(config)
  {
    c := config;
    var port := Get(c, "port", PNone);
    if PyEq(port, PInt(465)) {
      c := c["ssl" := PBool(true)];
    } else if PyEq(port, PInt(587)) && "starttls" !in c {
      c := c["starttls" := PBool(true)];
    }
    for i := 0 to |FLAG_DEFAULTS|
      invariant c == FillFlags(ForcedByPort(config), i)
    {
      var (key, v) := FLAG_DEFAULTS[i];
      if key !in c || c[key] == PNone {
        c := c[key := PBool(v)];
      }
    }
  }

  /** The Java back end's answer to the forwarded test. */
  datatype JavaReply =
    | JavaJson(body: PyValue)  // a reply read as JSON
    | JavaUnreadable           // a reply that is not JSON
    | JavaUnreachable          // the request itself raised

  const MSG_UNKNOWN_ERROR := "未知错误"

  /**
   * The status the endpoint takes from a JSON reply: 200 for code 200, 500
   * for another code with a string message (or none). None when reading the
   * reply raises: `.get` on a value that is not an object, or a message that
   * cannot be appended to a string; the endpoint then tests locally.
   */
  function JavaVerdict(body: PyValue): Option<int>
  {
    match body
    case PDict(d) =>
      if PyEq(Get(d, "code", PNone), PInt(200)) then Some(200)
      else if Get(d, "message", PStr(MSG_UNKNOWN_ERROR)).PStr? then Some(500)
      else None
    case _ => None
  }

  /** The local test of the normalised configuration: 200, or 504 when its failure mentions a timeout, else 500. */
  function LocalStatus(config: PyDict, outcome: SmtpOutcome, errorText: string): int
  {
    match TestEmailConfig(NormalisedTestConfig(config), outcome, errorText)
    case Passed(_, _) => 200
    case Failed(message) => if Contains(message, TIMEOUT_WORD) then 504 else 500
  }

  /**
   * The test endpoint's status: 400 for an empty configuration; the Java
   * back end's verdict when its reply can be read; otherwise the local test.
   */
  function TestEmailConfigApiStatus(config: PyDict, java: JavaReply, outcome: SmtpOutcome, errorText: string): int
  {
    if config == map[] then 400
    else match java
      case JavaJson(body) => if JavaVerdict(body).Some? then JavaVerdict(body).value else LocalStatus(config, outcome, errorText)
      case JavaUnreadable => 500
      case JavaUnreachable => LocalStatus(config, outcome, errorText)
  }

  /** Normalising touches none of the fields the local test checks. */
  lemma NormalisedKeepsFields(config: PyDict)
    ensures var n := NormalisedTestConfig(config);
      && n != map[]
      && Get(n, "host", PNone) == Get(config, "host", PNone)
      && Get(n, "port", PNone) == Get(config, "port", PNone)
      && Get(n, "username", PNone) == Get(config, "username", PNone)
      && Get(n, "password", PNone) == Get(config, "password", PNone)
      && SmtpPort(n) == SmtpPort(config)
      && (config != map[] ==> SmtpSetup(n).Success? == SmtpSetup(config).Success?)
  {
    NormalisedTestConfigKeys(config);
    var n := NormalisedTestConfig(config);
    assert "ssl" in n;
    if config != map[] {
      NormalisedKeepsSetup(config);
    }
  }

  /** Normalising a non-empty configuration does not change whether setting it up raises. */
  lemma NormalisedKeepsSetup(config: PyDict)
    requires config != map[]
    ensures SmtpSetup(NormalisedTestConfig(config)).Success? == SmtpSetup(config).Success?
  {
    NormalisedTestConfigKeys(config);
    var n := NormalisedTestConfig(config);
    assert "ssl" in n;
    assert forall k :: k in SETUP_KEYS ==> k !in FLAG_KEYS;
    SameSetupFields(config, n);
  }

  /** Whether setting up raises depends on the configuration only through these five fields and its emptiness. */
  lemma SameSetupFields(a: PyDict, b: PyDict)
    requires a != map[] && b != map[]
    requires forall k :: k in SETUP_KEYS ==> (k in a <==> k in b) && (k in a ==> a[k] == b[k])
    ensures SmtpSetup(a).Success? == SmtpSetup(b).Success?
  {
    assert SmtpPort(a) == SmtpPort(b) by { assert "port" in SETUP_KEYS; }
    assert "protocol" in SETUP_KEYS && "connectionTimeout" in SETUP_KEYS && "proxyPort" in SETUP_KEYS && "proxyType" in SETUP_KEYS;
  }

  lemma TimeoutMessageMentionsTimeout()
    ensures Contains(MSG_TIMEOUT, TIMEOUT_WORD)
  {
    assert MSG_TIMEOUT[7] == '超' && MSG_TIMEOUT[8] == '时';
    assert MSG_TIMEOUT[7..9] == TIMEOUT_WORD;
    ContainsAt(MSG_TIMEOUT, TIMEOUT_WORD, 7);
  }

  lemma ValidationMessagesNoTimeout()
    ensures !Contains(MSG_NO_HOST, TIMEOUT_WORD) && !Contains(MSG_NO_PORT, TIMEOUT_WORD)
    ensures !Contains(MSG_NO_CREDENTIALS, TIMEOUT_WORD)
  {
    NotContainsFirst(MSG_NO_HOST, TIMEOUT_WORD);
    NotContainsFirst(MSG_NO_PORT, TIMEOUT_WORD);
    NotContainsFirst(MSG_NO_CREDENTIALS, TIMEOUT_WORD);
  }

  /**
   * 400 exactly for an empty configuration; the Java back end's verdict when
   * its reply can be read; the local test when the request raises or reading
   * the reply does.
   */
  lemma TestEmailConfigApiStatusSpec(config: PyDict, java: JavaReply, outcome: SmtpOutcome, errorText: string)
    ensures var status := TestEmailConfigApiStatus(config, java, outcome, errorText);
      && (status == 400 <==> config == map[])
      && (config != map[] && java.JavaJson? && java.body.PDict? && PyEq(Get(java.body.d, "code", PNone), PInt(200)) ==> status == 200)
      && (config != map[] && java.JavaJson? && java.body.PDict? && !PyEq(Get(java.body.d, "code", PNone), PInt(200)) && ("message" in java.body.d ==> java.body.d["message"].PStr?)
          ==> status == 500)
      && (config != map[] && java.JavaUnreadable? ==> status == 500)
      && (config != map[] && java.JavaUnreachable? ==> status == LocalStatus(config, outcome, errorText))
      && (config != map[] && java.JavaJson? && !java.body.PDict? ==> status == LocalStatus(config, outcome, errorText))
      && (config != map[] && java.JavaJson? && java.body.PDict? && !PyEq(Get(java.body.d, "code", PNone), PInt(200)) && "message" in java.body.d && !java.body.d["message"].PStr?
          ==> status == LocalStatus(config, outcome, errorText))
  {
  }

  /**
   * The local test: a missing field is a 500, a configuration that cannot be
   * set up never passes, a connection timeout is a 504, and the status is 200
   * exactly when every field is there, setting up succeeds, the connection is
   * made and the host is a string.
   */
  lemma LocalFallbackStatus(config: PyDict, outcome: SmtpOutcome, errorText: string)
    ensures var status := LocalStatus(config, outcome, errorText);
      var host := Truthy(Get(config, "host", PNone));
      var port := Truthy(Get(config, "port", PNone));
      var credentials := Truthy(Get(config, "username", PNone)) && Truthy(Get(config, "password", PNone));
      var usable := host && port && credentials && SmtpSetup(config).Success?;
      && (!(host && port && credentials) ==> status == 500)
      && (usable && outcome.TimedOut? ==> status == 504)
      && (status == 200 <==> usable && outcome.Connected? && config["host"].PStr?)
  {
    var n := NormalisedTestConfig(config);
    NormalisedKeepsFields(config);
    NormalisedTestConfigKeys(config);
    TestEmailConfigOrder(n, outcome, errorText);
    ValidationMessagesNoTimeout();
    TimeoutMessageMentionsTimeout();
  }
}
