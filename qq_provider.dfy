/**
 * The QQ OAuth provider: reading the access token out of QQ's form-style
 * token reply, unwrapping the JSONP openid reply and classifying failures.
 *
 * The token reply is `key=value` items joined by "&" rather than the JSON
 * body of section 5.1 of RFC 6749; nothing is percent-decoded. The HTTP
 * replies and JSON decoding are inputs: `parse` stands for json.loads and
 * answers None where it raises.
 */
module QqProvider {
  import opened Common
  import opened Text
  import opened PyValues

  /** A TokenError or UserInfoError; the message is None only where it prints a dictionary. */
  datatype OAuthFailure = OAuthFailure(message: Option<string>, code: string, provider: string)

  /** What an HTTP request answers: the body's text, or an exception with its text. */
  datatype HttpReply = HttpRaises(error: string) | HttpText(text: string)

  /** str() of the KeyError raised by `config[key]`. */
  function KeyErrorText(key: string): string
  {
    "'" + key + "'"
  }

  /** An item of the token reply that carries a value. */
  predicate HasEquals(item: string)
  {
    IndexOfChar(item, '=') >= 0
  }

  /** The key of `item.split('=', 1)`. */
  function KeyOf(item: string): string
    requires HasEquals(item)
  {
    item[..IndexOfChar(item, '=')]
  }

  /** The value of `item.split('=', 1)`. */
  function ValueOf(item: string): string
    requires HasEquals(item)
  {
    item[IndexOfChar(item, '=') + 1..]
  }

  /** Splitting at the first "=": the key holds no "=" and key, "=" and value rebuild the item. */
  lemma SplitAtFirstEquals(item: string)
    requires HasEquals(item)
    ensures KeyOf(item) + "=" + ValueOf(item) == item
    ensures '=' !in KeyOf(item)
  {
    var i := IndexOfChar(item, '=');
    assert item == item[..i] + [item[i]] + item[i + 1..];
  }

  /** The dictionary the parsing loop builds from the items, taken in order. */
  function TokenData(items: seq<string>): map<string, string>
  {
    if items == [] then map[]
    else
      var last := items[|items| - 1];
      var before := TokenData(items[..|items| - 1]);
      if HasEquals(last) then before[KeyOf(last) := ValueOf(last)] else before
  }

  /** Item `i` assigns key `k`. */
  predicate Defines(items: seq<string>, i: int, k: string)
  {
    0 <= i < |items| && HasEquals(items[i]) && KeyOf(items[i]) == k
  }

  /** Item `i` is the last to assign key `k`. */
  predicate LastDefines(items: seq<string>, i: int, k: string)
  {
    Defines(items, i, k) && forall j :: i < j < |items| ==> !Defines(items, j, k)
  }

  /**
   * A key is present exactly when some item with "=" assigns it, and it holds
   * the value of the last such item: items without "=" are ignored and a
   * repeated key keeps its last value.
   */
  lemma {:induction false} TokenDataLookup(items: seq<string>, k: string)
    ensures k in TokenData(items) <==> exists i :: Defines(items, i, k)
    ensures k in TokenData(items) ==> exists i :: LastDefines(items, i, k) && TokenData(items)[k] == ValueOf(items[i])
  {
    if items != [] {
      var n := |items| - 1;
      var front := items[..n];
      TokenDataLookup(front, k);
      forall i | 0 <= i < n
        ensures Defines(front, i, k) <==> Defines(items, i, k)
      {
        assert front[i] == items[i];
      }
      if Defines(items, n, k) {
        assert LastDefines(items, n, k);
      } else if k in TokenData(front) {
        var i :| LastDefines(front, i, k) && TokenData(front)[k] == ValueOf(front[i]);
        assert front[i] == items[i];
        assert LastDefines(items, i, k);
      }
    }
  }

  /** The token-parsing loop: every item of `text.split('&')` holding "=" stores its value under its key. */
  method ParseTokenText(text: string) returns (data: map<string, string>)
    ensures data == TokenData(Pieces(text, '&'))
  {
    var items := Pieces(text, '&');
    data := map[];
    for i := 0 to |items|
      invariant data == TokenData(items[..i])
    {
      var item := items[i];
      var eq := IndexOfChar(item, '=');
      if eq >= 0 {
        data := data[item[..eq] := item[eq + 1..]];
      }
      assert items[..i + 1][..i] == items[..i];
    }
    assert items[..|items|] == items;
  }

  /** The configuration keys get_access_token reads, in the order it reads them. */
  const TOKEN_CONFIG_KEYS: seq<string> := ["token_url", "client_id", "client_secret", "redirect_uri"]

  const NO_TOKEN := "QQ未返回访问令牌"

  function TokenRequestFailed(detail: string): Result<string, OAuthFailure>
  {
    Failure(OAuthFailure(Some("获取QQ访问令牌失败: " + detail), "token_request_failed", "qq"))
  }

  /**
   * get_access_token: the access_token of the reply; an absent or empty one
   * is "no_token", which passes through unwrapped; a missing configuration
   * key or a failed request is wrapped as "token_request_failed".
   */
  function AccessToken(config: PyDict, reply: HttpReply): Result<string, OAuthFailure>
  {
    var missing := FirstWhere(TOKEN_CONFIG_KEYS, k => k !in config);
    if missing.Some? then TokenRequestFailed(KeyErrorText(TOKEN_CONFIG_KEYS[missing.value]))
    else if reply.HttpRaises? then TokenRequestFailed(reply.error)
    else
      var data := TokenData(Pieces(reply.text, '&'));
      if "access_token" !in data || data["access_token"] == "" then
        Failure(OAuthFailure(Some(NO_TOKEN), "no_token", "qq"))
      else Success(data["access_token"])
  }

  /** get_access_token, with the token reply parsed by the loop. */
  method GetAccessToken(config: PyDict, reply: HttpReply) returns (r: Result<string, OAuthFailure>)
    ensures r == AccessToken(config, reply)
  {
    var missing := FirstWhere(TOKEN_CONFIG_KEYS, k => k !in config);
    if missing.Some? {
      return TokenRequestFailed(KeyErrorText(TOKEN_CONFIG_KEYS[missing.value]));
    }
    if reply.HttpRaises? {
      return TokenRequestFailed(reply.error);
    }
    var data := ParseTokenText(reply.text);
    var token := if "access_token" in data then data["access_token"] else "";
    if token == "" {
      return Failure(OAuthFailure(Some(NO_TOKEN), "no_token", "qq"));
    }
    return Success(token);
  }

  /** Every configuration key get_access_token reads is present. */
  predicate TokenConfigComplete(config: PyDict)
  {
    forall k :: k in TOKEN_CONFIG_KEYS ==> k in config
  }

  /** A configuration key is missing exactly when the configuration is incomplete; the first one is reported. */
  lemma TokenConfigMissing(config: PyDict)
    ensures FirstWhere(TOKEN_CONFIG_KEYS, k => k !in config).None? <==> TokenConfigComplete(config)
  {
    var m := FirstWhere(TOKEN_CONFIG_KEYS, k => k !in config);
    if m.None? {
      forall k | k in TOKEN_CONFIG_KEYS ensures k in config {
        var j :| 0 <= j < |TOKEN_CONFIG_KEYS| && TOKEN_CONFIG_KEYS[j] == k;
      }
    }
  }

  /**
   * A token is returned exactly when the configuration is complete, the
   * request succeeds and some item assigns a non-empty access_token.
   */
  lemma AccessTokenSucceeds(config: PyDict, reply: HttpReply)
    ensures AccessToken(config, reply).Success? <==>
      TokenConfigComplete(config) && reply.HttpText?
      && "access_token" in TokenData(Pieces(reply.text, '&'))
      && TokenData(Pieces(reply.text, '&'))["access_token"] != ""
  {
    TokenConfigMissing(config);
  }

  /** The token returned is the value of the last item "access_token=..." of the reply. */
  lemma AccessTokenValue(config: PyDict, reply: HttpReply)
    requires AccessToken(config, reply).Success?
    ensures reply.HttpText?
    ensures exists i ::
              && LastDefines(Pieces(reply.text, '&'), i, "access_token")
              && Pieces(reply.text, '&')[i] == "access_token=" + AccessToken(config, reply).value
  {
    AccessTokenIsData(config, reply);
    var items := Pieces(reply.text, '&');
    var v := AccessToken(config, reply).value;
    TokenDataLookup(items, "access_token");
    var i :| LastDefines(items, i, "access_token") && v == ValueOf(items[i]);
    SplitAtFirstEquals(items[i]);
    assert KeyOf(items[i]) == "access_token";
    assert items[i] == "access_token" + "=" + v;
    assert "access_token" + "=" + v == "access_token=" + v;
    assert LastDefines(items, i, "access_token") && items[i] == "access_token=" + v;
  }

  lemma AccessTokenIsData(config: PyDict, reply: HttpReply)
    requires AccessToken(config, reply).Success?
    ensures reply.HttpText? && "access_token" in TokenData(Pieces(reply.text, '&'))
    ensures AccessToken(config, reply).value == TokenData(Pieces(reply.text, '&'))["access_token"]
  {
  }

  /** Failures are "no_token", unwrapped, or "token_request_failed". */
  lemma AccessTokenFailures(config: PyDict, reply: HttpReply)
    requires AccessToken(config, reply).Failure?
    ensures var e := AccessToken(config, reply).error;
      && e.provider == "qq" && e.message.Some?
      && (e.code == "no_token" || e.code == "token_request_failed")
      && (e.code == "no_token" <==> e.message == Some(NO_TOKEN))
  {
  }

  /** A token reply without any "access_token=" item is "no_token". */
  lemma NoAccessTokenItem(config: PyDict, text: string)
    requires forall k :: k in TOKEN_CONFIG_KEYS ==> k in config
    requires forall i :: !Defines(Pieces(text, '&'), i, "access_token")
    ensures AccessToken(config, HttpText(text)) == Failure(OAuthFailure(Some(NO_TOKEN), "no_token", "qq"))
  {
    TokenDataLookup(Pieces(text, '&'), "access_token");
  }

  /** The text handed to json.loads: stripped, and unwrapped when it is a `callback(...)` call. */
  function OpenidJson(text: string): string
  {
    var t := PyStrip(text);
    if StartsWith(t, "callback(") then (if |t| >= 10 then t[9..|t| - 1] else "") else t
  }

  /** `callback(` + j + `)` unwraps to j, whatever j is. */
  lemma OpenidJsonUnwraps(j: string)
    ensures OpenidJson("callback(" + j + ")") == j
  {
    var s := "callback(" + j + ")";
    assert s[0] == 'c' && s[|s| - 1] == ')';
    StripUnpadded(s);
    assert s[..9] == "callback(";
    assert s[9..|s| - 1] == j;
  }

  /** A reply that is not a callback is only stripped. */
  lemma OpenidJsonPlain(text: string)
    requires !StartsWith(PyStrip(text), "callback(")
    ensures OpenidJson(text) == PyStrip(text)
  {
  }

  /** The bare prefix unwraps to the empty text. */
  lemma OpenidJsonBarePrefix()
    ensures OpenidJson("callback(") == ""
  {
    StripUnpadded("callback(");
  }

  const NO_OPENID := "QQ未返回openid"

  function UserInfoFailed(detail: string): Result<PyDict, OAuthFailure>
  {
    Failure(OAuthFailure(Some("获取QQ用户信息失败: " + detail), "user_info_failed", "qq"))
  }

  /** The avatar: figureurl_qq_2 when truthy, else figureurl_qq_1, else "". */
  function Avatar(info: PyDict): PyValue
  {
    var large := Get(info, "figureurl_qq_2", PNone);
    if Truthy(large) then large else Get(info, "figureurl_qq_1", PStr(""))
  }

  /** The normalised user record. */
  function UserRecord(openid: PyValue, info: PyDict): PyDict
  {
    map["provider" := PStr("qq"), "uid" := openid, "username" := Get(info, "nickname", PStr("")),
        "email" := PStr(""), "avatar" := Avatar(info), "email_collection_needed" := PBool(true)]
  }

  /**
   * get_user_info: the openid from the unwrapped openid reply, then the user
   * information, whose `ret` must equal 0. A falsy openid is "no_openid" and
   * another `ret` is "api_error", both passing through unwrapped; anything
   * else that raises is wrapped as "user_info_failed". `errorText` is the
   * text of an exception raised by json.loads or by `.get` on a decoded
   * value that is not a dictionary.
   */
  function UserInfo(config: PyDict, openidReply: HttpReply, userReply: HttpReply,
                    parse: string -> Option<PyValue>, errorText: string): Result<PyDict, OAuthFailure>
  {
    if "openid_url" !in config then UserInfoFailed(KeyErrorText("openid_url"))
    else if openidReply.HttpRaises? then UserInfoFailed(openidReply.error)
    else
      var parsed := parse(OpenidJson(openidReply.text));
      if parsed.None? || !parsed.value.PDict? then UserInfoFailed(errorText)
      else
        var openid := Get(parsed.value.d, "openid", PNone);
        if !Truthy(openid) then Failure(OAuthFailure(Some(NO_OPENID), "no_openid", "qq"))
        else if "user_info_url" !in config then UserInfoFailed(KeyErrorText("user_info_url"))
        else if "client_id" !in config then UserInfoFailed(KeyErrorText("client_id"))
        else if userReply.HttpRaises? then UserInfoFailed(userReply.error)
        else
          var user := parse(userReply.text);
          if user.None? || !user.value.PDict? then UserInfoFailed(errorText)
          else
            var info := user.value.d;
            if !PyEq(Get(info, "ret", PNone), PInt(0)) then
              var msg := PyStr(Get(info, "msg", PStr("未知错误")));
              Failure(OAuthFailure(if msg.Some? then Some("QQ返回用户信息错误: " + msg.value) else None, "api_error", "qq"))
            else Success(UserRecord(openid, info))
  }

  /**
   * A record is returned exactly when every step succeeds, the openid is
   * truthy and `ret` equals 0; it names the provider "qq" and the openid,
   * has an empty email that has to be collected, and the avatar falls back
   * from figureurl_qq_2 to figureurl_qq_1.
   */
  lemma UserInfoSpec(config: PyDict, openidReply: HttpReply, userReply: HttpReply,
                     parse: string -> Option<PyValue>, errorText: string)
    ensures var r := UserInfo(config, openidReply, userReply, parse, errorText);
      && (r.Success? <==>
            && "openid_url" in config && "user_info_url" in config && "client_id" in config
            && openidReply.HttpText? && userReply.HttpText?
            && var o := parse(OpenidJson(openidReply.text));
            && o.Some? && o.value.PDict? && "openid" in o.value.d && Truthy(o.value.d["openid"])
            && var u := parse(userReply.text);
            && u.Some? && u.value.PDict? && "ret" in u.value.d && PyEq(u.value.d["ret"], PInt(0)))
      && (r.Success? ==>
            && r.value.Keys == {"provider", "uid", "username", "email", "avatar", "email_collection_needed"}
            && r.value["provider"] == PStr("qq")
            && r.value["uid"] == parse(OpenidJson(openidReply.text)).value.d["openid"]
            && r.value["email"] == PStr("")
            && r.value["email_collection_needed"] == PBool(true)
            && var info := parse(userReply.text).value.d;
            && (("figureurl_qq_2" in info && Truthy(info["figureurl_qq_2"])) ==> r.value["avatar"] == info["figureurl_qq_2"])
            && (!("figureurl_qq_2" in info && Truthy(info["figureurl_qq_2"])) ==>
                  r.value["avatar"] == if "figureurl_qq_1" in info then info["figureurl_qq_1"] else PStr("")))
      && (r.Failure? ==>
            r.error.provider == "qq"
            && (r.error.code == "no_openid" || r.error.code == "api_error" || r.error.code == "user_info_failed"))
  {
  }

  /** A falsy openid is reported as such, whatever the user-information request would answer. */
  lemma NoOpenidBeforeUserRequest(config: PyDict, openidReply: HttpReply, userReply: HttpReply,
                                  parse: string -> Option<PyValue>, errorText: string)
    requires "openid_url" in config && openidReply.HttpText?
    requires var o := parse(OpenidJson(openidReply.text));
      o.Some? && o.value.PDict? && !Truthy(Get(o.value.d, "openid", PNone))
    ensures UserInfo(config, openidReply, userReply, parse, errorText) ==
      Failure(OAuthFailure(Some(NO_OPENID), "no_openid", "qq"))
  {
  }

  /** A `ret` other than 0 is "api_error", its message naming `msg` or "未知错误". */
  lemma ApiErrorMessage(config: PyDict, openidReply: HttpReply, userReply: HttpReply,
                        parse: string -> Option<PyValue>, errorText: string)
    requires "openid_url" in config && "user_info_url" in config && "client_id" in config
    requires openidReply.HttpText? && userReply.HttpText?
    requires var o := parse(OpenidJson(openidReply.text));
      o.Some? && o.value.PDict? && Truthy(Get(o.value.d, "openid", PNone))
    requires var u := parse(userReply.text);
      u.Some? && u.value.PDict? && !PyEq(Get(u.value.d, "ret", PNone), PInt(0)) && "msg" !in u.value.d
    ensures UserInfo(config, openidReply, userReply, parse, errorText) ==
      Failure(OAuthFailure(Some("QQ返回用户信息错误: 未知错误"), "api_error", "qq"))
  {
    assert PyStr(PStr("未知错误")) == Some("未知错误");
    assert "QQ返回用户信息错误: " + "未知错误" == "QQ返回用户信息错误: 未知错误";
  }
}
