/** Configuration loading (src/config.ts): the string parsers applied to
    environment variables, the QQ configuration built from the environment and
    the JSON file, the validation rules, and secret masking. Reading the
    environment, `.env` and `config.json` is outside the model: their values
    arrive as parameters. */
module Config {
  import opened Wrappers
  import opened Types
  import opened Text

  // ---------------------------------------------------------------------------
  // Parsers of environment values (`undefined` is `None`)
  // ---------------------------------------------------------------------------

  /** `parseBoolean`: an unset or empty value gives the default; otherwise
      "true" in any letter case, or "1", is true and everything else false. */
  function ParseBoolean(value: Option<string>, default: bool): (r: bool)
    ensures !Truthy(value) ==> r == default
    ensures Truthy(value) ==> (r <==> ToLower(value.value) == "true" || value.value == "1")
  {
    if !Truthy(value) then default
    else ToLower(value.value) == "true" || value.value == "1"
  }

  /** The letter case of a set value never matters. */
  lemma ParseBooleanCaseInsensitive(s: string, default: bool)
    ensures ParseBoolean(Some(s), default) == ParseBoolean(Some(ToLower(s)), default)
  {
    ToLowerIdempotent(s);
    ToLowerOfOne(s);
  }

  lemma ToLowerIdempotent(s: string)
    ensures ToLower(ToLower(s)) == ToLower(s)
  {
    var l := ToLower(s);
    forall i | 0 <= i < |l| ensures ToLower(l)[i] == l[i] {
      assert l[i] == ToLowerChar(s[i]);
    }
  }

  lemma ToLowerOfOne(s: string)
    ensures ToLower(s) == "1" <==> s == "1"
  {
    if ToLower(s) == "1" {
      assert ToLowerChar(s[0]) == '1';
      assert s == [s[0]];
    }
  }

  /** A set value decides alone; the default is only a fallback. */
  lemma ParseBooleanIgnoresDefault(s: string)
    requires s != ""
    ensures ParseBoolean(Some(s), true) == ParseBoolean(Some(s), false)
  {
  }

  /** A boolean printed as "true" or "false" reads back as itself. */
  lemma ParseBooleanOfPrinted(b: bool, default: bool)
    ensures ParseBoolean(Some(if b then "true" else "false"), default) == b
  {
    if !b {
      assert ToLower("false")[0] == 'f';
    }
  }

  /** `parseNumber`: an unset or empty value, or one `parseInt` reads as NaN,
      gives the default; otherwise the parsed integer. */
  function ParseNumber(value: Option<string>, default: int): (r: int)
    ensures !Truthy(value) ==> r == default
    ensures Truthy(value) && ParseInt(value.value).None? ==> r == default
    ensures Truthy(value) && ParseInt(value.value).Some? ==> r == ParseInt(value.value).value
  {
    if !Truthy(value) then default
    else
      match ParseInt(value.value)
      case None => default
      case Some(n) => n
  }

  /** Every printed integer, zero included, reads back as itself whatever the default. */
  lemma ParseNumberOfPrinted(n: int, default: int)
    ensures ParseNumber(Some(IntToString(n)), default) == n
  {
    ParseIntOfIntToString(n);
  }

  /** A value that starts with neither whitespace, a sign nor a digit gives the default. */
  lemma ParseNumberOfWord(s: string, default: int)
    requires s != [] && !IsWhitespace(s[0]) && !IsDigit(s[0]) && s[0] != '-' && s[0] != '+'
    ensures ParseNumber(Some(s), default) == default
  {
    assert TrimStart(s) == s;
  }

  /** What `parseInt` reads in one trimmed piece, NaN being `None`. */
  function ReadPiece(p: string): Option<int> {
    ParseInt(Trim(p))
  }

  /** `parts.map(f)`. */
  function Map<T, U>(f: T -> U, xs: seq<T>): (r: seq<U>)
    ensures |r| == |xs|
  {
    if xs == [] then [] else [f(xs[0])] + Map(f, xs[1..])
  }

  lemma {:induction false} MapAppend<T, U>(f: T -> U, a: seq<T>, b: seq<T>)
    ensures Map(f, a + b) == Map(f, a) + Map(f, b)
  {
    if a == [] {
      assert a + b == b;
    } else {
      assert (a + b)[0] == a[0] && (a + b)[1..] == a[1..] + b;
      MapAppend(f, a[1..], b);
    }
  }

  /** The present values, in order (`filter(n => !isNaN(n))`). */
  function Present(xs: seq<Option<int>>): (r: seq<int>)
    ensures |r| <= |xs|
  {
    if xs == [] then []
    else (if xs[0].Some? then [xs[0].value] else []) + Present(xs[1..])
  }

  lemma {:induction false} PresentAppend(a: seq<Option<int>>, b: seq<Option<int>>)
    ensures Present(a + b) == Present(a) + Present(b)
  {
    if a == [] {
      assert a + b == b;
    } else {
      assert (a + b)[0] == a[0] && (a + b)[1..] == a[1..] + b;
      PresentAppend(a[1..], b);
    }
  }

  /** The integers of comma-separated pieces, each trimmed and read by
      `parseInt`, NaN pieces dropped, order kept. */
  function ParseNumbers(parts: seq<string>): (r: seq<int>)
    ensures |r| <= |parts|
  {
    Present(Map(ReadPiece, parts))
  }

  /** Reading pieces is done piece by piece: the result of a concatenation is
      the concatenation of the results. */
  lemma ParseNumbersAppend(a: seq<string>, b: seq<string>)
    ensures ParseNumbers(a + b) == ParseNumbers(a) + ParseNumbers(b)
  {
    MapAppend(ReadPiece, a, b);
    PresentAppend(Map(ReadPiece, a), Map(ReadPiece, b));
  }

  /** An unread piece vanishes from any mapping without disturbing its neighbours. */
  lemma DropNone<T>(f: T -> Option<int>, a: seq<T>, p: T, b: seq<T>)
    requires f(p).None?
    ensures Present(Map(f, a + [p] + b)) == Present(Map(f, a)) + Present(Map(f, b))
  {
    MapAppend(f, a + [p], b);
    MapAppend(f, a, [p]);
    assert Map(f, [p]) == [f(p)];
    PresentAppend(Map(f, a) + [f(p)], Map(f, b));
    PresentAppend(Map(f, a), [f(p)]);
  }

  /** A piece `parseInt` cannot read vanishes without disturbing its neighbours. */
  lemma DroppedPiece(a: seq<string>, p: string, b: seq<string>)
    requires ParseInt(Trim(p)).None?
    ensures ParseNumbers(a + [p] + b) == ParseNumbers(a) + ParseNumbers(b)
  {
    DropNone(ReadPiece, a, p, b);
  }

  lemma TrimPrinted(n: int)
    ensures Trim(IntToString(n)) == IntToString(n)
  {
    var s := IntToString(n);
    assert !IsWhitespace(s[0]) && !IsWhitespace(s[|s| - 1]);
    TrimOfTrimmed(s);
  }

  /** Pieces all of which are read keep their values, in order. */
  lemma {:induction false} AllRead<T>(f: T -> Option<int>, parts: seq<T>, ns: seq<int>)
    requires |parts| == |ns|
    requires forall i :: 0 <= i < |parts| ==> f(parts[i]) == Some(ns[i])
    ensures Present(Map(f, parts)) == ns
  {
    if parts != [] {
      AllRead(f, parts[1..], ns[1..]);
      assert ns == [ns[0]] + ns[1..];
    }
  }

  /** Pieces that are printed integers, padded with whitespace or not, read
      back as exactly those integers in order. */
  lemma ParseNumbersOfPrinted(parts: seq<string>, ns: seq<int>)
    requires |parts| == |ns|
    requires forall i :: 0 <= i < |parts| ==> Trim(parts[i]) == IntToString(ns[i])
    ensures ParseNumbers(parts) == ns
  {
    forall i | 0 <= i < |parts| ensures ReadPiece(parts[i]) == Some(ns[i]) {
      ParseIntOfIntToString(ns[i]);
    }
    AllRead(ReadPiece, parts, ns);
  }

  /** `parseNumberArray`: `None` for an unset or empty value, otherwise the
      integers of its comma-separated pieces. */
  function ParseNumberArray(value: Option<string>): (r: Option<seq<int>>)
    ensures r.Some? <==> Truthy(value)
    ensures r.Some? ==> |r.value| <= |Split(value.value, ',')|
  {
    if !Truthy(value) then None
    else Some(ParseNumbers(Split(value.value, ',')))
  }

  /** A list of integers written with commas between them, each optionally
      surrounded by whitespace, reads back as that list. */
  lemma ParseNumberArrayOfList(parts: seq<string>, ns: seq<int>)
    requires |parts| == |ns| > 0
    requires forall i :: 0 <= i < |parts| ==> ',' !in parts[i] && Trim(parts[i]) == IntToString(ns[i])
    ensures ParseNumberArray(Some(Join(parts, ","))) == Some(ns)
  {
    var s := Join(parts, ",");
    SplitJoin(parts, ',');
    ParseNumbersOfPrinted(parts, ns);
  }

  /** Integers printed and joined with commas read back as themselves. */
  lemma ParseNumberArrayOfInts(ns: seq<int>)
    requires ns != []
    ensures ParseNumberArray(Some(Join(Map(IntToString, ns), ","))) == Some(ns)
  {
    var parts := Map(IntToString, ns);
    forall i | 0 <= i < |parts| ensures ',' !in parts[i] && Trim(parts[i]) == IntToString(ns[i]) {
      MapAt(IntToString, ns, i);
      TrimPrinted(ns[i]);
    }
    ParseNumberArrayOfList(parts, ns);
  }

  lemma {:induction false} MapAt<T, U>(f: T -> U, xs: seq<T>, i: nat)
    requires i < |xs|
    ensures Map(f, xs)[i] == f(xs[i])
  {
    if i > 0 {
      MapAt(f, xs[1..], i - 1);
    }
  }

  /** `parseString`: the value itself, with the empty string read as unset. */
  function ParseString(value: Option<string>): (r: Option<string>)
    ensures r.Some? <==> Truthy(value)
    ensures r.Some? ==> r == value
  {
    if Truthy(value) then value else None
  }

  /** `a ?? b`. */
  function Coalesce<T>(a: Option<T>, b: Option<T>): Option<T> {
    if a.Some? then a else b
  }

  // ---------------------------------------------------------------------------
  // The QQ configuration
  // ---------------------------------------------------------------------------

  /** The QQ_* environment variables the configuration reads. */
  datatype QQEnv = QQEnv(
    enabled: Option<string>,
    appId: Option<string>,
    wsUrl: Option<string>,
    accessToken: Option<string>,
    appSecret: Option<string>,
    reconnectInterval: Option<string>,
    allowedUsers: Option<string>,
    allowedGroups: Option<string>)

  const DefaultReconnectInterval := 5000

  const DisabledQQ := QQConfig(false, None, None, None, None, None, None, None, None)

  /** The mode: official whenever an app id is set, OneBot when only a
      WebSocket URL is set, and otherwise the file's mode or OneBot. */
  function ResolveMode(appId: Option<string>, wsUrl: Option<string>, fileMode: Option<QQMode>): (m: QQMode)
    ensures Truthy(appId) ==> m == OfficialMode
    ensures !Truthy(appId) && Truthy(wsUrl) ==> m == OneBotMode
    ensures !Truthy(appId) && !Truthy(wsUrl) ==> m == fileMode.GetOr(OneBotMode)
  {
    var initial := fileMode.GetOr(OneBotMode);
    var chosen :=
      if Truthy(appId) && !Truthy(wsUrl) then OfficialMode
      else if Truthy(wsUrl) && !Truthy(appId) then OneBotMode
      else initial;
    if Truthy(appId) then OfficialMode else chosen
  }

  /** `jsonConfig?.field`: a missing file section reads like one whose every
      optional field is unset and whose `enabled` is false. */
  function Absent(file: Option<QQConfig>): QQConfig {
    file.GetOr(DisabledQQ)
  }

  /** `buildQQConfig`: each field is the set environment value, else the
      file's value, else its default. */
  function BuildQQConfig(env: QQEnv, file: Option<QQConfig>): (r: QQConfig)
    ensures !r.enabled <==> !ParseBoolean(env.enabled, Absent(file).enabled)
    ensures !r.enabled ==> r == DisabledQQ
    ensures r.enabled ==>
      && r.appId == (if Truthy(env.appId) then env.appId else Absent(file).appId)
      && r.appSecret == (if Truthy(env.appSecret) then env.appSecret else Absent(file).appSecret)
      && r.accessToken == (if Truthy(env.accessToken) then env.accessToken else Absent(file).accessToken)
      && r.mode == Some(ResolveMode(r.appId, if Truthy(env.wsUrl) then env.wsUrl else Absent(file).wsUrl,
                                     Absent(file).mode))
      && r.wsUrl == Some(if Truthy(env.wsUrl) then env.wsUrl.value else Absent(file).wsUrl.GetOr(""))
      && r.reconnectInterval.Some?
      && r.allowedUsers.Some? && r.allowedGroups.Some?
    ensures r.enabled && Truthy(env.reconnectInterval) ==>
      r.reconnectInterval == Some(ParseNumber(env.reconnectInterval,
                                              Absent(file).reconnectInterval.GetOr(DefaultReconnectInterval)))
    ensures r.enabled && !Truthy(env.reconnectInterval) ==>
      r.reconnectInterval == Some(Absent(file).reconnectInterval.GetOr(DefaultReconnectInterval))
    ensures r.enabled && Truthy(env.allowedUsers) ==>
      r.allowedUsers == ParseNumberArray(env.allowedUsers)
    ensures r.enabled && !Truthy(env.allowedUsers) ==>
      r.allowedUsers == Some(Absent(file).allowedUsers.GetOr([]))
    ensures r.enabled && Truthy(env.allowedGroups) ==>
      r.allowedGroups == ParseNumberArray(env.allowedGroups)
    ensures r.enabled && !Truthy(env.allowedGroups) ==>
      r.allowedGroups == Some(Absent(file).allowedGroups.GetOr([]))
  {
    var enabled := ParseBoolean(env.enabled, Absent(file).enabled);
    if !enabled then DisabledQQ
    else
      var appId := Coalesce(ParseString(env.appId), Absent(file).appId);
      var wsUrl := Coalesce(ParseString(env.wsUrl), Absent(file).wsUrl);
      QQConfig(
        enabled := true,
        mode := Some(ResolveMode(appId, wsUrl, Absent(file).mode)),
        wsUrl := Some(wsUrl.GetOr("")),
        accessToken := Coalesce(ParseString(env.accessToken), Absent(file).accessToken),
        appId := appId,
        appSecret := Coalesce(ParseString(env.appSecret), Absent(file).appSecret),
        reconnectInterval := Some(ParseNumber(env.reconnectInterval,
                                              Absent(file).reconnectInterval.GetOr(DefaultReconnectInterval))),
        allowedUsers := Some(Coalesce(ParseNumberArray(env.allowedUsers), Absent(file).allowedUsers).GetOr([])),
        allowedGroups := Some(Coalesce(ParseNumberArray(env.allowedGroups), Absent(file).allowedGroups).GetOr([])))
  }

  // ---------------------------------------------------------------------------
  // Validation
  // ---------------------------------------------------------------------------

  /** The fields of the Lark and WeChat configurations that validation reads. */
  datatype LarkConfig = LarkConfig(enabled: bool, appId: string, appSecret: string)
  datatype WeChatConfig = WeChatConfig(enabled: bool, corpId: Option<string>, secret: Option<string>)

  datatype BridgeConfig = BridgeConfig(
    qq: Option<QQConfig>,
    lark: Option<LarkConfig>,
    wechat: Option<WeChatConfig>)

  predicate QQEnabled(c: BridgeConfig) { c.qq.Some? && c.qq.value.enabled }
  predicate LarkEnabled(c: BridgeConfig) { c.lark.Some? && c.lark.value.enabled }
  predicate WeChatEnabled(c: BridgeConfig) { c.wechat.Some? && c.wechat.value.enabled }

  predicate NoAdapter(c: BridgeConfig) { !QQEnabled(c) && !LarkEnabled(c) && !WeChatEnabled(c) }
  predicate QQWithoutEndpoint(c: BridgeConfig) {
    QQEnabled(c) && !Truthy(c.qq.value.wsUrl) && !Truthy(c.qq.value.appId)
  }
  predicate QQWithoutSecret(c: BridgeConfig) {
    QQEnabled(c) && Truthy(c.qq.value.appId) && !Truthy(c.qq.value.appSecret)
  }
  predicate LarkIncomplete(c: BridgeConfig) {
    LarkEnabled(c) && (c.lark.value.appId == "" || c.lark.value.appSecret == "")
  }
  predicate WeChatIncomplete(c: BridgeConfig) {
    WeChatEnabled(c) && (!Truthy(c.wechat.value.corpId) || !Truthy(c.wechat.value.secret))
  }

  const NoAdapterText := "至少需要启用一个 IM 适配器 (QQ/飞书/微信)"
  const QQEndpointText := "QQ 适配器需要配置 wsUrl (OneBot) 或 appId (官方机器人)"
  const QQSecretText := "使用 QQ 官方机器人需要配置 appSecret"
  const LarkText := "飞书适配器需要配置 appId 和 appSecret"
  const WeChatText := "微信适配器需要配置 corpId 和 secret"
  const ValidationFailedText := "配置验证失败，请检查配置文件或环境变量"

  /** The message of each broken rule, in the order the rules are checked. */
  function BrokenRules(c: BridgeConfig): seq<string> {
    (if NoAdapter(c) then [NoAdapterText] else [])
    + (if QQWithoutEndpoint(c) then [QQEndpointText] else [])
    + (if QQWithoutSecret(c) then [QQSecretText] else [])
    + (if LarkIncomplete(c) then [LarkText] else [])
    + (if WeChatIncomplete(c) then [WeChatText] else [])
  }

  /** `validateConfig`: collects one message per broken rule, in rule order,
      and fails iff there is at least one. */
  method ValidateConfig(c: BridgeConfig) returns (errors: seq<string>, r: Outcome<string>)
    ensures NoAdapterText in errors <==> NoAdapter(c)
    ensures QQEndpointText in errors <==> QQWithoutEndpoint(c)
    ensures QQSecretText in errors <==> QQWithoutSecret(c)
    ensures LarkText in errors <==> LarkIncomplete(c)
    ensures WeChatText in errors <==> WeChatIncomplete(c)
    ensures forall e :: e in errors ==> e in {NoAdapterText, QQEndpointText, QQSecretText, LarkText, WeChatText}
    ensures r.Fail? <==>
      NoAdapter(c) || QQWithoutEndpoint(c) || QQWithoutSecret(c) || LarkIncomplete(c) || WeChatIncomplete(c)
    ensures r.Fail? ==> r.error == ValidationFailedText
    ensures errors == BrokenRules(c)
  {
    errors := [];
    if NoAdapter(c) {
      errors := errors + [NoAdapterText];
    }
    if QQEnabled(c) {
      if !Truthy(c.qq.value.wsUrl) && !Truthy(c.qq.value.appId) {
        errors := errors + [QQEndpointText];
      }
      if Truthy(c.qq.value.appId) && !Truthy(c.qq.value.appSecret) {
        errors := errors + [QQSecretText];
      }
    }
    if LarkEnabled(c) {
      if c.lark.value.appId == "" || c.lark.value.appSecret == "" {
        errors := errors + [LarkText];
      }
    }
    if WeChatEnabled(c) {
      if !Truthy(c.wechat.value.corpId) || !Truthy(c.wechat.value.secret) {
        errors := errors + [WeChatText];
      }
    }
    r := if |errors| > 0 then Fail(ValidationFailedText) else Pass;
  }

  /** A QQ configuration built from the environment and the file that passes
      the QQ rules has what its mode needs: an app id and secret in official
      mode, a WebSocket URL in OneBot mode. */
  lemma ValidatedModeHasEndpoint(env: QQEnv, file: Option<QQConfig>, lark: Option<LarkConfig>, wechat: Option<WeChatConfig>)
    requires BuildQQConfig(env, file).enabled
    requires !QQWithoutEndpoint(BridgeConfig(Some(BuildQQConfig(env, file)), lark, wechat))
    requires !QQWithoutSecret(BridgeConfig(Some(BuildQQConfig(env, file)), lark, wechat))
    ensures BuildQQConfig(env, file).mode == Some(OfficialMode) ==>
      Truthy(BuildQQConfig(env, file).appId) && Truthy(BuildQQConfig(env, file).appSecret)
    ensures BuildQQConfig(env, file).mode == Some(OneBotMode) ==> Truthy(BuildQQConfig(env, file).wsUrl)
  {
    var q := BuildQQConfig(env, file);
    var ws := if Truthy(env.wsUrl) then env.wsUrl else Absent(file).wsUrl;
    assert q.mode == Some(ResolveMode(q.appId, ws, Absent(file).mode));
    assert Truthy(q.wsUrl) <==> Truthy(ws);
  }

  // ---------------------------------------------------------------------------
  // Adapter choice at start-up (src/index.ts)
  // ---------------------------------------------------------------------------

  datatype QQAdapterChoice = UseOfficial | UseOneBot | NoUsableQQ

  /** The start-up choice of QQ adapter: the configured mode (or official when
      an app id is set, else OneBot), kept only when the field it needs is set. */
  function ChooseQQAdapter(q: QQConfig): (r: QQAdapterChoice)
    ensures r == UseOfficial ==> Truthy(q.appId)
    ensures r == UseOneBot ==> Truthy(q.wsUrl)
    ensures q.mode.None? && Truthy(q.appId) ==> r == UseOfficial
    ensures q.mode == Some(OfficialMode) && Truthy(q.appId) ==> r == UseOfficial
    ensures q.mode == Some(OneBotMode) && Truthy(q.wsUrl) ==> r == UseOneBot
    ensures q.mode.None? && !Truthy(q.appId) && Truthy(q.wsUrl) ==> r == UseOneBot
    ensures r == NoUsableQQ <==>
      !((q.mode == Some(OfficialMode) || q.mode.None?) && Truthy(q.appId)) &&
      !((q.mode == Some(OneBotMode) || (q.mode.None? && !Truthy(q.appId))) && Truthy(q.wsUrl))
  {
    var mode := q.mode.GetOr(if Truthy(q.appId) then OfficialMode else OneBotMode);
    if mode == OfficialMode && Truthy(q.appId) then UseOfficial
    else if mode == OneBotMode && Truthy(q.wsUrl) then UseOneBot
    else NoUsableQQ
  }

  /** A built configuration that passes validation always yields a usable
      adapter, and the official one exactly when an app id is set. */
  lemma ValidatedConfigChoosesAdapter(env: QQEnv, file: Option<QQConfig>, lark: Option<LarkConfig>, wechat: Option<WeChatConfig>)
    requires BuildQQConfig(env, file).enabled
    requires !QQWithoutEndpoint(BridgeConfig(Some(BuildQQConfig(env, file)), lark, wechat))
    requires !QQWithoutSecret(BridgeConfig(Some(BuildQQConfig(env, file)), lark, wechat))
    ensures ChooseQQAdapter(BuildQQConfig(env, file)) != NoUsableQQ
    ensures ChooseQQAdapter(BuildQQConfig(env, file)) == UseOfficial <==> Truthy(BuildQQConfig(env, file).appId)
  {
    ValidatedModeHasEndpoint(env, file, lark, wechat);
    var q := BuildQQConfig(env, file);
    var ws := if Truthy(env.wsUrl) then env.wsUrl else Absent(file).wsUrl;
    assert q.mode == Some(ResolveMode(q.appId, ws, Absent(file).mode));
  }

  // ---------------------------------------------------------------------------
  // Masking
  // ---------------------------------------------------------------------------

  const Mask := "****"

  /** `maskSecret`: short secrets are hidden entirely; longer ones keep only
      their first and last four characters around the mask. */
  function MaskSecret(value: string): (r: string)
    ensures |value| <= 8 ==> r == Mask
    ensures |value| > 8 ==> |r| == 12 && r[..4] == value[..4] && r[4..8] == Mask && r[8..] == value[|value| - 4..]
  {
    if |value| <= 8 then Mask else value[..4] + Mask + value[|value| - 4..]
  }

  /** The mask reveals nothing beyond the four characters at each end: two
      secrets that agree there mask alike, and all short secrets mask alike. */
  lemma MaskHidesMiddle(a: string, b: string)
    requires (|a| <= 8 && |b| <= 8) || (|a| > 8 && |b| > 8 && a[..4] == b[..4] && a[|a| - 4..] == b[|b| - 4..])
    ensures MaskSecret(a) == MaskSecret(b)
  {
  }
}
