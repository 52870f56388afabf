/** The QQ official-API adapter of src/adapters/qq-official.ts: it obtains an
    access token, keeps it fresh, posts replies to the channel or direct
    message endpoint, and turns webhook events into bridge messages.

    HTTP requests are parameters and results here: every method that may
    request a token takes the endpoint's answer as a `TokenFetch`, and a post
    takes the API's answer as a `PostResponse`. The clock is `now`, in
    milliseconds. Each token request is counted in `tokenRequests`, and each
    post is appended to `posts`. */
module QQOfficial {
  import opened Wrappers
  import opened Types
  import opened Text
  import opened Json
  import opened AdapterBase

  // ---------------------------------------------------------------------------
  // Token responses
  // ---------------------------------------------------------------------------

  /** The token endpoint's answer: a decoded body, or a failed request (a
      network error or a body that is not JSON) with its error message. */
  datatype TokenFetch = Body(body: Json) | FetchFailed(error: string)

  /** Why no token was obtained. `detail` of an API error is the body's
      `message` or else its `traceId`, as text; `None` when it has neither
      (the adapter then quotes the whole body). */
  datatype TokenError =
    | ApiError(code: int, detail: Option<string>)
    | UnknownFormat
    | NotAnObject
    | RequestFailed(error: string)

  /** Lifetime, in seconds, when the response does not give a numeric one. */
  const DefaultExpiresIn: int := 7200
  /** Seconds by which a token is treated as expiring early. */
  const ExpiryMargin: int := 300

  /** `typeof o.expires_in === 'number' ? o.expires_in : 7200`. */
  function ExpiresIn(o: Json): (seconds: int)
    ensures Field(o, "expires_in").Some? && Field(o, "expires_in").value.JNumber? ==>
      seconds == Field(o, "expires_in").value.n
    ensures !(Field(o, "expires_in").Some? && Field(o, "expires_in").value.JNumber?) ==>
      seconds == DefaultExpiresIn
  {
    var e := Field(o, "expires_in");
    if e.Some? && e.value.JNumber? then e.value.n else DefaultExpiresIn
  }

  /** A numeric, non-zero `code`. */
  predicate HasErrorCode(body: Json) {
    var code := Field(body, "code");
    code.Some? && code.value.JNumber? && code.value.n != 0
  }

  /** An object under `data` holding an `access_token`. */
  predicate HasNestedToken(body: Json) {
    var d := Field(body, "data");
    d.Some? && d.value.JObject? && "access_token" in d.value.fields
  }

  /** The grant (token text and lifetime in seconds) a decoded body carries,
      checked in order: an error code, a top-level token, a token under
      `data`, and otherwise an unknown format. An array is an object to the
      `in` test and holds none of these keys, so it reaches the unknown
      format; null, a string, a number or a boolean makes the `in` test
      throw. */
  function ClassifyToken(body: Json): (r: Result<(string, int), TokenError>)
    ensures r == Err(NotAnObject) <==> !body.JObject? && !body.JArray?
    ensures body.JArray? ==> r == Err(UnknownFormat)
    ensures body.JObject? && HasErrorCode(body) ==> r.Err? && r.error.ApiError? && r.error.code == body.fields["code"].n
    ensures body.JObject? && !HasErrorCode(body) && "access_token" in body.fields ==>
      r == Ok((StringOf(body.fields["access_token"]), ExpiresIn(body)))
    ensures body.JObject? && !HasErrorCode(body) && "access_token" !in body.fields && HasNestedToken(body) ==>
      r == Ok((StringOf(body.fields["data"].fields["access_token"]), ExpiresIn(body.fields["data"])))
    ensures r.Ok? <==> body.JObject? && !HasErrorCode(body) && ("access_token" in body.fields || HasNestedToken(body))
    ensures r == Err(UnknownFormat) <==>
      body.JArray? ||
      (body.JObject? && !HasErrorCode(body) && "access_token" !in body.fields && !HasNestedToken(body))
  {
    if body.JArray? then Err(UnknownFormat)
    else if !body.JObject? then Err(NotAnObject)
    else if HasErrorCode(body) then
      var detail := Or(Field(body, "message"), Field(body, "traceId"));
      Err(ApiError(body.fields["code"].n,
        if detail.Some? && IsTruthy(detail.value) then Some(StringOf(detail.value)) else None))
    else if "access_token" in body.fields then
      Ok((StringOf(body.fields["access_token"]), ExpiresIn(body)))
    else if HasNestedToken(body) then
      var d := body.fields["data"];
      Ok((StringOf(d.fields["access_token"]), ExpiresIn(d)))
    else Err(UnknownFormat)
  }

  /** The grant a token request yields. */
  function Grant(fetch: TokenFetch): Result<(string, int), TokenError> {
    match fetch
    case Body(b) => ClassifyToken(b)
    case FetchFailed(e) => Err(RequestFailed(e))
  }

  /** When a token granted at `now` for `expiresIn` seconds is due for renewal. */
  function ExpiryTime(now: int, expiresIn: int): int {
    now + (expiresIn - ExpiryMargin) * 1000
  }

  /** `ensureTokenValid`'s rule. */
  predicate NeedsRefresh(tokenExpiresAt: int, now: int) {
    now >= tokenExpiresAt
  }

  /** A token granted at `now` is renewed exactly once its lifetime less the
      five-minute margin has passed; with the default lifetime that is after
      6 900 000 ms, and a lifetime of 300 s or less is due at once. */
  lemma RefreshSchedule(now: int, expiresIn: int, later: int)
    ensures NeedsRefresh(ExpiryTime(now, expiresIn), later) <==> later - now >= (expiresIn - 300) * 1000
    ensures NeedsRefresh(ExpiryTime(now, DefaultExpiresIn), later) <==> later - now >= 6900000
    ensures expiresIn <= 300 ==> NeedsRefresh(ExpiryTime(now, expiresIn), now)
  {
  }

  // ---------------------------------------------------------------------------
  // Permission and webhook events
  // ---------------------------------------------------------------------------

  /** `checkPermission(userId, guildId)`: with no allow-list everyone passes;
      otherwise `Number(userId)` must be a listed user, or a truthy guild id
      must be a listed group. Text `Number` cannot read never matches. */
  function CheckPermission(config: QQConfig, userId: string, guildId: Option<string>): (ok: bool)
    ensures ok <==>
      || (!NonEmptyList(config.allowedUsers) && !NonEmptyList(config.allowedGroups))
      || (NonEmptyList(config.allowedUsers) && ToNumber(userId).Some?
          && ToNumber(userId).value in config.allowedUsers.value)
      || (Truthy(guildId) && NonEmptyList(config.allowedGroups) && ToNumber(guildId.value).Some?
          && ToNumber(guildId.value).value in config.allowedGroups.value)
  {
    if !NonEmptyList(config.allowedUsers) && !NonEmptyList(config.allowedGroups) then true
    else if NonEmptyList(config.allowedUsers) && ToNumber(userId).Some?
         && ToNumber(userId).value in config.allowedUsers.value then true
    else if Truthy(guildId) && NonEmptyList(config.allowedGroups) && ToNumber(guildId.value).Some?
         && ToNumber(guildId.value).value in config.allowedGroups.value then true
    else false
  }

  /** A webhook message event. */
  datatype WebhookEvent = WebhookEvent(
    id: string,
    timestamp: int,
    authorId: string,
    username: string,
    bot: bool,
    content: string,
    channelId: Option<string>,
    guildId: Option<string>)

  /** `handleWebhookEvent`'s filter and normalisation: nothing for a sender
      without permission, a bot, or blank content; otherwise the bridge
      message, a group message exactly when the event names a channel. */
  function WebhookMessage(config: QQConfig, ev: WebhookEvent): (r: Option<BridgeMessage>)
    ensures r.None? <==>
      !CheckPermission(config, ev.authorId, ev.guildId) || ev.bot || Trim(ev.content) == []
    ensures r.Some? ==>
      var m := r.value;
      && m.platform == QQ
      && m.id == ev.id
      && m.content == Trim(ev.content) && m.content != []
      && m.userId == ev.authorId
      && m.userName == Some(ev.username)
      && m.timestamp == ev.timestamp * 1000
      && (m.chatType == Group <==> Truthy(ev.channelId))
      && (m.groupId.Some? <==> Truthy(ev.channelId))
      && (Truthy(ev.channelId) ==> m.groupId == ev.channelId)
  {
    if !CheckPermission(config, ev.authorId, ev.guildId) then None
    else if ev.bot then None
    else if Trim(ev.content) == [] then None
    else
      var isGroup := Truthy(ev.channelId);
      Some(BridgeMessage(
        ev.id,
        QQ,
        if isGroup then Group else Private,
        ev.authorId,
        Some(ev.username),
        if isGroup then ev.channelId else None,
        Trim(ev.content),
        ev.timestamp * 1000))
  }

  /** With no allow-list, an event from a person with non-blank content
      that has no blanks at its ends is delivered with exactly that content
      and its author's id (the adapter's test "should handle webhook events
      correctly"). */
  lemma OpenWebhookDelivered(config: QQConfig, ev: WebhookEvent)
    requires !NonEmptyList(config.allowedUsers) && !NonEmptyList(config.allowedGroups)
    requires !ev.bot
    requires ev.content != [] && !IsWhitespace(ev.content[0]) && !IsWhitespace(ev.content[|ev.content| - 1])
    ensures WebhookMessage(config, ev).Some?
    ensures WebhookMessage(config, ev).value.content == ev.content
    ensures WebhookMessage(config, ev).value.userId == ev.authorId
  {
    TrimOfTrimmed(ev.content);
  }

  /** With only a user allow-list, an author whose numeric id is not listed
      is not delivered (the adapter's test "should respect allowlist"). */
  lemma UnlistedAuthorIgnored(config: QQConfig, ev: WebhookEvent)
    requires NonEmptyList(config.allowedUsers) && config.allowedGroups.None?
    requires ev.authorId != [] && AllDigits(ev.authorId)
    requires DigitsToNat(ev.authorId) !in config.allowedUsers.value
    ensures WebhookMessage(config, ev).None?
  {
    ToNumberOfDigits(ev.authorId);
    assert !CheckPermission(config, ev.authorId, ev.guildId);
  }

  // ---------------------------------------------------------------------------
  // Posting replies
  // ---------------------------------------------------------------------------

  /** The endpoint a reply is posted to. */
  function Endpoint(targetId: string, isGroup: bool): string {
    if isGroup then "/channels/" + targetId + "/messages" else "/dms/" + targetId + "/messages"
  }

  /** The endpoint names the target and the kind of conversation: different
      targets or kinds never share one. */
  lemma EndpointInjective(t1: string, g1: bool, t2: string, g2: bool)
    requires Endpoint(t1, g1) == Endpoint(t2, g2)
    ensures t1 == t2 && g1 == g2
  {
    var e := Endpoint(t1, g1);
    assert e[1] == if g1 then 'c' else 'd';
    assert e[1] == if g2 then 'c' else 'd';
    var prefix := if g1 then "/channels/" else "/dms/";
    assert e == prefix + (t1 + "/messages");
    assert e == prefix + (t2 + "/messages");
    assert t1 + "/messages" == e[|prefix|..] == t2 + "/messages";
    assert t1 == (t1 + "/messages")[..|t1|];
    assert t2 == (t2 + "/messages")[..|t2|];
  }

  /** The API's answer to a post: a decoded body with its `code` and
      `message` (`None` when absent), or a failed request. */
  datatype PostResponse = Answered(code: Option<Json>, message: Option<Json>) | PostFailed(error: string)

  /** One post: endpoint, body (`content`, `msg_id`) and the token in the
      Authorization header. */
  datatype Post = Post(endpoint: string, content: string, msgId: Option<string>, token: string)

  datatype Failure =
    | CredentialsMissing
    | NotConnected
    | TokenRefused(error: TokenError)
    | SendFailed(message: string)
    | PostRequestFailed(reason: string)

  const CredentialsText: string := "QQ 官方机器人需要配置 QQ_APP_ID 和 QQ_APP_SECRET"
  const NotConnectedText: string := "Not connected to QQ Official API"
  const SendFailedPrefix: string := "QQ API 发送消息失败: "

  /** The message of the error a failure throws; `None` for a refused token,
      whose message quotes the response body, which is not modelled. */
  function FailureText(f: Failure): (t: Option<string>)
    ensures t.None? <==> f.TokenRefused?
    ensures f.SendFailed? ==> t == Some(SendFailedPrefix + f.message)
  {
    match f
    case CredentialsMissing => Some(CredentialsText)
    case NotConnected => Some(NotConnectedText)
    case TokenRefused(_) => None
    case SendFailed(m) => Some(SendFailedPrefix + m)
    case PostRequestFailed(reason) => Some(reason)
  }

  /** The outcome of a post the API answered: success only for code 0. */
  function PostOutcome(response: PostResponse): (r: Outcome<Failure>)
    ensures r.Pass? <==> response.Answered? && response.code == Some(JNumber(0))
  {
    match response
    case PostFailed(e) => Fail(PostRequestFailed(e))
    case Answered(code, message) =>
      if code == Some(JNumber(0)) then Pass else Fail(SendFailed(StringOfField(message)))
  }

  class QQOfficialAdapter {
    const base: BaseAdapter
    var config: QQConfig
    var accessToken: Option<string>
    /** When the token is due for renewal, in milliseconds; 0 before the first grant. */
    var tokenExpiresAt: int
    /** How many 30-second poll intervals are armed, including any whose
        handle was overwritten by a later `connect` and can no longer be
        cleared. */
    var intervals: nat
    /** Whether `pollInterval` holds the handle of an armed interval. */
    var pollHandle: bool
    /** The number of poll requests (`GET /users/@me/dms`) made. */
    var pollRequests: nat
    /** The number of token requests made. */
    var tokenRequests: nat
    /** Every post made, oldest first. */
    var posts: seq<Post>

    constructor(config: QQConfig)
      ensures this.config == config
      ensures base.platform == QQ && base.name == "QQ-Official" && !base.connected && base.handler.None?
      ensures fresh(base)
      ensures accessToken.None? && tokenExpiresAt == 0 && tokenRequests == 0 && posts == []
      ensures intervals == 0 && !pollHandle && pollRequests == 0
    {
      base := new BaseAdapter("QQ-Official", QQ);
      this.config := config;
      accessToken := None;
      tokenExpiresAt := 0;
      intervals := 0;
      pollHandle := false;
      pollRequests := 0;
      tokenRequests := 0;
      posts := [];
    }

    /** `refreshAccessToken`: one token request; a grant replaces the token
        and its renewal time, and any failure leaves both as they were. */
    method RefreshAccessToken(fetch: TokenFetch, now: int) returns (r: Outcome<TokenError>)
      modifies this`accessToken, this`tokenExpiresAt, this`tokenRequests
      ensures tokenRequests == old(tokenRequests) + 1
      ensures Grant(fetch).Ok? ==>
        && r == Pass
        && accessToken == Some(Grant(fetch).value.0)
        && tokenExpiresAt == ExpiryTime(now, Grant(fetch).value.1)
      ensures Grant(fetch).Err? ==>
        r == Fail(Grant(fetch).error) && accessToken == old(accessToken) && tokenExpiresAt == old(tokenExpiresAt)
    {
      tokenRequests := tokenRequests + 1;
      var g := Grant(fetch);
      if g.Err? {
        return Fail(g.error);
      }
      accessToken := Some(g.value.0);
      tokenExpiresAt := ExpiryTime(now, g.value.1);
      r := Pass;
    }

    /** `ensureTokenValid`: a refresh exactly when the token is due. */
    method EnsureTokenValid(fetch: TokenFetch, now: int) returns (r: Outcome<TokenError>)
      modifies this`accessToken, this`tokenExpiresAt, this`tokenRequests
      ensures !NeedsRefresh(old(tokenExpiresAt), now) ==>
        && r == Pass && tokenRequests == old(tokenRequests)
        && accessToken == old(accessToken) && tokenExpiresAt == old(tokenExpiresAt)
      ensures NeedsRefresh(old(tokenExpiresAt), now) ==> tokenRequests == old(tokenRequests) + 1
      ensures NeedsRefresh(old(tokenExpiresAt), now) && Grant(fetch).Ok? ==>
        && r == Pass
        && accessToken == Some(Grant(fetch).value.0)
        && tokenExpiresAt == ExpiryTime(now, Grant(fetch).value.1)
      ensures NeedsRefresh(old(tokenExpiresAt), now) && Grant(fetch).Err? ==>
        r == Fail(Grant(fetch).error) && accessToken == old(accessToken) && tokenExpiresAt == old(tokenExpiresAt)
    {
      r := Pass;
      if now >= tokenExpiresAt {
        r := RefreshAccessToken(fetch, now);
      }
    }

    /** The polling bookkeeping: a stored handle belongs to an armed interval. */
    ghost predicate PollValid()
      reads this`intervals, this`pollHandle
    {
      pollHandle ==> intervals > 0
    }

    /** `connect`: both credentials are required; then a token is obtained
        (its failure propagates), and the adapter is connected and arms a new
        poll interval, overwriting the handle of any earlier one without
        clearing it. */
    method Connect(fetch: TokenFetch, now: int) returns (r: Outcome<Failure>)
      modifies this`accessToken, this`tokenExpiresAt, this`tokenRequests, this`intervals, this`pollHandle, base`connected
      ensures !Truthy(config.appId) || !Truthy(config.appSecret) ==>
        && r == Fail(CredentialsMissing)
        && tokenRequests == old(tokenRequests) && accessToken == old(accessToken)
        && tokenExpiresAt == old(tokenExpiresAt)
        && intervals == old(intervals) && pollHandle == old(pollHandle) && base.connected == old(base.connected)
      ensures Truthy(config.appId) && Truthy(config.appSecret) ==>
        && tokenRequests == old(tokenRequests) + 1
        && (Grant(fetch).Ok? ==>
              r == Pass && base.connected && intervals == old(intervals) + 1 && pollHandle
              && accessToken == Some(Grant(fetch).value.0)
              && tokenExpiresAt == ExpiryTime(now, Grant(fetch).value.1))
        && (Grant(fetch).Err? ==>
              r == Fail(TokenRefused(Grant(fetch).error))
              && intervals == old(intervals) && pollHandle == old(pollHandle) && base.connected == old(base.connected)
              && accessToken == old(accessToken) && tokenExpiresAt == old(tokenExpiresAt))
      ensures old(PollValid()) ==> PollValid()
    {
      if !Truthy(config.appId) || !Truthy(config.appSecret) {
        return Fail(CredentialsMissing);
      }
      var t := RefreshAccessToken(fetch, now);
      if t.Fail? {
        return Fail(TokenRefused(t.error));
      }
      base.connected := true;
      intervals := intervals + 1;
      pollHandle := true;
      r := Pass;
    }

    /** `disconnect`: clears the interval whose handle is stored, if any, and
        is no longer connected. Intervals whose handles were overwritten keep
        running. */
    method Disconnect()
      requires PollValid()
      modifies this`intervals, this`pollHandle, base`connected
      ensures intervals == (if old(pollHandle) then old(intervals) - 1 else old(intervals))
      ensures !pollHandle && !base.connected && PollValid()
    {
      if pollHandle {
        intervals := intervals - 1;
        pollHandle := false;
      }
      base.connected := false;
    }

    /** One tick of an armed poll interval: `pollMessages` makes an API call,
        which first makes the token valid. A refused refresh and any failure
        of the request are swallowed; the request is made unless the refresh
        was refused. The answer is not used. */
    method OnPollTick(fetch: TokenFetch, now: int)
      requires intervals > 0
      modifies this`accessToken, this`tokenExpiresAt, this`tokenRequests, this`pollRequests
      ensures !NeedsRefresh(old(tokenExpiresAt), now) ==>
        && tokenRequests == old(tokenRequests) && pollRequests == old(pollRequests) + 1
        && accessToken == old(accessToken) && tokenExpiresAt == old(tokenExpiresAt)
      ensures NeedsRefresh(old(tokenExpiresAt), now) ==> tokenRequests == old(tokenRequests) + 1
      ensures NeedsRefresh(old(tokenExpiresAt), now) && Grant(fetch).Ok? ==>
        && pollRequests == old(pollRequests) + 1
        && accessToken == Some(Grant(fetch).value.0)
        && tokenExpiresAt == ExpiryTime(now, Grant(fetch).value.1)
      ensures NeedsRefresh(old(tokenExpiresAt), now) && Grant(fetch).Err? ==>
        && pollRequests == old(pollRequests)
        && accessToken == old(accessToken) && tokenExpiresAt == old(tokenExpiresAt)
    {
      var e := EnsureTokenValid(fetch, now);
      if e.Pass? {
        pollRequests := pollRequests + 1;
      }
    }

    /** `sendMessage`: refused unless connected with a token; otherwise the
        token is made valid (directly and once more inside the API call, both
        at `now`), and the reply is posted to its endpoint. Success needs the
        API's code 0. */
    method SendMessage(targetId: string, reply: BridgeReply, isGroup: bool,
                       fetch1: TokenFetch, fetch2: TokenFetch, response: PostResponse, now: int)
      returns (r: Outcome<Failure>)
      modifies this`accessToken, this`tokenExpiresAt, this`tokenRequests, this`posts
      ensures !(base.connected && Truthy(old(accessToken))) ==>
        && r == Fail(NotConnected) && posts == old(posts) && tokenRequests == old(tokenRequests)
        && accessToken == old(accessToken) && tokenExpiresAt == old(tokenExpiresAt)
      ensures base.connected && Truthy(old(accessToken)) && !NeedsRefresh(old(tokenExpiresAt), now) ==>
        && tokenRequests == old(tokenRequests)
        && accessToken == old(accessToken) && tokenExpiresAt == old(tokenExpiresAt)
        && posts == old(posts) + [Post(Endpoint(targetId, isGroup), reply.content, reply.replyTo, old(accessToken).value)]
        && r == PostOutcome(response)
      ensures posts == old(posts) || posts == old(posts) + [Post(Endpoint(targetId, isGroup), reply.content, reply.replyTo, accessToken.GetOr(""))]
      ensures r.Pass? ==> |posts| == |old(posts)| + 1 && response.Answered? && response.code == Some(JNumber(0))
      ensures tokenRequests <= old(tokenRequests) + 2
    {
      if !base.connected || !Truthy(accessToken) {
        return Fail(NotConnected);
      }
      var e1 := EnsureTokenValid(fetch1, now);
      if e1.Fail? {
        return Fail(TokenRefused(e1.error));
      }
      var endpoint := Endpoint(targetId, isGroup);
      var e2 := EnsureTokenValid(fetch2, now);
      if e2.Fail? {
        return Fail(TokenRefused(e2.error));
      }
      posts := posts + [Post(endpoint, reply.content, reply.replyTo, accessToken.GetOr(""))];
      r := PostOutcome(response);
    }

    /** `handleWebhookEvent`: a permitted, non-bot, non-blank event is
        normalised and emitted to the handler. */
    method HandleWebhookEvent(ev: WebhookEvent)
      modifies base`delivered
      ensures var m := WebhookMessage(config, ev);
        base.delivered == old(base.delivered)
          + (if m.Some? && base.handler.Some? then [Delivery(base.handler.value, m.value)] else [])
    {
      var m := WebhookMessage(config, ev);
      if m.Some? {
        base.EmitMessage(m.value);
      }
    }
  }

  /** Connecting without both credentials throws the error whose message
      names the missing settings, before any request (the adapter's test
      "should throw error when connecting without credentials"). */
  method ConnectWithoutCredentials(config: QQConfig, fetch: TokenFetch, now: int)
    returns (a: QQOfficialAdapter, r: Outcome<Failure>)
    requires !Truthy(config.appId) || !Truthy(config.appSecret)
    ensures r.Fail? && FailureText(r.error) == Some(CredentialsText)
    ensures "QQ 官方机器人需要配置" <= CredentialsText
    ensures a.tokenRequests == 0 && !a.base.connected && a.intervals == 0
  {
    a := new QQOfficialAdapter(config);
    r := a.Connect(fetch, now);
  }

  /** A second successful `connect` overwrites the stored interval handle, so
      `disconnect` clears only the newer interval: one poll interval keeps
      running after the adapter is disconnected, and its ticks still renew a
      due token. */
  method ReconnectLeaksPollInterval(config: QQConfig, f1: TokenFetch, f2: TokenFetch, t1: int, t2: int)
    returns (a: QQOfficialAdapter)
    requires Truthy(config.appId) && Truthy(config.appSecret)
    requires Grant(f1).Ok? && Grant(f2).Ok?
    ensures !a.base.connected && !a.pollHandle && a.intervals == 1
    ensures a.tokenRequests == 2
  {
    a := new QQOfficialAdapter(config);
    var r1 := a.Connect(f1, t1);
    var r2 := a.Connect(f2, t2);
    a.Disconnect();
  }

  /** A single `connect` followed by `disconnect` leaves no poll interval. */
  method ConnectThenDisconnectStopsPolling(config: QQConfig, f: TokenFetch, now: int)
    returns (a: QQOfficialAdapter)
    requires Truthy(config.appId) && Truthy(config.appSecret)
    ensures !a.base.connected && a.intervals == 0
  {
    a := new QQOfficialAdapter(config);
    var r := a.Connect(f, now);
    a.Disconnect();
  }

  /** Once the token is due, every poll tick requests a new one even while
      nothing is being sent; a refused refresh leaves the token as it was and
      the next tick asks again. */
  method DuePollTicksRenew(a: QQOfficialAdapter, refused: TokenFetch, granted: TokenFetch, now: int)
    requires a.intervals > 0 && NeedsRefresh(a.tokenExpiresAt, now)
    requires Grant(refused).Err? && Grant(granted).Ok?
    modifies a`accessToken, a`tokenExpiresAt, a`tokenRequests, a`pollRequests
    ensures a.tokenRequests == old(a.tokenRequests) + 2
    ensures a.pollRequests == old(a.pollRequests) + 1
    ensures a.accessToken == Some(Grant(granted).value.0)
  {
    a.OnPollTick(refused, now);
    a.OnPollTick(granted, now);
  }
}
