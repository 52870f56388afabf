/** The OneBot adapter of src/adapters/qq.ts: a WebSocket client that sends
    API calls tagged with fresh echo tokens, correlates the responses through a
    table of pending calls, turns message events into bridge messages, and
    reconnects after the socket closes.

    The socket, its timers and the clock are events and parameters here: an
    opened, errored or closed socket is `OnOpen`, `OnError`, `OnClose`; a frame
    is `HandleFrame` with the decoded frame; a call's ten-second timeout is
    `OnCallTimeout`; the reconnect timer is `OnReconnectTimer`. How a call's
    promise settles is appended to `settled`, and every envelope written to
    the socket to `sent`. */
module OneBot {
  import opened Wrappers
  import opened Types
  import opened Text
  import opened Json
  import opened AdapterBase

  // ---------------------------------------------------------------------------
  // Echo tokens
  // ---------------------------------------------------------------------------

  /** `generateEchoId`'s token for the clock reading `now` and counter value `n`. */
  function EchoToken(now: int, n: nat): string {
    "echo_" + IntToString(now) + "_" + NatToString(n)
  }

  /** The counter an echo token carries, if the text has that shape. */
  function TokenCounter(token: string): Option<nat> {
    var parts := Split(token, '_');
    if |parts| == 3 && parts[0] == "echo" && parts[2] != [] && AllDigits(parts[2])
    then Some(DigitsToNat(parts[2]))
    else None
  }

  /** A token gives back the counter it was made from. */
  lemma TokenCounterOfToken(now: int, n: nat)
    ensures TokenCounter(EchoToken(now, n)) == Some(n)
  {
    var t := IntToString(now);
    var c := NatToString(n);
    assert '_' !in t by {
      forall k | 0 <= k < |t| ensures t[k] != '_' {
        assert IsDigit(t[k]) || t[k] == '-';
      }
    }
    assert '_' !in c by {
      forall k | 0 <= k < |c| ensures c[k] != '_' {
        assert IsDigit(c[k]);
      }
    }
    var parts := ["echo", t, c];
    assert Join(parts[2..], "_") == c;
    assert Join(parts[1..], "_") == t + "_" + c;
    assert EchoToken(now, n) == Join(parts, "_");
    SplitJoin(parts, '_');
    DigitsToNatOfNatToString(n);
  }

  /** Tokens made from different counter values differ, whatever the clock
      says: the pre-incremented counter alone keeps them apart. */
  lemma TokensDistinct(t1: int, n1: nat, t2: int, n2: nat)
    requires n1 != n2
    ensures EchoToken(t1, n1) != EchoToken(t2, n2)
  {
    TokenCounterOfToken(t1, n1);
    TokenCounterOfToken(t2, n2);
  }

  /** The module-level counter behind `generateEchoId`, shared by every
      adapter of the process. */
  class EchoSource {
    var last: nat

    constructor()
      ensures last == 0
    {
      last := 0;
    }

    /** Pre-increment the counter and embed it, with the clock reading, in a token. */
    method Next(now: int) returns (token: string)
      modifies this
      ensures last == old(last) + 1
      ensures token == EchoToken(now, last)
      ensures TokenCounter(token) == Some(last)
    {
      last := last + 1;
      token := EchoToken(now, last);
      TokenCounterOfToken(now, last);
    }
  }

  // ---------------------------------------------------------------------------
  // Events and their normalisation
  // ---------------------------------------------------------------------------

  /** A message segment; `text` is `data.text`, absent for a segment without one. */
  datatype Segment = Segment(kind: string, text: Option<string>)

  /** A message is a plain string or an array of segments. */
  datatype MessageBody = TextBody(text: string) | Segments(segments: seq<Segment>)

  /** The fields of a OneBot message event the adapter reads. `groupId` is
      read only for group messages. */
  datatype OneBotEvent = OneBotEvent(
    time: int,
    messageType: ChatType,
    userId: int,
    groupId: int,
    message: MessageBody,
    nickname: string,
    messageId: int)

  /** The text segments' texts, concatenated in order (`join('')` prints a
      missing text as nothing). */
  function SegmentText(segments: seq<Segment>): string {
    if segments == [] then ""
    else
      (if segments[0].kind == "text" then segments[0].text.GetOr("") else "")
      + SegmentText(segments[1..])
  }

  /** Only text segments contribute: dropping every other segment changes nothing. */
  lemma {:induction false} SegmentTextOnlyText(segments: seq<Segment>)
    ensures SegmentText(segments) == SegmentText(TextSegments(segments))
  {
    if segments != [] {
      SegmentTextOnlyText(segments[1..]);
      if segments[0].kind == "text" {
        assert TextSegments(segments) == [segments[0]] + TextSegments(segments[1..]);
        assert ([segments[0]] + TextSegments(segments[1..]))[1..] == TextSegments(segments[1..]);
      }
    }
  }

  function TextSegments(segments: seq<Segment>): (r: seq<Segment>)
    ensures |r| <= |segments|
    ensures forall i :: 0 <= i < |r| ==> r[i].kind == "text"
  {
    if segments == [] then []
    else if segments[0].kind == "text" then [segments[0]] + TextSegments(segments[1..])
    else TextSegments(segments[1..])
  }

  /** The message text before trimming. */
  function RawContent(body: MessageBody): string {
    match body
    case TextBody(t) => t
    case Segments(segs) => SegmentText(segs)
  }

  /** `checkPermission`: with no allow-list everyone passes; otherwise the
      user must be listed, or the message must come from a listed group. A
      group id of 0 is falsy and never matches. */
  function CheckPermission(config: QQConfig, e: OneBotEvent): (ok: bool)
    ensures ok <==>
      || (!NonEmptyList(config.allowedUsers) && !NonEmptyList(config.allowedGroups))
      || (NonEmptyList(config.allowedUsers) && e.userId in config.allowedUsers.value)
      || (e.messageType == Group && e.groupId != 0
          && NonEmptyList(config.allowedGroups) && e.groupId in config.allowedGroups.value)
  {
    if !NonEmptyList(config.allowedUsers) && !NonEmptyList(config.allowedGroups) then true
    else
      var groupId := if e.messageType == Group then e.groupId else 0;
      if NonEmptyList(config.allowedUsers) && e.userId in config.allowedUsers.value then true
      else if groupId != 0 && NonEmptyList(config.allowedGroups) && groupId in config.allowedGroups.value then true
      else false
  }

  /** A configured allow-list never admits a private message from an unlisted user. */
  lemma PrivateNeedsListedUser(config: QQConfig, e: OneBotEvent)
    requires NonEmptyList(config.allowedUsers) || NonEmptyList(config.allowedGroups)
    requires e.messageType == Private
    ensures CheckPermission(config, e) <==> NonEmptyList(config.allowedUsers) && e.userId in config.allowedUsers.value
  {
  }

  /** `handleOneBotMessage`'s filter and normalisation: nothing for a sender
      without permission or for blank content; otherwise the bridge message. */
  function Normalize(config: QQConfig, e: OneBotEvent): Option<BridgeMessage> {
    var content := Trim(RawContent(e.message));
    if !CheckPermission(config, e) || content == [] then None
    else
      Some(BridgeMessage(
        IntToString(e.messageId),
        QQ,
        e.messageType,
        IntToString(e.userId),
        Some(e.nickname),
        if e.messageType == Group then Some(IntToString(e.groupId)) else None,
        content,
        e.time * 1000))
  }

  /** An event is dropped exactly when its sender lacks permission or its
      text is blank. */
  lemma NormalizeDrops(config: QQConfig, e: OneBotEvent)
    ensures Normalize(config, e).None? <==>
      !CheckPermission(config, e) || forall i :: 0 <= i < |RawContent(e.message)| ==> IsWhitespace(RawContent(e.message)[i])
  {
    var raw := RawContent(e.message);
    assert Trim(raw) == [] <==> forall i :: 0 <= i < |raw| ==> IsWhitespace(raw[i]);
  }

  /** A kept event becomes a QQ message carrying the trimmed text, the ids
      printed in decimal, the nickname, the time in milliseconds, and a group
      id exactly for a group message. */
  lemma NormalizeFields(config: QQConfig, e: OneBotEvent)
    requires Normalize(config, e).Some?
    ensures var m := Normalize(config, e).value;
      && m.platform == QQ
      && m.content == Trim(RawContent(e.message)) && m.content != []
      && m.id == IntToString(e.messageId)
      && m.chatType == e.messageType
      && m.userId == IntToString(e.userId)
      && m.userName == Some(e.nickname)
      && m.timestamp == e.time * 1000
      && (m.groupId.Some? <==> e.messageType == Group)
      && (e.messageType == Group ==> m.groupId == Some(IntToString(e.groupId)))
  {
  }

  // ---------------------------------------------------------------------------
  // Outgoing messages
  // ---------------------------------------------------------------------------

  /** `formatMessage`: a reply to a message is prefixed with a reply code. */
  function FormatMessage(reply: BridgeReply): (r: string)
    ensures |r| >= |reply.content| && r[|r| - |reply.content|..] == reply.content
    ensures Truthy(reply.replyTo) <==> |r| > |reply.content|
    ensures Truthy(reply.replyTo) ==> ("[CQ:reply,id=" + reply.replyTo.value + "] ") <= r
    ensures Truthy(reply.replyTo) ==> |r| == |"[CQ:reply,id=" + reply.replyTo.value + "] "| + |reply.content|
  {
    if Truthy(reply.replyTo) then "[CQ:reply,id=" + reply.replyTo.value + "] " + reply.content
    else reply.content
  }

  /** The parameters of a message-sending call. A target id `parseInt`
      cannot read is sent as `null`, JSON's rendering of NaN: `None`. */
  datatype ApiParams =
    | PrivateMsg(userId: Option<int>, message: string)
    | GroupMsg(groupId: Option<int>, message: string)

  /** The action and parameters `sendMessage` calls for a reply. */
  function SendRequest(targetId: string, reply: BridgeReply, isGroup: bool): (r: (string, ApiParams))
    ensures isGroup <==> r.1.GroupMsg?
    ensures isGroup ==> r.0 == "send_group_msg" && r.1.groupId == ParseInt(targetId)
    ensures !isGroup ==> r.0 == "send_private_msg" && r.1.userId == ParseInt(targetId)
    ensures !isGroup || !reply.atSender ==> r.1.message == FormatMessage(reply)
    ensures isGroup && reply.atSender ==> r.1.message == "[CQ:at,qq=" + targetId + "] " + FormatMessage(reply)
  {
    var message := FormatMessage(reply);
    if isGroup then
      ("send_group_msg", GroupMsg(ParseInt(targetId), if reply.atSender then "[CQ:at,qq=" + targetId + "] " + message else message))
    else
      ("send_private_msg", PrivateMsg(ParseInt(targetId), message))
  }

  /** A reply to a normalised event goes back where the event came from: the
      router's target for the bridge message reads back as the event's group
      (for a group message) or user (for a private one). */
  lemma ReplyReachesOrigin(config: QQConfig, e: OneBotEvent, reply: BridgeReply)
    requires Normalize(config, e).Some?
    ensures var m := Normalize(config, e).value;
      var target := if Truthy(m.groupId) then m.groupId.value else m.userId;
      var req := SendRequest(target, reply, Truthy(m.groupId));
      if e.messageType == Group then req.1 == GroupMsg(Some(e.groupId), req.1.message)
      else req.1 == PrivateMsg(Some(e.userId), req.1.message)
  {
    NormalizeFields(config, e);
    ParseIntOfIntToString(e.groupId);
    ParseIntOfIntToString(e.userId);
  }

  // ---------------------------------------------------------------------------
  // The adapter
  // ---------------------------------------------------------------------------

  /** One request written to the socket. */
  datatype Envelope = Envelope(action: string, params: ApiParams, echo: string)

  /** A call awaiting its response. */
  datatype PendingCall = PendingCall(action: string)

  /** How the promise of the call tagged `echo` settled: resolved with the
      response's `data` (absent when the response had none), or rejected. */
  datatype Settlement = Settlement(echo: string, result: Result<Option<Json>, string>)

  /** A socket the adapter opened: the configured URL and the access token
      it carries as a query parameter, if one is configured. */
  datatype Dial = Dial(url: string, accessToken: Option<string>)

  /** A decoded frame. `Unparsable` is text `JSON.parse` rejects; the other
      fields are the frame's properties (`None` when absent), and `event` is
      the frame read as a message event. */
  datatype Frame =
    | Unparsable
    | Decoded(echo: Option<Json>, status: Option<Json>, data: Option<Json>,
              message: Option<Json>, postType: Option<Json>, event: OneBotEvent)

  /** The result a response carries: its data when the status is "ok",
      otherwise its message or a generic failure. */
  function ResponseResult(frame: Frame): (r: Result<Option<Json>, string>)
    requires frame.Decoded?
    ensures r.Ok? <==> frame.status == Some(JString("ok"))
    ensures r.Ok? ==> r.value == frame.data
    ensures r.Err? && frame.message.Some? && IsTruthy(frame.message.value) ==> r.error == StringOf(frame.message.value)
    ensures r.Err? && !(frame.message.Some? && IsTruthy(frame.message.value)) ==> r.error == "API call failed"
  {
    if frame.status == Some(JString("ok")) then Ok(frame.data)
    else if frame.message.Some? && IsTruthy(frame.message.value) then Err(StringOf(frame.message.value))
    else Err("API call failed")
  }

  /** `reconnectInterval || 5000`. */
  function ReconnectDelay(config: QQConfig): int {
    if config.reconnectInterval.Some? && config.reconnectInterval.value != 0
    then config.reconnectInterval.value else 5000
  }

  const UrlMissing: string := "QQ WebSocket URL not configured"
  const NotConnected: string := "Not connected to OneBot"

  /** The bookkeeping of API calls against a counter that has reached
      `last`: every token in the table or among the settled calls came from
      the counter; no settled call is still pending; no call settles twice. */
  ghost predicate CallsConsistent(pending: map<string, PendingCall>, settled: seq<Settlement>, last: nat) {
    && (forall t :: t in pending ==> TokenCounter(t).Some? && TokenCounter(t).value <= last)
    && (forall i :: 0 <= i < |settled| ==>
          TokenCounter(settled[i].echo).Some? && TokenCounter(settled[i].echo).value <= last)
    && (forall i :: 0 <= i < |settled| ==> settled[i].echo !in pending)
    && (forall i, j :: 0 <= i < j < |settled| ==> settled[i].echo != settled[j].echo)
  }

  /** Settling a pending call, whatever its result, keeps the bookkeeping
      consistent. */
  lemma SettleKeepsConsistent(pending: map<string, PendingCall>, settled: seq<Settlement>, last: nat,
                              token: string, result: Result<Option<Json>, string>)
    requires CallsConsistent(pending, settled, last) && token in pending
    ensures CallsConsistent(pending - {token}, settled + [Settlement(token, result)], last)
  {
    var s' := settled + [Settlement(token, result)];
    forall i, j | 0 <= i < j < |s'| ensures s'[i].echo != s'[j].echo {
      if j == |settled| {
        assert settled[i].echo !in pending;
      }
    }
  }

  class QQAdapter {
    /** The shared adapter state: connection flag, handler, stored config. */
    const base: BaseAdapter
    /** The process-wide echo counter. */
    const echo: EchoSource
    var config: QQConfig
    /** Whether the adapter holds a socket (`ws !== null`). */
    var hasSocket: bool
    /** Every socket opened, oldest first. */
    var dialled: seq<Dial>
    /** The delay of the pending reconnect timer, if one is pending. */
    var reconnectTimer: Option<int>
    /** `apiCallbacks`: the calls awaiting a response, by echo token. */
    var pending: map<string, PendingCall>
    /** Every envelope written to the socket, oldest first. */
    var sent: seq<Envelope>
    /** Every settled call, oldest first. */
    var settled: seq<Settlement>

    /** Every token in the table or among the settled calls came from the
        counter; no settled call is still pending; no call settles twice. */
    ghost predicate Valid()
      reads this`pending, this`settled, echo`last
    {
      CallsConsistent(pending, settled, echo.last)
    }

    constructor(config: QQConfig, echo: EchoSource)
      ensures Valid()
      ensures this.config == config && this.echo == echo
      ensures base.platform == QQ && base.name == "QQ" && !base.connected && base.handler.None?
      ensures !hasSocket && dialled == [] && reconnectTimer.None? && pending == map[] && sent == [] && settled == []
    {
      base := new BaseAdapter("QQ", QQ);
      this.echo := echo;
      this.config := config;
      hasSocket := false;
      dialled := [];
      reconnectTimer := None;
      pending := map[];
      sent := [];
      settled := [];
    }

    /** `init`: the base stores the configuration and so does the adapter. */
    method Init(cfg: QQConfig)
      modifies this`config, base`config
      ensures config == cfg && base.config == Some(cfg)
    {
      base.Init(cfg);
      config := cfg;
    }

    /** `connect` up to the socket's creation: without a URL it fails;
        otherwise a socket is opened, and the connection completes on `OnOpen`. */
    method Connect() returns (r: Outcome<string>)
      modifies this`hasSocket, this`dialled
      ensures !Truthy(config.wsUrl) ==> r == Fail(UrlMissing) && hasSocket == old(hasSocket) && dialled == old(dialled)
      ensures Truthy(config.wsUrl) ==>
        && r == Pass && hasSocket
        && dialled == old(dialled) + [Dial(config.wsUrl.value, if Truthy(config.accessToken) then config.accessToken else None)]
    {
      if !Truthy(config.wsUrl) {
        return Fail(UrlMissing);
      }
      hasSocket := true;
      dialled := dialled + [Dial(config.wsUrl.value, if Truthy(config.accessToken) then config.accessToken else None)];
      r := Pass;
    }

    /** The socket's `open` event. */
    method OnOpen()
      modifies base`connected, this`reconnectTimer
      ensures base.connected && reconnectTimer.None?
    {
      base.connected := true;
      ClearReconnectTimer();
    }

    /** The socket's `error` event: it rejects the pending `connect` only
        while not yet connected, and changes nothing. */
    method OnError() returns (rejectsConnect: bool)
      ensures rejectsConnect <==> !base.connected
    {
      rejectsConnect := !base.connected;
    }

    /** The socket's `close` event: not connected any more, a reconnect is
        scheduled, and the pending calls are left as they are. */
    method OnClose()
      modifies base`connected, this`reconnectTimer
      ensures !base.connected
      ensures reconnectTimer == if old(reconnectTimer).Some? then old(reconnectTimer) else Some(ReconnectDelay(config))
    {
      base.connected := false;
      ScheduleReconnect();
    }

    /** Arm the reconnect timer unless one is already pending. */
    method ScheduleReconnect()
      modifies this`reconnectTimer
      ensures old(reconnectTimer).Some? ==> reconnectTimer == old(reconnectTimer)
      ensures old(reconnectTimer).None? ==> reconnectTimer == Some(ReconnectDelay(config))
    {
      if reconnectTimer.Some? {
        return;
      }
      reconnectTimer := Some(ReconnectDelay(config));
    }

    method ClearReconnectTimer()
      modifies this`reconnectTimer
      ensures reconnectTimer.None?
    {
      reconnectTimer := None;
    }

    /** The reconnect timer fires: it is no longer pending, and `connect` runs
        again (a failure is only logged). */
    method OnReconnectTimer()
      requires reconnectTimer.Some?
      modifies this`reconnectTimer, this`hasSocket, this`dialled
      ensures reconnectTimer.None?
      ensures Truthy(config.wsUrl) ==> hasSocket && |dialled| == |old(dialled)| + 1
      ensures !Truthy(config.wsUrl) ==> hasSocket == old(hasSocket) && dialled == old(dialled)
    {
      reconnectTimer := None;
      var _ := Connect();
    }

    /** `disconnect`: no reconnect timer, no socket, not connected. The
        closed socket's `close` event still follows. */
    method Disconnect()
      modifies this`reconnectTimer, this`hasSocket, base`connected
      ensures reconnectTimer.None? && !hasSocket && !base.connected
    {
      ClearReconnectTimer();
      hasSocket := false;
      base.connected := false;
    }

    /** `callApi`: register one pending call under a fresh token and write its
        envelope to the socket. */
    method CallApi(action: string, params: ApiParams, now: int) returns (token: string)
      requires Valid() && hasSocket
      modifies this`pending, this`sent, echo
      ensures Valid()
      ensures echo.last == old(echo.last) + 1 && token == EchoToken(now, echo.last)
      ensures token !in old(pending)
      ensures forall i :: 0 <= i < |settled| ==> settled[i].echo != token
      ensures pending == old(pending)[token := PendingCall(action)]
      ensures sent == old(sent) + [Envelope(action, params, token)]
    {
      token := echo.Next(now);
      pending := pending[token := PendingCall(action)];
      sent := sent + [Envelope(action, params, token)];
    }

    /** `sendMessage`: refused unless connected with a socket; otherwise one
        API call for the reply, whose promise settles later under `token`. */
    method SendMessage(targetId: string, reply: BridgeReply, isGroup: bool, now: int)
      returns (r: Outcome<string>, token: Option<string>)
      requires Valid()
      modifies this`pending, this`sent, echo
      ensures Valid()
      ensures !(base.connected && hasSocket) ==>
        r == Fail(NotConnected) && token.None? && pending == old(pending) && sent == old(sent)
      ensures base.connected && hasSocket ==>
        var req := SendRequest(targetId, reply, isGroup);
        && r == Pass && token.Some? && token.value !in old(pending)
        && pending == old(pending)[token.value := PendingCall(req.0)]
        && sent == old(sent) + [Envelope(req.0, req.1, token.value)]
    {
      if !base.connected || !hasSocket {
        return Fail(NotConnected), None;
      }
      var req := SendRequest(targetId, reply, isGroup);
      var t := CallApi(req.0, req.1, now);
      r, token := Pass, Some(t);
    }

    /** `handleOneBotMessage`: a permitted, non-blank event is normalised and
        emitted to the handler. */
    method HandleOneBotMessage(e: OneBotEvent)
      modifies base`delivered
      ensures var m := Normalize(config, e);
        base.delivered == old(base.delivered)
          + (if m.Some? && base.handler.Some? then [Delivery(base.handler.value, m.value)] else [])
    {
      var m := Normalize(config, e);
      if m.Some? {
        base.EmitMessage(m.value);
      }
    }

    /** `handleMessage`: a frame with a truthy `echo` is a response; it settles
        and removes the matching pending call, and is dropped when none
        matches. Any other frame whose `post_type` is "message" is an event.
        Unparsable frames are only logged. */
    method HandleFrame(frame: Frame)
      requires Valid()
      modifies this`pending, this`settled, base`delivered
      ensures Valid()
      ensures frame.Unparsable? ==>
        pending == old(pending) && settled == old(settled) && base.delivered == old(base.delivered)
      ensures frame.Decoded? && frame.echo.Some? && IsTruthy(frame.echo.value) ==>
        base.delivered == old(base.delivered)
        && if frame.echo.value.JString? && frame.echo.value.s in old(pending) then
             && pending == old(pending) - {frame.echo.value.s}
             && settled == old(settled) + [Settlement(frame.echo.value.s, ResponseResult(frame))]
           else pending == old(pending) && settled == old(settled)
      ensures frame.Decoded? && !(frame.echo.Some? && IsTruthy(frame.echo.value)) ==>
        && pending == old(pending) && settled == old(settled)
        && var m := if frame.postType == Some(JString("message")) then Normalize(config, frame.event) else None;
           base.delivered == old(base.delivered)
             + (if m.Some? && base.handler.Some? then [Delivery(base.handler.value, m.value)] else [])
    {
      if frame.Unparsable? {
        return;
      }
      if frame.echo.Some? && IsTruthy(frame.echo.value) {
        var key := frame.echo.value;
        if key.JString? && key.s in pending {
          SettleKeepsConsistent(pending, settled, echo.last, key.s, ResponseResult(frame));
          pending := pending - {key.s};
          settled := settled + [Settlement(key.s, ResponseResult(frame))];
        }
        return;
      }
      if frame.postType == Some(JString("message")) {
        HandleOneBotMessage(frame.event);
      }
    }

    /** A call's timeout fires: its entry is deleted, then its promise is
        rejected. A call already answered has no timer left to fire. */
    method OnCallTimeout(token: string)
      requires Valid()
      modifies this`pending, this`settled
      ensures Valid()
      ensures token in old(pending) ==>
        && pending == old(pending) - {token}
        && settled == old(settled) + [Settlement(token, Err("API call timeout: " + old(pending)[token].action))]
      ensures token !in old(pending) ==> pending == old(pending) && settled == old(settled)
    {
      if token in pending {
        var action := pending[token].action;
        SettleKeepsConsistent(pending, settled, echo.last, token, Err("API call timeout: " + action));
        pending := pending - {token};
        settled := settled + [Settlement(token, Err("API call timeout: " + action))];
      }
    }
  }

  /** A response that arrives after its call timed out finds nothing and is
      ignored: the call settles once, with the timeout error. */
  method LateResponseIgnored(a: QQAdapter, token: string, response: Frame)
    requires a.Valid() && token in a.pending
    requires response.Decoded? && response.echo == Some(JString(token)) && token != ""
    modifies a`pending, a`settled, a.base`delivered
    ensures a.Valid()
    ensures a.pending == old(a.pending) - {token}
    ensures a.settled == old(a.settled) + [Settlement(token, Err("API call timeout: " + old(a.pending)[token].action))]
  {
    a.OnCallTimeout(token);
    a.HandleFrame(response);
  }

  /** Removing a key just added to a map that lacked it restores the map. */
  lemma AddThenRemove<V>(m: map<string, V>, k: string, v: V)
    requires k !in m
    ensures m[k := v] - {k} == m
  {
    assert (m[k := v] - {k}).Keys == m.Keys;
  }

  /** A call followed by its response settles that call with the response's
      result and leaves the table as it was before the call. */
  method CallThenResponse(a: QQAdapter, action: string, params: ApiParams, now: int, response: Frame)
    returns (token: string)
    requires a.Valid() && a.hasSocket
    requires response.Decoded? && response.echo == Some(JString(EchoToken(now, a.echo.last + 1)))
    modifies a`pending, a`sent, a`settled, a.echo, a.base`delivered
    ensures a.Valid()
    ensures a.pending == old(a.pending)
    ensures a.settled == old(a.settled) + [Settlement(token, ResponseResult(response))]
  {
    token := a.CallApi(action, params, now);
    assert token != "" by {
      assert |token| > 0;
    }
    assert IsTruthy(response.echo.value);
    AddThenRemove(old(a.pending), token, PendingCall(action));
    a.HandleFrame(response);
  }

  /** Closes in a row arm one timer: the second close finds it pending. */
  method RepeatedCloseOneTimer(a: QQAdapter)
    requires a.reconnectTimer.None?
    modifies a.base`connected, a`reconnectTimer
    ensures a.reconnectTimer == Some(ReconnectDelay(a.config))
  {
    a.OnClose();
    a.OnClose();
  }

  /** `disconnect` does not prevent a reconnect: the close event of the
      socket it closed schedules one. */
  method DisconnectThenClose(a: QQAdapter)
    modifies a`reconnectTimer, a`hasSocket, a.base`connected
    ensures !a.base.connected && !a.hasSocket
    ensures a.reconnectTimer == Some(ReconnectDelay(a.config))
  {
    a.Disconnect();
    a.OnClose();
  }
}
