/** The message router of src/bridge/router.ts: built-in commands, the
    per-conversation busy gate around the message processor, and reply
    delivery through the adapter registered for the message's platform.

    `routeMessage` awaits the processor, and after a reply it awaits
    `sendReply` before the idle write. Everything before the first await is
    `RouteMessage` here, everything up to the second is `FinishDispatch`, and
    the idle write after a reply is `ReleaseAfterReply`; other messages may be
    routed between any two of them. The processor and the adapters'
    `sendMessage` are outside the model: the processor's result is the
    `ProcessorOutcome` handed to `FinishDispatch`, and each reply the router
    hands to an adapter is appended to `outbox` (a failing send is swallowed,
    so the attempt is all the router sees). */
module Router {
  import opened Wrappers
  import opened Types
  import opened Text
  import opened Session
  import opened AdapterBase

  // ---------------------------------------------------------------------------
  // Built-in commands
  // ---------------------------------------------------------------------------

  datatype Command = Help | Status | Clear

  /** The lower-cased word after the `/` of a trimmed message, if it has one. */
  function CommandWord(content: string): Option<string> {
    var t := Trim(content);
    if t == [] || t[0] != '/' then None else Some(ToLower(FirstToken(t[1..])))
  }

  /** The alias table of `handleCommand`. */
  function CommandOf(word: string): Option<Command> {
    if word == "help" || word == "帮助" then Some(Help)
    else if word == "status" || word == "状态" then Some(Status)
    else if word == "clear" || word == "清除" || word == "reset" || word == "重置" then Some(Clear)
    else None
  }

  /** The built-in command a message invokes, if any. Only trimmed text that
      starts with `/` can be a command. */
  function ParseCommand(content: string): (r: Option<Command>)
    ensures r.Some? ==> Trim(content) != [] && Trim(content)[0] == '/'
    ensures r.Some? ==> CommandWord(content).Some? && CommandOf(CommandWord(content).value) == r
  {
    match CommandWord(content)
    case None => None
    case Some(w) => CommandOf(w)
  }

  /** Trimming blanks, then a slash and a blank-free word, then nothing or a
      blank and more, keeps the slash and the word and at most a tail that
      starts with a blank. */
  lemma TrimCommandLine(lead: string, p: string, rest: string) returns (after: string)
    requires forall i :: 0 <= i < |lead| ==> IsWhitespace(lead[i])
    requires p != [] && !IsWhitespace(p[0]) && !IsWhitespace(p[|p| - 1])
    requires rest == [] || IsWhitespace(rest[0])
    ensures Trim(lead + (p + rest)) == p + after
    ensures after == [] || IsWhitespace(after[0])
  {
    assert (p + rest)[0] == p[0];
    TrimStartAfterBlank(lead, p + rest);
    TrimEndKeepsPrefix(p, rest);
    var t := TrimEnd(p + rest);
    TrimParts(lead + (p + rest));
    after := t[|p|..];
    PrefixThenRest(p, t);
    if after != [] {
      assert after[0] == t[|p|] == (p + rest)[|p|] == rest[0];
    }
  }

  lemma Regroup(a: string, b: string, c: string, d: string)
    ensures a + b + c + d == a + (b + c + d)
  {
  }

  /** A slash followed by a blank-free word ends in a non-blank character. */
  lemma SlashWordEnds(keyword: string)
    requires forall i :: 0 <= i < |keyword| ==> !IsWhitespace(keyword[i])
    ensures var p := "/" + keyword; !IsWhitespace(p[|p| - 1])
  {
    var p := "/" + keyword;
    assert p[|p| - 1] == if keyword == [] then '/' else keyword[|keyword| - 1];
  }

  /** After the slash, the first token is the blank-free word. */
  lemma WordAfterSlash(t: string, keyword: string, after: string)
    requires t == "/" + keyword + after
    requires forall i :: 0 <= i < |keyword| ==> !IsWhitespace(keyword[i])
    requires after == [] || IsWhitespace(after[0])
    ensures FirstToken(t[1..]) == keyword
  {
    assert t[1..] == keyword + after;
    FirstTokenOf(keyword, after);
  }

  /** The command word is read case-insensitively after optional leading
      blanks, and ends at the first blank: a blank-free `keyword` right after
      the slash, followed by nothing or by a blank and arbitrary arguments, is
      the word looked up. An empty `keyword` (a bare slash, or a blank right
      after it) looks up the empty word, which is no command. */
  lemma CommandRecognised(lead: string, keyword: string, rest: string)
    requires forall i :: 0 <= i < |lead| ==> IsWhitespace(lead[i])
    requires forall i :: 0 <= i < |keyword| ==> !IsWhitespace(keyword[i])
    requires rest == [] || IsWhitespace(rest[0])
    ensures CommandWord(lead + "/" + keyword + rest) == Some(ToLower(keyword))
    ensures ParseCommand(lead + "/" + keyword + rest) == CommandOf(ToLower(keyword))

  {
    var p := "/" + keyword;
    SlashWordEnds(keyword);
    var after := TrimCommandLine(lead, p, rest);
    Regroup(lead, "/", keyword, rest);
    var content := lead + "/" + keyword + rest;
    var t := Trim(content);
    assert t == "/" + keyword + after;
    assert t != [] && t[0] == '/';
    WordAfterSlash(t, keyword, after);
    assert CommandWord(content) == Some(ToLower(keyword));
  }

  // ---------------------------------------------------------------------------
  // Reply texts
  // ---------------------------------------------------------------------------

  const HelpText: string :=
    "📖 opencode-im-bridge 帮助\n\n命令:\n/help, /帮助 - 显示此帮助\n/status, /状态 - 查看服务状态\n/clear, /清除 - 清除当前会话\n\n直接发送消息即可与 OpenCode 对话。"
  const BusyText: string := "⏳ 正在处理上一个请求，请稍候..."
  const ClearedText: string := "🔄 会话已清除，可以开始新对话。"
  const StatusHeading: string := "📊 服务状态"
  const AdaptersHeading: string := "适配器:"
  const CountLabel: string := "会话数: "

  /** One adapter's line of the status reply. */
  function StatusLine(p: Platform, connected: bool): string {
    PlatformName(p) + ": " + (if connected then "✅ 已连接" else "❌ 未连接")
  }

  function StatusLines(entries: seq<(Platform, bool)>): (lines: seq<string>)
    ensures |lines| == |entries|
    ensures forall i :: 0 <= i < |entries| ==> lines[i] == StatusLine(entries[i].0, entries[i].1)
  {
    if entries == [] then [] else [StatusLine(entries[0].0, entries[0].1)] + StatusLines(entries[1..])
  }

  /** The `/status` reply for adapters in registration order and a session count. */
  function StatusText(entries: seq<(Platform, bool)>, count: nat): string {
    StatusHeading + "\n\n" + AdaptersHeading + "\n" + Join(StatusLines(entries), "\n")
      + "\n\n" + CountLabel + NatToString(count)
  }

  lemma StatusLineUnbroken(p: Platform, connected: bool)
    ensures '\n' !in StatusLine(p, connected)
  {
    var mark := if connected then "✅ 已连接" else "❌ 未连接";
    assert '\n' !in mark;
    assert '\n' !in PlatformName(p);
    assert StatusLine(p, connected) == PlatformName(p) + ": " + mark;
  }

  lemma CountUnbroken(count: nat)
    ensures '\n' !in NatToString(count)
  {
    var digits := NatToString(count);
    forall i | 0 <= i < |digits| ensures digits[i] != '\n' {
      assert IsDigit(digits[i]);
    }
  }

  lemma StatusHeadJoined()
    ensures Join([StatusHeading, "", AdaptersHeading], "\n") == StatusHeading + "\n\n" + AdaptersHeading
  {
    var head := [StatusHeading, "", AdaptersHeading];
    assert Join(head[2..], "\n") == AdaptersHeading;
    assert Join(head[1..], "\n") == "" + "\n" + AdaptersHeading;
  }

  lemma StatusTailJoined(count: nat)
    ensures Join(["", CountLabel + NatToString(count)], "\n") == "\n" + CountLabel + NatToString(count)
  {
    var tail := ["", CountLabel + NatToString(count)];
    assert Join(tail[1..], "\n") == CountLabel + NatToString(count);
  }

  /** The status reply is its lines joined by line breaks. */
  lemma StatusTextJoined(entries: seq<(Platform, bool)>, count: nat)
    ensures StatusText(entries, count) ==
      Join([StatusHeading, "", AdaptersHeading]
        + (if entries == [] then [""] else StatusLines(entries))
        + ["", CountLabel + NatToString(count)], "\n")
  {
    var lines := StatusLines(entries);
    var body := if entries == [] then [""] else lines;
    var head := [StatusHeading, "", AdaptersHeading];
    var tail := ["", CountLabel + NatToString(count)];
    assert Join(body, "\n") == Join(lines, "\n");
    JoinAppend(head, body, "\n");
    JoinAppend(head + body, tail, "\n");
    StatusHeadJoined();
    StatusTailJoined(count);
  }

  /** Read line by line, the status reply is its heading, then one line per
      registered adapter in registration order giving its connection state
      (a single empty line when there is none), then the session count. */
  lemma StatusTextLines(entries: seq<(Platform, bool)>, count: nat)
    ensures Split(StatusText(entries, count), '\n') ==
      [StatusHeading, "", AdaptersHeading]
      + (if entries == [] then [""] else StatusLines(entries))
      + ["", CountLabel + NatToString(count)]
  {
    var all := [StatusHeading, "", AdaptersHeading]
      + (if entries == [] then [""] else StatusLines(entries))
      + ["", CountLabel + NatToString(count)];
    StatusTextJoined(entries, count);
    CountUnbroken(count);
    forall i | 0 <= i < |entries| ensures '\n' !in StatusLines(entries)[i] {
      StatusLineUnbroken(entries[i].0, entries[i].1);
    }
    assert forall i :: 0 <= i < |all| ==> '\n' !in all[i];
    SplitJoin(all, '\n');
  }

  /** The reply text of a built-in command, given the adapters' states in
      registration order and the number of sessions. */
  function CommandText(cmd: Command, entries: seq<(Platform, bool)>, count: nat): string {
    match cmd
    case Help => HelpText
    case Status => StatusText(entries, count)
    case Clear => ClearedText
  }

  /** The reply to a processor that threw: its message, or "Unknown error" for
      a thrown value that is not an Error. */
  function ErrorText(error: Option<string>): string {
    "❌ 处理消息时出错: " + error.GetOr("Unknown error")
  }

  // ---------------------------------------------------------------------------
  // Reply targeting
  // ---------------------------------------------------------------------------

  /** Where `sendReply` addresses a reply: the group when the message came
      from one, otherwise the user, with the group flag set accordingly. */
  function ReplyTarget(msg: BridgeMessage): (target: (string, bool))
    ensures target.1 <==> Truthy(msg.groupId)
    ensures target.1 ==> target.0 == msg.groupId.value
    ensures !target.1 ==> target.0 == msg.userId
  {
    if Truthy(msg.groupId) then (msg.groupId.value, true) else (msg.userId, false)
  }

  /** One call of an adapter's `sendMessage(targetId, reply, isGroup)`. */
  datatype Sent = Sent(platform: Platform, targetId: string, reply: BridgeReply, isGroup: bool)

  /** What `sendReply` hands to adapters: one send to the platform's adapter,
      or nothing when no adapter is registered for it. */
  function Deliveries(registered: set<Platform>, msg: BridgeMessage, reply: BridgeReply): (sent: seq<Sent>)
    ensures msg.platform !in registered ==> sent == []
    ensures msg.platform in registered ==>
      |sent| == 1 && sent[0].platform == msg.platform && sent[0].reply == reply
      && (sent[0].targetId, sent[0].isGroup) == ReplyTarget(msg)
  {
    if msg.platform in registered then
      var target := ReplyTarget(msg);
      [Sent(msg.platform, target.0, reply, target.1)]
    else []
  }

  /** How the processor's promise settled. A thrown Error carries its message;
      any other thrown value carries none. */
  datatype ProcessorOutcome = Replied(reply: BridgeReply) | NoReply | Threw(error: Option<string>)

  /** The conversation key of a message. */
  function KeyOf(msg: BridgeMessage): string {
    SessionKey(msg.platform, msg.userId, msg.groupId)
  }

  /** The session `getOrCreate` yields for a message at `now`. */
  function SessionFor(m: map<string, UserSession>, msg: BridgeMessage, now: int, timeout: int): UserSession {
    var key := KeyOf(msg);
    if key in m && !Expired(m[key], now, timeout) then m[key] else FreshSession(msg.platform, msg.userId, now)
  }

  /** What the busy gate does with a non-command message: the new session
      table, the session handed to the processor if it is called, and whether
      the please-wait reply goes out. */
  datatype Admission = Admission(table: map<string, UserSession>, dispatched: Option<UserSession>, busyReply: bool)

  /** Check-and-set in one step: a busy conversation is turned away; an idle
      one is marked busy and dispatched when a processor is set; without a
      processor the session is only fetched or created. */
  function Admit(m: map<string, UserSession>, msg: BridgeMessage, now: int, timeout: int, hasProcessor: bool): (a: Admission)
    ensures a.busyReply <==> SessionFor(m, msg, now, timeout).status == Busy
    ensures a.dispatched.Some? <==> SessionFor(m, msg, now, timeout).status != Busy && hasProcessor
    ensures a.busyReply ==> a.table == m
    ensures !a.busyReply ==> KeyOf(msg) in a.table && a.table - {KeyOf(msg)} == m - {KeyOf(msg)}
    ensures a.dispatched.Some? ==>
      a.table[KeyOf(msg)] == a.dispatched.value && a.dispatched.value.status == Busy && a.dispatched.value.lastActive == now
    ensures a.dispatched.Some? ==>
      a.dispatched.value == SessionFor(m, msg, now, timeout).(status := Busy, lastActive := now)
    ensures !a.busyReply && !hasProcessor ==> a.table[KeyOf(msg)] == SessionFor(m, msg, now, timeout)
  {
    var key := KeyOf(msg);
    var s := SessionFor(m, msg, now, timeout);
    if s.status == Busy then Admission(m, None, true)
    else if hasProcessor then
      var busy := Merge(s, StatusPatch(Busy), now);
      Admission(m[key := busy], Some(busy), false)
    else Admission(m[key := s], None, false)
  }

  /** The idle write at the end of a dispatch: the conversation's session,
      if it is still in the table, becomes idle and is refreshed; every other
      entry is kept, and a missing key is not recreated. */
  function Released(m: map<string, UserSession>, msg: BridgeMessage, now: int): (t: map<string, UserSession>)
    ensures t.Keys == m.Keys
    ensures KeyOf(msg) in m ==> t[KeyOf(msg)] == m[KeyOf(msg)].(status := Idle, lastActive := now)
    ensures forall k :: k in m && k != KeyOf(msg) ==> t[k] == m[k]
  {
    var key := KeyOf(msg);
    if key in m then m[key := Merge(m[key], StatusPatch(Idle), now)] else m
  }

  class MessageRouter {
    /** The session table the router consults (the shared singleton in the source). */
    const sessions: SessionManager
    /** The handler this router registers with every adapter. */
    const handlerId: HandlerId
    /** At most one adapter per platform. */
    var adapters: map<Platform, BaseAdapter>
    /** The platforms of `adapters` in registration order (a JavaScript Map's order). */
    var order: seq<Platform>
    /** Whether `setProcessor` has been called. */
    var hasProcessor: bool
    /** Every reply handed to an adapter, oldest first. */
    var outbox: seq<Sent>
    /** Every processor call, with the session it was given, oldest first. */
    var invocations: seq<(BridgeMessage, UserSession)>

    ghost predicate Valid()
      reads this`adapters, this`order
    {
      && (forall p :: p in adapters <==> p in order)
      && (forall i, j :: 0 <= i < j < |order| ==> order[i] != order[j])
    }

    constructor(sessions: SessionManager, handlerId: HandlerId)
      ensures Valid()
      ensures this.sessions == sessions && this.handlerId == handlerId
      ensures adapters == map[] && order == [] && !hasProcessor && outbox == [] && invocations == []
    {
      this.sessions := sessions;
      this.handlerId := handlerId;
      adapters := map[];
      order := [];
      hasProcessor := false;
      outbox := [];
      invocations := [];
    }

    /** Keep `adapter` as its platform's adapter, replacing an earlier one in
        place, and make this router its message handler. */
    method RegisterAdapter(adapter: BaseAdapter)
      requires Valid()
      modifies this`adapters, this`order, adapter`handler
      ensures Valid()
      ensures adapters == old(adapters)[adapter.platform := adapter]
      ensures order == if adapter.platform in old(adapters) then old(order) else old(order) + [adapter.platform]
      ensures adapter.handler == Some(handlerId)
    {
      if adapter.platform !in adapters {
        order := order + [adapter.platform];
      }
      adapters := adapters[adapter.platform := adapter];
      adapter.OnMessage(handlerId);
    }

    method SetProcessor()
      modifies this`hasProcessor
      ensures hasProcessor
    {
      hasProcessor := true;
    }

    /** The platforms and connection flags of the registered adapters, in order. */
    function Snapshot(ps: seq<Platform>): (entries: seq<(Platform, bool)>)
      requires forall i :: 0 <= i < |ps| ==> ps[i] in adapters
      reads this`adapters, adapters.Values`connected
      ensures |entries| == |ps|
    {
      if ps == [] then [] else [(ps[0], adapters[ps[0]].connected)] + Snapshot(ps[1..])
    }

    /** The status reply lists each registered platform once, in registration
        order, with its adapter's current connection flag. */
    lemma {:induction false} SnapshotEntries(ps: seq<Platform>)
      requires forall i :: 0 <= i < |ps| ==> ps[i] in adapters
      ensures forall i :: 0 <= i < |ps| ==> Snapshot(ps)[i] == (ps[i], adapters[ps[i]].connected)
      decreases |ps|
    {
      if ps != [] {
        SnapshotEntries(ps[1..]);
      }
    }

    /** `sendReply`: one send through the platform's adapter, if registered. */
    method SendReply(msg: BridgeMessage, reply: BridgeReply)
      modifies this`outbox
      ensures outbox == old(outbox) + Deliveries(adapters.Keys, msg, reply)
    {
      if msg.platform in adapters {
        var target := ReplyTarget(msg);
        outbox := outbox + [Sent(msg.platform, target.0, reply, target.1)];
      }
    }

    /** `handleCommand`: the reply to a built-in command; `/clear` also resets
        the conversation's backend session. */
    method HandleCommand(msg: BridgeMessage, now: int) returns (reply: Option<BridgeReply>)
      requires Valid()
      modifies sessions
      ensures reply.None? <==> ParseCommand(msg.content).None?
      ensures reply.Some? ==>
        reply.value == PlainReply(CommandText(ParseCommand(msg.content).value, old(Snapshot(order)), |old(sessions.sessions)|))
      ensures ParseCommand(msg.content) == Some(Clear) ==>
        var key := KeyOf(msg);
        if key in old(sessions.sessions)
        then sessions.sessions == old(sessions.sessions)[key := old(sessions.sessions)[key].(opencodeSessionId := None, status := Idle, lastActive := now)]
        else sessions.sessions == old(sessions.sessions)
      ensures ParseCommand(msg.content) != Some(Clear) ==> sessions.sessions == old(sessions.sessions)
    {
      match ParseCommand(msg.content)
      case None =>
        reply := None;
      case Some(Help) =>
        reply := Some(PlainReply(HelpText));
      case Some(Status) =>
        reply := Some(PlainReply(StatusText(Snapshot(order), sessions.Count())));
      case Some(Clear) =>
        sessions.ClearOpenCodeSession(msg.platform, msg.userId, msg.groupId, now);
        reply := Some(PlainReply(ClearedText));
    }

    /** The part of `routeMessage` for a message that is no command: the
        conversation's session is fetched or created, then the busy gate of
        `Admit` runs. `dispatched` says the processor was called. */
    method AdmitMessage(msg: BridgeMessage, now: int) returns (dispatched: bool)
      modifies this`outbox, this`invocations, sessions
      ensures var a := Admit(old(sessions.sessions), msg, now, sessions.sessionTimeout, hasProcessor);
        && sessions.sessions == a.table
        && dispatched == a.dispatched.Some?
        && invocations == old(invocations) + (if a.dispatched.Some? then [(msg, a.dispatched.value)] else [])
        && outbox == old(outbox) + (if a.busyReply then Deliveries(adapters.Keys, msg, PlainReply(BusyText)) else [])
    {
      var session := sessions.GetOrCreate(msg.platform, msg.userId, msg.groupId, now);
      if session.status == Busy {
        SendReply(msg, PlainReply(BusyText));
        return false;
      }
      dispatched := false;
      if hasProcessor {
        var updated := sessions.Update(msg.platform, msg.userId, StatusPatch(Busy), msg.groupId, now);
        invocations := invocations + [(msg, updated.value)];
        dispatched := true;
      }
    }

    /** `routeMessage` up to its await on the processor: a command is answered
        and ends the routing; anything else goes through the busy gate. */
    method RouteMessage(msg: BridgeMessage, now: int) returns (dispatched: bool)
      requires Valid()
      modifies this`outbox, this`invocations, sessions
      ensures ParseCommand(msg.content).Some? ==>
        && !dispatched
        && invocations == old(invocations)
        && outbox == old(outbox) + Deliveries(adapters.Keys, msg,
             PlainReply(CommandText(ParseCommand(msg.content).value, old(Snapshot(order)), |old(sessions.sessions)|)))
        && (ParseCommand(msg.content) != Some(Clear) ==> sessions.sessions == old(sessions.sessions))
      ensures ParseCommand(msg.content).None? ==>
        var a := Admit(old(sessions.sessions), msg, now, sessions.sessionTimeout, hasProcessor);
        && sessions.sessions == a.table
        && dispatched == a.dispatched.Some?
        && invocations == old(invocations) + (if a.dispatched.Some? then [(msg, a.dispatched.value)] else [])
        && outbox == old(outbox) + (if a.busyReply then Deliveries(adapters.Keys, msg, PlainReply(BusyText)) else [])
    {
      ghost var entries := Snapshot(order);
      ghost var count := |sessions.sessions|;
      var command := HandleCommand(msg, now);
      if command.Some? {
        assert command.value == PlainReply(CommandText(ParseCommand(msg.content).value, entries, count));
        SendReply(msg, command.value);
        return false;
      }
      dispatched := AdmitMessage(msg, now);
    }

    /** `routeMessage` after the processor settles, up to its next await. A
        reply is handed to the adapter and the conversation stays busy while
        `sendReply` is awaited; `ReleaseAfterReply` is the idle write after
        it. No reply goes idle at once, and a throw goes idle and then sends
        exactly one error reply without propagating. `awaitingSend` says the
        idle write is still to come. */
    method FinishDispatch(msg: BridgeMessage, outcome: ProcessorOutcome, now: int) returns (awaitingSend: bool)
      requires Valid()
      modifies this`outbox, sessions
      ensures awaitingSend <==> outcome.Replied?
      ensures outcome.Replied? ==> sessions.sessions == old(sessions.sessions)
      ensures !outcome.Replied? ==> sessions.sessions == Released(old(sessions.sessions), msg, now)
      ensures outbox == old(outbox) + match outcome
        case Replied(r) => Deliveries(adapters.Keys, msg, r)
        case NoReply => []
        case Threw(e) => Deliveries(adapters.Keys, msg, PlainReply(ErrorText(e)))
    {
      match outcome {
        case Replied(r) =>
          SendReply(msg, r);
          awaitingSend := true;
        case NoReply =>
          var _ := sessions.Update(msg.platform, msg.userId, StatusPatch(Idle), msg.groupId, now);
          awaitingSend := false;
        case Threw(e) =>
          var _ := sessions.Update(msg.platform, msg.userId, StatusPatch(Idle), msg.groupId, now);
          SendReply(msg, PlainReply(ErrorText(e)));
          awaitingSend := false;
      }
    }

    /** `routeMessage` once the awaited `sendReply` of a reply resolves: the
        conversation goes idle and nothing is sent. */
    method ReleaseAfterReply(msg: BridgeMessage, now: int)
      modifies sessions
      ensures sessions.sessions == Released(old(sessions.sessions), msg, now)
    {
      var _ := sessions.Update(msg.platform, msg.userId, StatusPatch(Idle), msg.groupId, now);
    }
  }

  /** A whole `routeMessage` with no other message in between: whatever the
      processor does, a dispatched conversation ends idle. */
  method RouteToCompletion(r: MessageRouter, msg: BridgeMessage, outcome: ProcessorOutcome, start: int, end: int)
    returns (dispatched: bool)
    requires r.Valid()
    modifies r`outbox, r`invocations, r.sessions
    ensures r.Valid()
    ensures dispatched ==> KeyOf(msg) in r.sessions.sessions && r.sessions.sessions[KeyOf(msg)].status == Idle
    ensures dispatched ==> |r.invocations| == |old(r.invocations)| + 1
    ensures dispatched && outcome.Threw? ==>
      r.outbox == old(r.outbox) + Deliveries(r.adapters.Keys, msg, PlainReply(ErrorText(outcome.error)))
  {
    dispatched := r.RouteMessage(msg, start);
    if dispatched {
      var awaitingSend := r.FinishDispatch(msg, outcome, end);
      if awaitingSend {
        r.ReleaseAfterReply(msg, end);
      }
    }
  }

  /** The busy gate on its own: once a message for a conversation has been
      dispatched, a second one for the same conversation within the timeout
      is turned away and leaves the table as it was. */
  lemma AdmittedThenBusy(m: map<string, UserSession>, first: BridgeMessage, second: BridgeMessage,
                         t1: int, t2: int, timeout: int)
    requires KeyOf(first) == KeyOf(second)
    requires SessionFor(m, first, t1, timeout).status != Busy
    requires t1 <= t2 <= t1 + timeout
    ensures var a1 := Admit(m, first, t1, timeout, true);
      var a2 := Admit(a1.table, second, t2, timeout, true);
      a1.dispatched.Some? && a2.busyReply && a2.dispatched.None? && a2.table == a1.table
  {
    var a1 := Admit(m, first, t1, timeout, true);
    var held := a1.table[KeyOf(first)];
    assert held.status == Busy && held.lastActive == t1;
    assert SessionFor(a1.table, second, t2, timeout) == held;
  }

  /** `routeMessage` for a message that is no command: only the busy gate acts. */
  method RouteNonCommand(r: MessageRouter, msg: BridgeMessage, now: int) returns (dispatched: bool)
    requires r.Valid() && ParseCommand(msg.content).None?
    modifies r`outbox, r`invocations, r.sessions
    ensures var a := Admit(old(r.sessions.sessions), msg, now, r.sessions.sessionTimeout, r.hasProcessor);
      && r.sessions.sessions == a.table
      && dispatched == a.dispatched.Some?
      && r.invocations == old(r.invocations) + (if a.dispatched.Some? then [(msg, a.dispatched.value)] else [])
      && r.outbox == old(r.outbox) + (if a.busyReply then Deliveries(r.adapters.Keys, msg, PlainReply(BusyText)) else [])
  {
    dispatched := r.RouteMessage(msg, now);
  }

  /** Mutual exclusion: while a dispatch for a conversation is in flight, a
      second non-command message for the same conversation gets the
      please-wait reply and the processor is not called again, provided the
      session has not expired in between. */
  method SecondMessageWaits(r: MessageRouter, first: BridgeMessage, second: BridgeMessage, t1: int, t2: int)
    requires r.Valid() && r.hasProcessor
    requires ParseCommand(first.content).None? && ParseCommand(second.content).None?
    requires KeyOf(first) == KeyOf(second)
    requires SessionFor(r.sessions.sessions, first, t1, r.sessions.sessionTimeout).status != Busy
    requires t1 <= t2 <= t1 + r.sessions.sessionTimeout
    modifies r`outbox, r`invocations, r.sessions
    ensures r.Valid()
    ensures |r.invocations| == |old(r.invocations)| + 1
    ensures r.outbox == old(r.outbox) + Deliveries(r.adapters.Keys, second, PlainReply(BusyText))
  {
    AdmittedThenBusy(r.sessions.sessions, first, second, t1, t2, r.sessions.sessionTimeout);
    ghost var a1 := Admit(r.sessions.sessions, first, t1, r.sessions.sessionTimeout, true);
    var d1 := RouteNonCommand(r, first, t1);
    assert r.sessions.sessions == a1.table && r.outbox == old(r.outbox);
    assert |r.invocations| == |old(r.invocations)| + 1;
    var d2 := RouteNonCommand(r, second, t2);
  }

  /** The await on `sendReply` is a window too: once the processor's reply
      has been handed to the adapter, and before the idle write, a second
      message for the same conversation is turned away, so its please-wait
      reply follows the first reply and the processor is not called again. */
  method SecondMessageDuringReplyWaits(r: MessageRouter, first: BridgeMessage, second: BridgeMessage,
                                       reply: BridgeReply, t1: int, t2: int, t3: int)
    requires r.Valid() && r.hasProcessor
    requires ParseCommand(first.content).None? && ParseCommand(second.content).None?
    requires KeyOf(first) == KeyOf(second)
    requires SessionFor(r.sessions.sessions, first, t1, r.sessions.sessionTimeout).status != Busy
    requires t1 <= t3 <= t1 + r.sessions.sessionTimeout
    modifies r`outbox, r`invocations, r.sessions
    ensures r.Valid()
    ensures |r.invocations| == |old(r.invocations)| + 1
    ensures r.outbox == old(r.outbox) + Deliveries(r.adapters.Keys, first, reply)
                                      + Deliveries(r.adapters.Keys, second, PlainReply(BusyText))
    ensures KeyOf(first) in r.sessions.sessions && r.sessions.sessions[KeyOf(first)].status == Busy
  {
    AdmittedThenBusy(r.sessions.sessions, first, second, t1, t3, r.sessions.sessionTimeout);
    ghost var a1 := Admit(r.sessions.sessions, first, t1, r.sessions.sessionTimeout, true);
    var d1 := RouteNonCommand(r, first, t1);
    assert r.sessions.sessions == a1.table && r.outbox == old(r.outbox);
    assert |r.invocations| == |old(r.invocations)| + 1;
    var awaitingSend := r.FinishDispatch(first, Replied(reply), t2);
    ghost var afterReply := r.outbox;
    assert r.sessions.sessions == a1.table;
    var d2 := RouteNonCommand(r, second, t3);
    assert r.outbox == afterReply + Deliveries(r.adapters.Keys, second, PlainReply(BusyText));
  }
}
