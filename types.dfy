/** The shapes the bridge passes between its parts (src/types/index.ts).
    The untyped `raw` payload of a message and the optional OpenCode settings
    that nothing in the core reads are not part of this model. */
module Types {
  import opened Wrappers

  datatype Platform = QQ | Lark | WeChat

  /** The platform's name as it appears in keys, ids and status text. */
  function PlatformName(p: Platform): (name: string)
    ensures name != [] && ':' !in name && '-' !in name
  {
    match p
    case QQ => "qq"
    case Lark => "lark"
    case WeChat => "wechat"
  }

  datatype ChatType = Private | Group

  /** The normalised inbound message every adapter hands to the router. */
  datatype BridgeMessage = BridgeMessage(
    id: string,
    platform: Platform,
    chatType: ChatType,
    userId: string,
    userName: Option<string>,
    groupId: Option<string>,
    content: string,
    timestamp: int)

  /** A reply to send back; `atSender` and `replyTo` are optional. */
  datatype BridgeReply = BridgeReply(content: string, atSender: bool, replyTo: Option<string>)

  function PlainReply(content: string): BridgeReply {
    BridgeReply(content, false, None)
  }

  datatype SessionStatus = Idle | Busy | Waiting

  /** One conversation's state; the backend session id may be unset. */
  datatype UserSession = UserSession(
    userId: string,
    platform: Platform,
    opencodeSessionId: Option<string>,
    lastActive: int,
    status: SessionStatus)

  datatype QQMode = OneBotMode | OfficialMode

  /** The QQ adapter configuration; every field but `enabled` is optional. */
  datatype QQConfig = QQConfig(
    enabled: bool,
    mode: Option<QQMode>,
    wsUrl: Option<string>,
    accessToken: Option<string>,
    appId: Option<string>,
    appSecret: Option<string>,
    reconnectInterval: Option<int>,
    allowedUsers: Option<seq<int>>,
    allowedGroups: Option<seq<int>>)

  /** JavaScript truthiness of an optional string: present and non-empty. */
  predicate Truthy(s: Option<string>) {
    s.Some? && s.value != ""
  }

  /** `list?.length` read as a boolean: present and non-empty. */
  predicate NonEmptyList(l: Option<seq<int>>) {
    l.Some? && |l.value| > 0
  }
}
