/** The state every platform adapter shares (src/adapters/base.ts): the
    connection flag behind the `connected` getter, the one registered message
    handler and the stored configuration. Handlers are closures in the
    source; here a handler is named by an id, and every hand-over of a message
    to a handler is appended to `delivered`, so that what an adapter emits can
    be stated. What a handler then does happens in its owner (the router). */
module AdapterBase {
  import opened Wrappers
  import opened Types

  /** The identity of a registered message handler. */
  type HandlerId = nat

  /** One message handed to one handler. */
  datatype Delivery = Delivery(handler: HandlerId, message: BridgeMessage)

  class BaseAdapter {
    const name: string
    const platform: Platform
    /** `_connected` */
    var connected: bool
    /** `_messageHandler` */
    var handler: Option<HandlerId>
    /** `_config` */
    var config: Option<QQConfig>
    /** The messages handed to handlers so far, oldest first. */
    var delivered: seq<Delivery>

    constructor(name: string, platform: Platform)
      ensures this.name == name && this.platform == platform
      ensures !connected && handler == None && config == None && delivered == []
    {
      this.name := name;
      this.platform := platform;
      connected := false;
      handler := None;
      config := None;
      delivered := [];
    }

    /** `init` only stores the configuration. */
    method Init(cfg: QQConfig)
      modifies this`config
      ensures config == Some(cfg)
    {
      config := Some(cfg);
    }

    /** Registering a handler replaces the previous one: the last one wins. */
    method OnMessage(h: HandlerId)
      modifies this`handler
      ensures handler == Some(h)
    {
      handler := Some(h);
    }

    /** Hand `msg` to the registered handler, if there is one. A handler that
        throws is caught here: the emission ends the same way either way. */
    method EmitMessage(msg: BridgeMessage)
      modifies this`delivered
      ensures handler.None? ==> delivered == old(delivered)
      ensures handler.Some? ==> delivered == old(delivered) + [Delivery(handler.value, msg)]
    {
      if handler.Some? {
        delivered := delivered + [Delivery(handler.value, msg)];
      }
    }
  }
}
