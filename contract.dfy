/** The contract's entry points (contracts/core/src/contract.rs): each message
    is routed to the controller, the host or the handshake, after the two
    guards the entry point applies itself. */
module Contract {
  import opened Types
  import opened Text
  import opened Traces
  import opened State
  import Controller
  import LegacyExecute
  import Handshake
  import HostHandler
  import Host

  /** `ExecuteMsg`: `Act` is a user's request, `Handle` the self-call that
      `packet_receive` dispatches. */
  datatype ExecuteMsg =
    | Act(connectionId: string, actions: seq<Action>, timeout: Option<Timeout>)
    | Handle(connectionId: string, src: Endpoint, dest: Endpoint, controller: Addr,
             actions: seq<Action>, traces: seq<Trace>)

  /** `IbcChannelOpenMsg`. */
  datatype OpenMsg = OpenInit(channel: Handshake.Channel) | OpenTry(channel: Handshake.Channel, counterpartyVersion: string)

  /** The execute message a wasm call to this contract carries, if any. */
  function Decoded(payload: WasmPayload): (m: Option<ExecuteMsg>)
    ensures m.Some? <==> payload.HandlePayload?
    ensures m.Some? ==>
      m.value.Handle? && m.value.connectionId == payload.connectionId && m.value.src == payload.src &&
      m.value.dest == payload.dest && m.value.controller == payload.controller &&
      m.value.actions == payload.actions && m.value.traces == payload.traces
  {
    match payload
    case HandlePayload(conn, src, dest, controller, actions, traces) =>
      Some(Handle(conn, src, dest, controller, actions, traces))
    case _ => None
  }

  /** The guard on `Act`: an empty queue is refused. */
  function ActGuard(actions: seq<Action>): (r: Result<()>)
    ensures r.Ok? <==> |actions| > 0
    ensures r.Err? ==> r.error == EmptyActionQueue
  {
    if actions == [] then Err(EmptyActionQueue) else Ok(())
  }

  /** The guard on `Handle`: only the contract itself may call it. */
  function HandleGuard(sender: Addr, env: Platform): (r: Result<()>)
    ensures r.Ok? <==> sender == env.contractAddr
    ensures r.Err? ==> r.error == Unauthorized
  {
    if sender != env.contractAddr then Err(Unauthorized) else Ok(())
  }

  /** `execute` on `Act`, which goes to the older `act` of execute.rs. */
  function ActEntry(stored: map<string, TraceItem>, channels: map<string, string>, defaultSecs: nat,
                    env: Platform, sender: Addr, funds: seq<Coin>, conn: string, actions: seq<Action>,
                    timeout: Option<Timeout>): Result<Response>
  {
    var _ :- ActGuard(actions);
    LegacyExecute.LegacyActSpec(stored, channels, defaultSecs, env, sender, funds, conn, actions, timeout)
  }

  /** `execute`. */
  method Execute(store: Store, env: Platform, sender: Addr, funds: seq<Coin>, msg: ExecuteMsg)
    returns (r: Result<Response>)
    modifies store
    ensures msg.Act? ==>
      r == ActEntry(old(store.denomTraces), old(store.activeChannels), old(store.defaultTimeoutSecs),
                    env, sender, funds, msg.connectionId, msg.actions, msg.timeout) &&
      unchanged(store)
    ensures msg.Handle? && sender != env.contractAddr ==> r == Err(Unauthorized) && unchanged(store)
    ensures msg.Handle? && sender == env.contractAddr ==>
      var spec := HostHandler.NextAction(
        HostHandler.Created(old(store.accounts), msg.connectionId, msg.controller, msg.actions, msg.traces),
        old(store.accounts), old(store.accountCodeId), env);
      (r.Ok? <==> spec.Ok?) &&
      (r.Ok? ==> r.value == spec.value.response && store.accounts == spec.value.accounts && store.handler == spec.value.saved) &&
      (r.Err? ==> r.error == spec.error && store.accounts == old(store.accounts) && store.handler == old(store.handler))
    ensures store.activeChannels == old(store.activeChannels) && store.denomTraces == old(store.denomTraces)
    ensures store.defaultTimeoutSecs == old(store.defaultTimeoutSecs) && store.accountCodeId == old(store.accountCodeId)
  {
    match msg
    case Act(conn, actions, timeout) =>
      if actions == [] {
        return Err(EmptyActionQueue);
      }
      r := LegacyExecute.LegacyAct(store, env, sender, funds, conn, actions, timeout);
    case Handle(conn, _, _, controller, actions, traces) =>
      if sender != env.contractAddr {
        return Err(Unauthorized);
      }
      r := Host.Handle(store, env, conn, controller, actions, traces);
  }

  /** `reply`: the three reply ids of the contract. An unknown id panics in
      the contract; here it is an error. */
  method Reply(store: Store, env: Platform, id: nat, result: SubMsgResult) returns (r: Result<Response>)
    requires id == AFTER_ACTION ==>
      result.SubOk? && (store.handler.Some? ==> HostHandler.Resumable(store.handler.value))
    modifies store
    ensures id == AFTER_ACTION ==>
      var spec := Host.AfterActionSpec(old(store.handler), old(store.accounts), old(store.accountCodeId), env, result.data);
      (r.Ok? <==> spec.Ok?) &&
      (r.Ok? ==> r.value == spec.value.response && store.accounts == spec.value.accounts && store.handler == spec.value.saved) &&
      (r.Err? ==> r.error == spec.error && store.accounts == old(store.accounts) && store.handler == old(store.handler))
    ensures id == AFTER_ALL_ACTIONS ==> r == Host.AfterAllActions(result, env) && unchanged(store)
    ensures id == AFTER_CALLBACK ==> r == Controller.AfterCallback(result.SubOk?) && unchanged(store)
    ensures id != AFTER_ACTION && id != AFTER_ALL_ACTIONS && id != AFTER_CALLBACK ==>
      r == Err(UnknownReplyId(id)) && unchanged(store)
    ensures store.activeChannels == old(store.activeChannels) && store.denomTraces == old(store.denomTraces)
    ensures store.defaultTimeoutSecs == old(store.defaultTimeoutSecs) && store.accountCodeId == old(store.accountCodeId)
  {
    if id == AFTER_ACTION {
      r := Host.AfterAction(store, env, result);
    } else if id == AFTER_ALL_ACTIONS {
      r := Host.AfterAllActions(result, env);
    } else if id == AFTER_CALLBACK {
      r := Controller.AfterCallback(result.SubOk?);
    } else {
      r := Err(UnknownReplyId(id));
    }
  }

  /** `ibc_channel_open`, through the older handshake of ibc.rs. */
  function ChannelOpen(channels: map<string, string>, msg: OpenMsg): (r: Result<Option<string>>)
    ensures r.Ok? ==> r.value == None && msg.channel.connectionId !in channels
    ensures r.Ok? ==> msg.channel.order == Handshake.ORDER && msg.channel.version == Handshake.VERSION
    ensures msg.OpenTry? && r.Ok? ==> msg.counterpartyVersion == Handshake.VERSION
    ensures (msg.OpenInit? && msg.channel.order == Handshake.ORDER && msg.channel.version == Handshake.VERSION &&
             msg.channel.connectionId !in channels) ==> r.Ok?
    ensures (msg.OpenTry? && msg.channel.order == Handshake.ORDER && msg.channel.version == Handshake.VERSION &&
             msg.counterpartyVersion == Handshake.VERSION && msg.channel.connectionId !in channels) ==> r.Ok?
  {
    match msg
    case OpenInit(channel) => Handshake.OpenInit(channels, channel)
    case OpenTry(channel, cp) => Handshake.OpenTry(channels, channel, cp)
  }

  /** `ibc_channel_connect`: the older `open_connect`, whose first attribute
      key is "action". */
  method ChannelConnect(store: Store, channel: Handshake.Channel, counterpartyVersion: Option<string>)
    returns (r: Result<Response>)
    modifies store
    ensures var spec := Handshake.ConnectSpec(old(store.activeChannels), channel, counterpartyVersion);
      (r.Ok? <==> spec.Ok?) &&
      (r.Ok? ==> store.activeChannels == spec.value &&
                 r.value == Response(Handshake.ConnectAttrs(Handshake.LEGACY_METHOD_KEY, channel), [], None) &&
                 r.value.attrs[0] == Attribute("action", "open_connect")) &&
      (r.Err? ==> r.error == spec.error && store.activeChannels == old(store.activeChannels))
    ensures store.denomTraces == old(store.denomTraces) && store.accounts == old(store.accounts)
    ensures store.handler == old(store.handler)
    ensures store.defaultTimeoutSecs == old(store.defaultTimeoutSecs) && store.accountCodeId == old(store.accountCodeId)
  {
    r := Handshake.OpenConnect(store, channel, counterpartyVersion, Handshake.LEGACY_METHOD_KEY);
  }

  /** `ibc_packet_ack`: settles the packet with the acknowledgement written by
      the destination. */
  method PacketAck(store: Store, packet: Packet, ack: Types.PacketAck, relayer: Addr) returns (res: Response)
    ensures res == Controller.CompleteSpec(store.denomTraces, packet, Some(ack), relayer)
    ensures res.msgs[|res.msgs| - 1] == Controller.Callback(packet, Some(ack))
  {
    Controller.CompleteOutcome(store.denomTraces, packet, Some(ack), relayer);
    res := Controller.PacketLifecycleComplete(store, packet, Some(ack), relayer);
  }

  /** `ibc_packet_timeout`: settles the packet with no acknowledgement. */
  method PacketTimeout(store: Store, packet: Packet, relayer: Addr) returns (res: Response)
    ensures res == Controller.CompleteSpec(store.denomTraces, packet, None, relayer)
    ensures res.msgs[|res.msgs| - 1] == Controller.Callback(packet, None)
  {
    Controller.CompleteOutcome(store.denomTraces, packet, None, relayer);
    res := Controller.PacketLifecycleComplete(store, packet, None, relayer);
  }

  /** The `DenomHash` query: the digest of the base denom followed by every
      hop's port and channel. */
  function DenomHash(trace: DenomTrace, ripemd160: Bytes -> Digest): (h: Digest)
    ensures h == ripemd160(Utf8(trace.baseDenom) + HopBytes(trace.path))
  {
    HashInputIsConcatenation(trace);
    Hash(trace, ripemd160)
  }

  // ------------------------------------------------------------------
  // Properties across entry points
  // ------------------------------------------------------------------

  /** An accepted `Act` sends a packet carrying the non-empty queue the user
      asked for, as its last message. */
  lemma ActSendsItsQueue(stored: map<string, TraceItem>, channels: map<string, string>, defaultSecs: nat,
                         env: Platform, sender: Addr, funds: seq<Coin>, conn: string, actions: seq<Action>,
                         timeout: Option<Timeout>)
    requires ActEntry(stored, channels, defaultSecs, env, sender, funds, conn, actions, timeout).Ok?
    ensures var res := ActEntry(stored, channels, defaultSecs, env, sender, funds, conn, actions, timeout).value;
      |actions| > 0 && |res.msgs| > 0 && conn in channels &&
      res.msgs[|res.msgs| - 1].msg.SendPacket? &&
      res.msgs[|res.msgs| - 1].msg.channelId == channels[conn] &&
      res.msgs[|res.msgs| - 1].msg.packet.actions == actions &&
      res.msgs[|res.msgs| - 1].msg.packet.sender == sender
  {
    LegacyExecute.LegacySends(stored, channels, defaultSecs, env, sender, funds, conn, actions, timeout);
  }

  /** The sub-message `packet_receive` dispatches is a `Handle` call from the
      contract to itself, so it passes the guard, and it carries the packet's
      queue with any destination fee transfer appended and the packet sender
      as controller. */
  lemma ReceivedPacketIsAuthorized(env: Platform, packet: Packet, relayer: Addr)
    requires Host.PacketReceive(env, packet, relayer).Ok?
    ensures var sub := Host.PacketReceive(env, packet, relayer).value.msgs[0];
      sub.id == AFTER_ALL_ACTIONS && sub.replyOn == Always &&
      sub.msg.WasmExecute? && sub.msg.contract == env.contractAddr &&
      var m := Decoded(sub.msg.payload);
      m.Some? && m.value.Handle? && HandleGuard(sub.msg.contract, env).Ok? &&
      m.value.controller == packet.data.sender &&
      m.value.actions == Host.ReceivedActions(packet.data, relayer) &&
      m.value.connectionId == env.connectionOfChannel(packet.dest.channelId).value
  {
  }
}
