/** The receiving side (contracts/core/src/host/mod.rs): a packet is turned into
    a self-call that runs its actions as one atomic queue, and the outcome of
    that call becomes the packet's acknowledgement. */
module Host {
  import opened Types
  import opened State
  import opened HostHandler
  import Controller

  /** The actions the queue runs: the packet's, then, when a destination
      relayer fee is set, one transfer of it to the relayer. */
  function ReceivedActions(data: PacketData, relayer: Addr): (r: seq<Action>)
    ensures |r| == |data.actions| + (if data.relayerFee.dest.Some? then 1 else 0)
    ensures r[..|data.actions|] == data.actions
    ensures data.relayerFee.dest.Some? ==>
      r[|r| - 1] == Transfer(data.relayerFee.dest.value.denom, data.relayerFee.dest.value.amount, Some(relayer))
  {
    match data.relayerFee.dest
    case None => data.actions
    case Some(fee) => data.actions + [Transfer(fee.denom, fee.amount, Some(relayer))]
  }

  /** `packet_receive`: finds the connection of the channel, and dispatches the
      `Handle` self-call with reply always, so that its failure still reaches
      `after_all_actions`. No acknowledgement is written here. */
  function PacketReceive(env: Platform, packet: Packet, relayer: Addr): (r: Result<Response>)
    ensures r.Ok? <==> env.connectionOfChannel(packet.dest.channelId).Some?
    ensures r.Err? ==> r.error == ChannelNotFound(env.portId, packet.dest.channelId)
    ensures r.Ok? ==>
      r.value.data == None &&
      r.value.msgs == [SubMsg(WasmExecute(env.contractAddr,
                                          HandlePayload(env.connectionOfChannel(packet.dest.channelId).value,
                                                        packet.src, packet.dest, packet.data.sender,
                                                        ReceivedActions(packet.data, relayer), packet.data.traces)),
                              AFTER_ALL_ACTIONS, Always)]
  {
    match env.connectionOfChannel(packet.dest.channelId)
    case None => Err(ChannelNotFound(env.portId, packet.dest.channelId))
    case Some(connectionId) =>
      var payload := HandlePayload(connectionId, packet.src, packet.dest, packet.data.sender,
                                   ReceivedActions(packet.data, relayer), packet.data.traces);
      Ok(Response([Attribute("method", "packet_receive"), Attribute("connection_id", connectionId),
                   Attribute("channel_id", packet.dest.channelId),
                   Attribute("sequence", Text.Decimal(packet.sequence))],
                  [SubMsg(WasmExecute(env.contractAddr, payload), AFTER_ALL_ACTIONS, Always)], None))
  }

  /** `handle`: creates the handler and runs its first step. */
  method Handle(store: Store, env: Platform, connectionId: string, controller: Addr,
                actions: seq<Action>, traces: seq<Trace>) returns (r: Result<Response>)
    modifies store
    ensures var spec := NextAction(Created(old(store.accounts), connectionId, controller, actions, traces),
                                   old(store.accounts), old(store.accountCodeId), env);
      (r.Ok? <==> spec.Ok?) &&
      (r.Ok? ==> r.value == spec.value.response && store.accounts == spec.value.accounts && store.handler == spec.value.saved) &&
      (r.Err? ==> r.error == spec.error && store.accounts == old(store.accounts) && store.handler == old(store.handler))
    ensures store.activeChannels == old(store.activeChannels) && store.denomTraces == old(store.denomTraces)
    ensures store.defaultTimeoutSecs == old(store.defaultTimeoutSecs) && store.accountCodeId == old(store.accountCodeId)
  {
    var handler := new Handler.Create(store, connectionId, controller, actions, traces);
    r := handler.HandleNextAction(store, env);
  }

  /** `after_action`, as a function of the saved handler. */
  function AfterActionSpec(saved: Option<HandlerState>, accounts: map<(string, Addr), Addr>, codeId: nat,
                           env: Platform, data: Option<Bytes>): Result<Outcome>
    requires saved.Some? ==> Resumable(saved.value)
  {
    match saved
    case None => Err(NotFound("handler"))
    case Some(h) =>
      var result :- ResultOf(h.action.value, data, env);
      NextAction(h.(results := h.results + [result]), accounts, codeId, env)
  }

  /** `after_action`: loads the handler, records the reply of the action it
      dispatched, and runs the next step. The reply is a success, as the
      sub-message replies on success only. */
  method AfterAction(store: Store, env: Platform, result: SubMsgResult) returns (r: Result<Response>)
    requires result.SubOk?
    requires store.handler.Some? ==> Resumable(store.handler.value)
    modifies store
    ensures var spec := AfterActionSpec(old(store.handler), old(store.accounts), old(store.accountCodeId), env, result.data);
      (r.Ok? <==> spec.Ok?) &&
      (r.Ok? ==> r.value == spec.value.response && store.accounts == spec.value.accounts && store.handler == spec.value.saved) &&
      (r.Err? ==> r.error == spec.error && store.accounts == old(store.accounts) && store.handler == old(store.handler))
    ensures store.activeChannels == old(store.activeChannels) && store.denomTraces == old(store.denomTraces)
    ensures store.defaultTimeoutSecs == old(store.defaultTimeoutSecs) && store.accountCodeId == old(store.accountCodeId)
  {
    if store.handler.None? {
      return Err(NotFound("handler"));
    }
    var handler := new Handler.Load(store.handler.value);
    var recorded := handler.HandleResult(result.data, env);
    if recorded.Err? {
      return Err(recorded.error);
    }
    r := handler.HandleNextAction(store, env);
  }

  /** The attributes of `after_all_actions`. */
  function AfterAllAttrs(success: bool): seq<Attribute> {
    [Attribute("method", "after_actions"), Attribute("success", Controller.BoolString(success))]
  }

  /** `after_all_actions`: a successful queue acknowledges with the results it
      returned, a failed one with its error; the acknowledgement is the
      response data. A success without decodable results data fails. */
  function AfterAllActions(result: SubMsgResult, env: Platform): (r: Result<Response>)
    ensures result.SubErr? ==>
      r == Ok(Response(AfterAllAttrs(false), [], Some(AckData(Error(result.message)))))
    ensures result.SubOk? && r.Ok? ==>
      result.data.Some? && env.parseExecuteResponse(result.data.value).Some? &&
      env.parseExecuteResponse(result.data.value).value.Some? &&
      var inner := env.parseExecuteResponse(result.data.value).value.value;
      env.decodeResults(inner).Some? &&
      r.value == Response(AfterAllAttrs(true), [], Some(AckData(Results(env.decodeResults(inner).value))))
    ensures r.Err? ==> result.SubOk? && (r.error == MissingResponseData || r.error == ParseReplyFailed)
  {
    match result
    case SubErr(message) => Ok(Response(AfterAllAttrs(false), [], Some(AckData(Error(message)))))
    case SubOk(data) =>
      if data.None? then Err(MissingResponseData)
      else
        match env.parseExecuteResponse(data.value)
        case None => Err(ParseReplyFailed)
        case Some(None) => Err(MissingResponseData)
        case Some(Some(inner)) =>
          match env.decodeResults(inner)
          case None => Err(ParseReplyFailed)
          case Some(results) => Ok(Response(AfterAllAttrs(true), [], Some(AckData(Results(results)))))
  }

  // ------------------------------------------------------------------
  // Properties across the receiving steps
  // ------------------------------------------------------------------

  /** Every step, whether the first from `handle` or a later one from
      `after_action`, leaves a saved handler that can be resumed, so the
      requirement of `after_action` holds between any two of them. */
  lemma SavedHandlerResumable(saved: Option<HandlerState>, accounts: map<(string, Addr), Addr>, codeId: nat,
                              env: Platform, data: Option<Bytes>, connectionId: string, controller: Addr,
                              actions: seq<Action>, traces: seq<Trace>)
    requires saved.Some? ==> Resumable(saved.value)
    ensures var first := NextAction(Created(accounts, connectionId, controller, actions, traces), accounts, codeId, env);
      first.Ok? && first.value.saved.Some? ==> Resumable(first.value.saved.value)
    ensures var later := AfterActionSpec(saved, accounts, codeId, env, data);
      later.Ok? && later.value.saved.Some? ==> Resumable(later.value.saved.value)
  {
    var first := NextAction(Created(accounts, connectionId, controller, actions, traces), accounts, codeId, env);
    if first.Ok? {
      NextActionSaves(Created(accounts, connectionId, controller, actions, traces), accounts, codeId, env);
    }
    var later := AfterActionSpec(saved, accounts, codeId, env, data);
    if later.Ok? {
      var h := saved.value;
      var result := ResultOf(h.action.value, data, env).value;
      NextActionSaves(h.(results := h.results + [result]), accounts, codeId, env);
    }
  }

  /** A resumed step keeps the results recorded so far, the reply's result
      right after them, in order. */
  lemma AfterActionKeepsResults(saved: Option<HandlerState>, accounts: map<(string, Addr), Addr>, codeId: nat,
                                env: Platform, data: Option<Bytes>)
    requires saved.Some? ==> Resumable(saved.value)
    requires AfterActionSpec(saved, accounts, codeId, env, data).Ok?
    ensures var o := AfterActionSpec(saved, accounts, codeId, env, data).value;
      saved.Some? && |o.handler.results| > |saved.value.results| &&
      o.handler.results[..|saved.value.results| + 1] ==
        saved.value.results + [ResultOf(saved.value.action.value, data, env).value]
  {
    var h := saved.value;
    var result := ResultOf(h.action.value, data, env).value;
    var next := h.(results := h.results + [result]);
    NextActionQueue(next, accounts, codeId, env);
  }

  /** The relayer-fee transfer runs last, after every action of the packet;
      without a destination fee the queue is the packet's actions as sent. */
  lemma FeeTransferRunsLast(data: PacketData, relayer: Addr)
    ensures var queue := ReceivedActions(data, relayer);
      var stack := Reverse(queue);
      data.relayerFee.dest.Some? ==>
        stack[0] == Transfer(data.relayerFee.dest.value.denom, data.relayerFee.dest.value.amount, Some(relayer)) &&
        stack[1..] == Reverse(data.actions)
    ensures data.relayerFee.dest.None? ==> ReceivedActions(data, relayer) == data.actions
  {
    var queue := ReceivedActions(data, relayer);
    if data.relayerFee.dest.Some? {
      var stack := Reverse(queue);
      assert queue[..|data.actions|] == data.actions;
      forall i | 0 <= i < |stack| - 1 ensures stack[1..][i] == Reverse(data.actions)[i] {
        assert stack[1..][i] == queue[|queue| - 2 - i];
      }
    }
  }
}
