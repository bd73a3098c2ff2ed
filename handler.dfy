/** The action queue a received packet runs through (contracts/core/src/handler.rs
    and its newer form contracts/core/src/host/handler.rs, which adds the
    packet's traces and the Transfer lookup). The handler is persisted between
    steps: each step pops the next action off a stack seeded in reverse, runs
    queries on the spot, and hands any other action to the chain as a
    sub-message whose reply resumes the queue. */
module HostHandler {
  import opened Types
  import opened Text
  import opened State
  import Controller

  // ------------------------------------------------------------------
  // Helpers
  // ------------------------------------------------------------------

  /** `Vec::reverse`. */
  function Reverse<T>(s: seq<T>): (r: seq<T>)
    ensures |r| == |s|
    ensures forall i | 0 <= i < |s| :: r[i] == s[|s| - 1 - i]
  {
    if s == [] then [] else Reverse(s[1..]) + [s[0]]
  }

  /** Popping the reversed actions yields the first action, and leaves the
      rest reversed: the stack hands the actions out in submission order. */
  lemma PopsInOrder<T>(actions: seq<T>)
    requires actions != []
    ensures Reverse(actions)[|actions| - 1] == actions[0]
    ensures Reverse(actions)[..|actions| - 1] == Reverse(actions[1..])
  {
    assert Reverse(actions) == Reverse(actions[1..]) + [actions[0]];
  }

  /** `default_salt` (handler.rs): the connection id's bytes followed by the
      controller's. The newer revision hashes the same bytes with SHA-256. */
  function DefaultSalt(connectionId: string, controller: Addr): (salt: Bytes)
    ensures salt == Utf8(connectionId + controller)
  {
    Utf8Append(connectionId, controller);
    Utf8(connectionId) + Utf8(controller)
  }

  /** The salt is not unique per pair, as the comment above it claims: a
      connection id and controller split differently give the same bytes. */
  lemma DefaultSaltCollides()
    ensures DefaultSalt("connection-1", "1abc") == DefaultSalt("connection-11", "abc")
    ensures ("connection-1", "1abc") != ("connection-11", "abc")
  {
    assert "connection-1" + "1abc" == "connection-11" + "abc";
    assert |"connection-1"| != |"connection-11"|;
  }

  /** A salt with a separator byte between the two ids, unique per pair. */
  function MarkedSalt(connectionId: string, controller: Addr): Bytes {
    Utf8(connectionId) + ([MARK] + Utf8(controller))
  }

  /** Distinct (connection, controller) pairs get distinct separated salts. */
  lemma MarkedSaltUnique(c1: string, a1: Addr, c2: string, a2: Addr)
    requires MarkedSalt(c1, a1) == MarkedSalt(c2, a2)
    ensures c1 == c2 && a1 == a2
  {
    Utf8NoHighByte(c1);
    Utf8NoHighByte(c2);
    SplitAtMark(Utf8(c1), [MARK] + Utf8(a1), Utf8(c2), [MARK] + Utf8(a2));
    Utf8Injective(c1, c2);
    assert Utf8(a1) == ([MARK] + Utf8(a1))[1..] == ([MARK] + Utf8(a2))[1..] == Utf8(a2);
    Utf8Injective(a1, a2);
  }

  /** The pair that collides under the default salt is told apart. */
  lemma MarkedSaltSeparates()
    ensures MarkedSalt("connection-1", "1abc") != MarkedSalt("connection-11", "abc")
  {
    if MarkedSalt("connection-1", "1abc") == MarkedSalt("connection-11", "abc") {
      MarkedSaltUnique("connection-1", "1abc", "connection-11", "abc");
    }
  }

  /** `into_attributes`. */
  function HandlerAttrs(h: HandlerState): seq<Attribute> {
    [Attribute("connection_id", h.connectionId), Attribute("controller", h.controller),
     Attribute("host", if h.host.Some? then h.host.value else "null"),
     Attribute("actions_left", Decimal(|h.pendingActions|))]
  }

  /** A persisted handler is waiting for the reply to a non-query action. */
  predicate Resumable(h: HandlerState) {
    h.action.Some? && !h.action.value.IsQuery()
  }

  // ------------------------------------------------------------------
  // The handler as a specification
  // ------------------------------------------------------------------

  /** `Handler::create`: the interchain account is looked up, the actions are
      reversed onto the stack, no action is active and nothing has run. */
  function Created(accounts: map<(string, Addr), Addr>, connectionId: string, controller: Addr,
                   actions: seq<Action>, traces: seq<Trace>): HandlerState
  {
    var key := (connectionId, controller);
    HandlerState(connectionId, controller, if key in accounts then Some(accounts[key]) else None,
                 traces, None, Reverse(actions), [])
  }

  /** What a step leaves behind: the handler, the account registry, the
      `HANDLER` item (None once removed), and the response. */
  datatype Outcome = Outcome(handler: HandlerState, accounts: map<(string, Addr), Addr>,
                             saved: Option<HandlerState>, response: Response)

  /** A non-query step: the handler is saved and one sub-message is sent that
      replies on success only, so any failing action aborts the whole queue. */
  function Dispatch(h: HandlerState, accounts: map<(string, Addr), Addr>, msg: CosmosMsg): Outcome {
    Outcome(h, accounts, Some(h), Response(HandlerAttrs(h), [SubMsg(msg, AFTER_ACTION, OnSuccess)], None))
  }

  /** `handle_next_action`. */
  function NextAction(h: HandlerState, accounts: map<(string, Addr), Addr>, codeId: nat, env: Platform): Result<Outcome>
    decreases |h.pendingActions|
  {
    if h.pendingActions == [] then
      var done := h.(action := None);
      Ok(Outcome(done, accounts, None, Response(HandlerAttrs(done), [], Some(ResultsData(done.results)))))
    else
      var n := |h.pendingActions| - 1;
      var a := h.pendingActions[n];
      var cur := h.(action := Some(a), pendingActions := h.pendingActions[..n]);
      match a
      case Query(request) =>
        (match env.query(request)
         case None => Err(QueryFailed)
         case Some(response) => NextAction(cur.(results := cur.results + [QueryResult(response)]), accounts, codeId, env))
      case QueryRaw(contract, key) =>
        (match env.queryWasmRaw(contract, key)
         case None => Err(Std("query_wasm_raw"))
         case Some(value) => NextAction(cur.(results := cur.results + [QueryRawResult(value)]), accounts, codeId, env))
      case QuerySmart(contract, query) =>
        (match env.querySmart(contract, query)
         case None => Err(SmartQueryFailed)
         case Some(response) => NextAction(cur.(results := cur.results + [QuerySmartResult(response)]), accounts, codeId, env))
      case _ => Perform(cur, accounts, codeId, env)
  }

  /** A step on an action that is not a query, just popped into `cur.action`:
      it either fails or dispatches one sub-message, saving the handler. */
  function Perform(cur: HandlerState, accounts: map<(string, Addr), Addr>, codeId: nat, env: Platform): Result<Outcome>
    requires cur.action.Some? && !cur.action.value.IsQuery()
  {
    var a := cur.action.value;
    if a.Transfer? then
      if !Controller.ContainsDenom(cur.traces, a.denom) then Err(TraceNotFound(a.denom))
      else if a.recipient.None? && cur.host.None? then Err(AccountNotFound(cur.connectionId, cur.controller))
      else if a.recipient.Some? && !env.addrValidate(a.recipient.value) then Err(InvalidAddress(a.recipient.value))
      else Err(Unimplemented("transfer"))
    else if a.RegisterAccount? then
      if cur.host.Some? then Err(AccountExists(cur.connectionId, cur.controller))
      else
        var s := if a.salt.Some? then a.salt.value else DefaultSalt(cur.connectionId, cur.controller);
        (match env.instantiate2Address(env.accountChecksum, env.contractAddr, s)
         case None => Err(Instantiate2AddressFailed)
         case Some(addr) =>
           Ok(Dispatch(cur.(host := Some(addr)), accounts[(cur.connectionId, cur.controller) := addr],
                       WasmInstantiate2(env.contractAddr, codeId, s))))
    else
      // what is left is `Execute`
      if cur.host.None? then Err(AccountNotFound(cur.connectionId, cur.controller))
      else Ok(Dispatch(cur, accounts, WasmExecute(cur.host.value, RawPayload(a.msg))))
  }

  /** `handle_result`: the reply of the active action becomes its result. */
  function ResultOf(a: Action, data: Option<Bytes>, env: Platform): (r: Result<ActionResult>)
    requires !a.IsQuery()
    ensures r.Ok? ==> data.Some? && ((a.RegisterAccount? && r.value.RegisterAccountResult?) ||
                                     (a.Execute? && r.value.ExecuteResult?))
    ensures a.RegisterAccount? && data.Some? ==>
      (r.Ok? <==> env.parseInstantiateResponse(data.value).Some?) &&
      (r.Ok? ==> r.value.address == env.parseInstantiateResponse(data.value).value)
    ensures a.Execute? && data.Some? ==>
      (r.Ok? <==> env.parseExecuteResponse(data.value).Some?) &&
      (r.Ok? ==> r.value.data == env.parseExecuteResponse(data.value).value)
  {
    match a
    case Transfer(_, _, _) => Err(Unimplemented("transfer"))
    case RegisterAccount(_) =>
      if data.None? then Err(MissingResponseData)
      else
        (match env.parseInstantiateResponse(data.value)
         case None => Err(ParseReplyFailed)
         case Some(addr) => Ok(RegisterAccountResult(addr)))
    case Execute(_) =>
      if data.None? then Err(MissingResponseData)
      else
        match env.parseExecuteResponse(data.value)
        case None => Err(ParseReplyFailed)
        case Some(d) => Ok(ExecuteResult(d))
  }

  // ------------------------------------------------------------------
  // The handler object
  // ------------------------------------------------------------------

  class Handler {
    /** The connection the packet came in on. */
    var connectionId: string
    /** The packet's sender on the other chain. */
    var controller: Addr
    /** The controller's interchain account, once it exists. */
    var host: Option<Addr>
    /** The traces of the tokens the packet moves. */
    var traces: seq<Trace>
    /** The action of the current step; None once all have run. */
    var action: Option<Action>
    /** The actions still to run, the next one last. */
    var pendingActions: seq<Action>
    /** The results of the actions run so far. */
    var results: seq<ActionResult>

    function State(): HandlerState
      reads this
    {
      HandlerState(connectionId, controller, host, traces, action, pendingActions, results)
    }

    /** `Handler::create`. */
    constructor Create(store: Store, connectionId: string, controller: Addr, actions: seq<Action>, traces: seq<Trace>)
      ensures State() == Created(store.accounts, connectionId, controller, actions, traces)
    {
      var key := (connectionId, controller);
      this.connectionId := connectionId;
      this.controller := controller;
      host := if key in store.accounts then Some(store.accounts[key]) else None;
      this.traces := traces;
      action := None;
      pendingActions := Reverse(actions);
      results := [];
    }

    /** `Handler::load`. */
    constructor Load(saved: HandlerState)
      ensures State() == saved
    {
      connectionId := saved.connectionId;
      controller := saved.controller;
      host := saved.host;
      traces := saved.traces;
      action := saved.action;
      pendingActions := saved.pendingActions;
      results := saved.results;
    }

    /** `handle_next_action`: a query is answered and the next action taken at
        once; any other action is dispatched and the handler saved; with
        nothing left, the handler is removed and the results returned. On an
        error nothing in storage has been written. */
    method HandleNextAction(store: Store, env: Platform) returns (r: Result<Response>)
      modifies this, store
      ensures var spec := NextAction(old(State()), old(store.accounts), old(store.accountCodeId), env);
        (r.Ok? <==> spec.Ok?) &&
        (r.Ok? ==> r.value == spec.value.response && State() == spec.value.handler &&
                   store.accounts == spec.value.accounts && store.handler == spec.value.saved) &&
        (r.Err? ==> r.error == spec.error && store.accounts == old(store.accounts) && store.handler == old(store.handler))
      ensures store.activeChannels == old(store.activeChannels) && store.denomTraces == old(store.denomTraces)
      ensures store.defaultTimeoutSecs == old(store.defaultTimeoutSecs) && store.accountCodeId == old(store.accountCodeId)
      decreases |pendingActions|
    {
      if pendingActions == [] {
        action := None;
        store.handler := None;  // `Handler::remove`
        return Ok(Response(HandlerAttrs(State()), [], Some(ResultsData(results))));
      }
      var a := pendingActions[|pendingActions| - 1];
      pendingActions := pendingActions[..|pendingActions| - 1];
      action := Some(a);

      if a.IsQuery() {
        // a query is answered on the spot and the queue goes on
        var answer := RunQuery(a, env);
        QueryStep(old(State()), old(store.accounts), old(store.accountCodeId), env);
        if answer.Err? {
          return Err(answer.error);
        }
        results := results + [answer.value];
        r := HandleNextAction(store, env);
      } else {
        r := PerformAction(store, env);
      }
    }

    /** Performs the action just popped, which is not a query. */
    method PerformAction(store: Store, env: Platform) returns (r: Result<Response>)
      requires action.Some? && !action.value.IsQuery()
      modifies this, store
      ensures var spec := Perform(old(State()), old(store.accounts), old(store.accountCodeId), env);
        (r.Ok? <==> spec.Ok?) &&
        (r.Ok? ==> r.value == spec.value.response && State() == spec.value.handler &&
                   store.accounts == spec.value.accounts && store.handler == spec.value.saved) &&
        (r.Err? ==> r.error == spec.error && store.accounts == old(store.accounts) && store.handler == old(store.handler))
      ensures store.activeChannels == old(store.activeChannels) && store.denomTraces == old(store.denomTraces)
      ensures store.defaultTimeoutSecs == old(store.defaultTimeoutSecs) && store.accountCodeId == old(store.accountCodeId)
    {
      var a := action.value;
      var msg: CosmosMsg;
      if a.Transfer? {
        if !Controller.ContainsDenom(traces, a.denom) {
          return Err(TraceNotFound(a.denom));
        }
        if a.recipient.None? && host.None? {
          return Err(AccountNotFound(connectionId, controller));
        }
        if a.recipient.Some? && !env.addrValidate(a.recipient.value) {
          return Err(InvalidAddress(a.recipient.value));
        }
        return Err(Unimplemented("transfer"));
      } else if a.RegisterAccount? {
        // only one interchain account per controller
        if host.Some? {
          return Err(AccountExists(connectionId, controller));
        }
        var s := if a.salt.Some? then a.salt.value else DefaultSalt(connectionId, controller);
        var codeId := store.accountCodeId;
        var addr := env.instantiate2Address(env.accountChecksum, env.contractAddr, s);
        if addr.None? {
          return Err(Instantiate2AddressFailed);
        }
        store.accounts := store.accounts[(connectionId, controller) := addr.value];
        host := Some(addr.value);
        msg := WasmInstantiate2(env.contractAddr, codeId, s);
      } else {
        // what is left is `Execute`
        if host.None? {
          return Err(AccountNotFound(connectionId, controller));
        }
        msg := WasmExecute(host.value, RawPayload(a.msg));
      }
      store.handler := Some(State());  // `self.save`
      r := Ok(Response(HandlerAttrs(State()), [SubMsg(msg, AFTER_ACTION, OnSuccess)], None));
    }

    /** `handle_result`: records the result of the active action. */
    method HandleResult(data: Option<Bytes>, env: Platform) returns (r: Result<()>)
      requires action.Some? && !action.value.IsQuery()
      modifies this
      ensures var spec := ResultOf(old(action).value, data, env);
        (r.Ok? <==> spec.Ok?) &&
        (r.Ok? ==> State() == old(State()).(results := old(results) + [spec.value])) &&
        (r.Err? ==> r.error == spec.error)
    {
      var result := ResultOf(action.value, data, env);
      if result.Err? {
        return Err(result.error);
      }
      results := results + [result.value];
      r := Ok(());
    }
  }

  // ------------------------------------------------------------------
  // Properties of a step
  // ------------------------------------------------------------------

  /** Whether the querier answers a query action. */
  predicate Answered(a: Action, env: Platform)
    requires a.IsQuery()
  {
    match a
    case Query(request) => env.query(request).Some?
    case QueryRaw(contract, key) => env.queryWasmRaw(contract, key).Some?
    case QuerySmart(contract, query) => env.querySmart(contract, query).Some?
  }

  /** The result a query action records. */
  function Answer(a: Action, env: Platform): ActionResult
    requires a.IsQuery() && Answered(a, env)
  {
    match a
    case Query(request) => QueryResult(env.query(request).value)
    case QueryRaw(contract, key) => QueryRawResult(env.queryWasmRaw(contract, key).value)
    case QuerySmart(contract, query) => QuerySmartResult(env.querySmart(contract, query).value)
  }

  /** The handler right after a query popped off the stack has been answered. */
  function AfterQuery(h: HandlerState, env: Platform): HandlerState
    requires h.pendingActions != []
    requires h.pendingActions[|h.pendingActions| - 1].IsQuery() && Answered(h.pendingActions[|h.pendingActions| - 1], env)
  {
    var n := |h.pendingActions| - 1;
    var a := h.pendingActions[n];
    h.(action := Some(a), pendingActions := h.pendingActions[..n], results := h.results + [Answer(a, env)])
  }

  /** The error an unanswered query fails the step with. */
  function QueryError(a: Action): ContractError
    requires a.IsQuery()
  {
    match a
    case Query(_) => QueryFailed
    case QueryRaw(_, _) => Std("query_wasm_raw")
    case QuerySmart(_, _) => SmartQueryFailed
  }

  /** Runs a query action against the chain. */
  method RunQuery(a: Action, env: Platform) returns (r: Result<ActionResult>)
    requires a.IsQuery()
    ensures r.Ok? <==> Answered(a, env)
    ensures r.Ok? ==> r.value == Answer(a, env)
    ensures r.Err? ==> r.error == QueryError(a)
  {
    match a {
      case Query(request) =>
        var response := env.query(request);
        if response.None? {
          return Err(QueryFailed);
        }
        r := Ok(QueryResult(response.value));
      case QueryRaw(contract, key) =>
        var value := env.queryWasmRaw(contract, key);
        if value.None? {
          return Err(Std("query_wasm_raw"));
        }
        r := Ok(QueryRawResult(value.value));
      case QuerySmart(contract, query) =>
        var response := env.querySmart(contract, query);
        if response.None? {
          return Err(SmartQueryFailed);
        }
        r := Ok(QuerySmartResult(response.value));
    }
  }

  /** An answered query is recorded and the step goes on with the next action;
      an unanswered one fails the step. */
  lemma QueryStep(h: HandlerState, accounts: map<(string, Addr), Addr>, codeId: nat, env: Platform)
    requires h.pendingActions != [] && h.pendingActions[|h.pendingActions| - 1].IsQuery()
    ensures var a := h.pendingActions[|h.pendingActions| - 1];
      (Answered(a, env) ==> NextAction(h, accounts, codeId, env) == NextAction(AfterQuery(h, env), accounts, codeId, env)) &&
      (!Answered(a, env) ==> NextAction(h, accounts, codeId, env) == Err(QueryError(a)))
  {
  }

  /** How a step's outcome `o` relates to the handler `h` it started from: it
      popped off the stack exactly the queries it answered plus, unless the
      queue ran dry, the one action it dispatched; it appended one result per
      query and kept the earlier results and the handler's identity. */
  ghost predicate Popped(h: HandlerState, o: Outcome) {
    var n := |o.handler.pendingActions|;
    var k := if o.saved.Some? then n + 1 else 0;
    n <= |h.pendingActions| && k <= |h.pendingActions| && o.handler.pendingActions == h.pendingActions[..n] &&
    o.handler.connectionId == h.connectionId && o.handler.controller == h.controller && o.handler.traces == h.traces &&
    (forall i | k <= i < |h.pendingActions| :: h.pendingActions[i].IsQuery()) &&
    |o.handler.results| == |h.results| + (|h.pendingActions| - k) && o.handler.results[..|h.results|] == h.results
  }

  /** Answering a query keeps `Popped` from the handler after it back to the
      one before it. */
  lemma PoppedAfterQuery(h: HandlerState, env: Platform, o: Outcome)
    requires h.pendingActions != []
    requires h.pendingActions[|h.pendingActions| - 1].IsQuery() && Answered(h.pendingActions[|h.pendingActions| - 1], env)
    requires Popped(AfterQuery(h, env), o)
    ensures Popped(h, o)
  {
    var next := AfterQuery(h, env);
    var m := |h.pendingActions| - 1;
    assert next.pendingActions == h.pendingActions[..m];
    assert o.handler.results[..|h.results|] == o.handler.results[..|next.results|][..|h.results|];
    var k := if o.saved.Some? then |o.handler.pendingActions| + 1 else 0;
    forall i | k <= i < |h.pendingActions| ensures h.pendingActions[i].IsQuery() {
      if i < m {
        assert h.pendingActions[i] == next.pendingActions[i];
      }
    }
  }

  /** A step whose next action is not a query, or that finds the queue dry,
      pops at most that action. */
  lemma PoppedDirect(h: HandlerState, accounts: map<(string, Addr), Addr>, codeId: nat, env: Platform)
    requires h.pendingActions == [] || !h.pendingActions[|h.pendingActions| - 1].IsQuery()
    requires NextAction(h, accounts, codeId, env).Ok?
    ensures Popped(h, NextAction(h, accounts, codeId, env).value)
  {
  }

  /** Every successful step satisfies `Popped`. */
  lemma {:induction false} NextActionQueue(h: HandlerState, accounts: map<(string, Addr), Addr>, codeId: nat, env: Platform)
    requires NextAction(h, accounts, codeId, env).Ok?
    ensures Popped(h, NextAction(h, accounts, codeId, env).value)
    decreases |h.pendingActions|
  {
    if h.pendingActions != [] && h.pendingActions[|h.pendingActions| - 1].IsQuery() {
      QueryStep(h, accounts, codeId, env);
      var next := AfterQuery(h, env);
      NextActionQueue(next, accounts, codeId, env);
      PoppedAfterQuery(h, env, NextAction(next, accounts, codeId, env).value);
    } else {
      PoppedDirect(h, accounts, codeId, env);
    }
  }

  /** The handler a step saves waits for the reply of the one sub-message it
      dispatched on success only; with the queue dry the handler is removed
      and the response carries all results. */
  lemma {:induction false} NextActionSaves(h: HandlerState, accounts: map<(string, Addr), Addr>, codeId: nat, env: Platform)
    requires NextAction(h, accounts, codeId, env).Ok?
    ensures var o := NextAction(h, accounts, codeId, env).value;
      (o.saved.Some? ==>
         o.saved == Some(o.handler) && Resumable(o.handler) &&
         |o.response.msgs| == 1 && o.response.msgs[0].id == AFTER_ACTION && o.response.msgs[0].replyOn == OnSuccess &&
         o.response.data == None) &&
      (o.saved.None? ==>
         o.handler.pendingActions == [] && o.handler.action == None && o.response.msgs == [] &&
         o.response.data == Some(ResultsData(o.handler.results)))
    decreases |h.pendingActions|
  {
    if h.pendingActions != [] && h.pendingActions[|h.pendingActions| - 1].IsQuery() {
      QueryStep(h, accounts, codeId, env);
      NextActionSaves(AfterQuery(h, env), accounts, codeId, env);
    }
  }

  /** The registry changes only by the controller's new account, and only
      when it had none. */
  lemma {:induction false} NextActionAccounts(h: HandlerState, accounts: map<(string, Addr), Addr>, codeId: nat, env: Platform)
    requires NextAction(h, accounts, codeId, env).Ok?
    ensures var o := NextAction(h, accounts, codeId, env).value;
      (o.accounts == accounts && o.handler.host == h.host) ||
      (h.host.None? && o.handler.host.Some? && o.accounts == accounts[(h.connectionId, h.controller) := o.handler.host.value])
    decreases |h.pendingActions|
  {
    if h.pendingActions != [] && h.pendingActions[|h.pendingActions| - 1].IsQuery() {
      QueryStep(h, accounts, codeId, env);
      NextActionAccounts(AfterQuery(h, env), accounts, codeId, env);
    }
  }

  /** A step refuses a second interchain account, an Execute without one, and
      a Transfer whose denom the packet carries no trace for or whose
      recipient defaults to a missing account; every Transfer fails, as its
      release and mint are not implemented. */
  lemma NextActionRefusals(h: HandlerState, accounts: map<(string, Addr), Addr>, codeId: nat, env: Platform)
    requires h.pendingActions != []
    ensures var a := h.pendingActions[|h.pendingActions| - 1];
      var r := NextAction(h, accounts, codeId, env);
      (a.RegisterAccount? && h.host.Some? ==> r == Err(AccountExists(h.connectionId, h.controller))) &&
      (a.Execute? && h.host.None? ==> r == Err(AccountNotFound(h.connectionId, h.controller))) &&
      (a.Transfer? && !Controller.ContainsDenom(h.traces, a.denom) ==> r == Err(TraceNotFound(a.denom))) &&
      (a.Transfer? && Controller.ContainsDenom(h.traces, a.denom) && a.recipient.None? && h.host.None? ==>
         r == Err(AccountNotFound(h.connectionId, h.controller))) &&
      (a.Transfer? ==> r.Err?)
  {
  }

  /** Registering an account records exactly the address the chain will give
      the instantiated contract, under the connection and controller, and
      instantiates the account code with that salt; without a salt the
      default one is used. */
  lemma RegisterRecordsAccount(h: HandlerState, accounts: map<(string, Addr), Addr>, codeId: nat, env: Platform)
    requires h.pendingActions != [] && h.pendingActions[|h.pendingActions| - 1].RegisterAccount?
    requires NextAction(h, accounts, codeId, env).Ok?
    ensures var a := h.pendingActions[|h.pendingActions| - 1];
      var s := if a.salt.Some? then a.salt.value else DefaultSalt(h.connectionId, h.controller);
      var o := NextAction(h, accounts, codeId, env).value;
      h.host.None? && env.instantiate2Address(env.accountChecksum, env.contractAddr, s).Some? &&
      var addr := env.instantiate2Address(env.accountChecksum, env.contractAddr, s).value;
      o.handler.host == Some(addr) && o.accounts == accounts[(h.connectionId, h.controller) := addr] &&
      o.response.msgs == [SubMsg(WasmInstantiate2(env.contractAddr, codeId, s), AFTER_ACTION, OnSuccess)]
  {
  }

  /** A controller that already has an account cannot register another in a
      later packet: the account is found when the handler is created. */
  lemma RegisterOnceAcrossPackets(accounts: map<(string, Addr), Addr>, connectionId: string, controller: Addr,
                                  salt: Option<Bytes>, rest: seq<Action>, traces: seq<Trace>, codeId: nat, env: Platform)
    requires (connectionId, controller) in accounts
    ensures NextAction(Created(accounts, connectionId, controller, [RegisterAccount(salt)] + rest, traces), accounts, codeId, env)
         == Err(AccountExists(connectionId, controller))
  {
    var actions := [RegisterAccount(salt)] + rest;
    var h := Created(accounts, connectionId, controller, actions, traces);
    PopsInOrder(actions);
    assert h.pendingActions[|h.pendingActions| - 1] == RegisterAccount(salt);
    NextActionRefusals(h, accounts, codeId, env);
  }

  /** Nor later in the same packet: once the first registration is dispatched,
      the resumed handler remembers the account, whatever results it holds. */
  lemma RegisterOnceInPacket(accounts: map<(string, Addr), Addr>, connectionId: string, controller: Addr,
                             salt: Option<Bytes>, traces: seq<Trace>, codeId: nat, env: Platform, reply: seq<ActionResult>)
    requires NextAction(Created(accounts, connectionId, controller, [RegisterAccount(salt), RegisterAccount(salt)], traces),
                        accounts, codeId, env).Ok?
    ensures var o := NextAction(Created(accounts, connectionId, controller, [RegisterAccount(salt), RegisterAccount(salt)], traces),
                                accounts, codeId, env).value;
      NextAction(o.handler.(results := reply), o.accounts, codeId, env) == Err(AccountExists(connectionId, controller))
  {
    var pair := [RegisterAccount(salt), RegisterAccount(salt)];
    var h := Created(accounts, connectionId, controller, pair, traces);
    PopsInOrder(pair);
    assert h.pendingActions == [RegisterAccount(salt), RegisterAccount(salt)];
    RegisterRecordsAccount(h, accounts, codeId, env);
    var o := NextAction(h, accounts, codeId, env).value;
    var resumed := o.handler.(results := reply);
    assert resumed.pendingActions == [RegisterAccount(salt)];
    NextActionRefusals(resumed, o.accounts, codeId, env);
  }

  /** Starting from `create`, the first action popped is the first submitted. */
  lemma CreateRunsFirstAction(accounts: map<(string, Addr), Addr>, connectionId: string, controller: Addr,
                              actions: seq<Action>, traces: seq<Trace>, codeId: nat, env: Platform)
    requires actions != [] && !actions[0].IsQuery()
    requires NextAction(Created(accounts, connectionId, controller, actions, traces), accounts, codeId, env).Ok?
    ensures var o := NextAction(Created(accounts, connectionId, controller, actions, traces), accounts, codeId, env).value;
      o.handler.action == Some(actions[0]) && o.handler.pendingActions == Reverse(actions[1..]) && o.handler.results == []
  {
    PopsInOrder(actions);
  }
}
