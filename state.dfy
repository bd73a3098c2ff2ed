/** The contract's persistent storage (contracts/core/src/state.rs, plus the
    `DENOM_TRACES` map and the `HANDLER` item the core reads and writes). */
module State {
  import opened Types
  import opened Traces

  /** The persisted form of a `Handler` (the `HANDLER` item). The older handler
      has no `traces` field; it is stored as the empty sequence there. */
  datatype HandlerState = HandlerState(
    connectionId: string,
    controller: Addr,
    host: Option<Addr>,
    traces: seq<Trace>,
    action: Option<Action>,
    pendingActions: seq<Action>,
    results: seq<ActionResult>)

  class Store {
    /** `ACTIVE_CHANNELS`: connection id to channel id. */
    var activeChannels: map<string, string>
    /** `DENOM_TRACES`: denom to the trace of the token it stands for. */
    var denomTraces: map<string, TraceItem>
    /** `ACCOUNTS`: (connection id, controller) to interchain account. */
    var accounts: map<(string, Addr), Addr>
    /** `DEFAULT_TIMEOUT_SECS`. */
    var defaultTimeoutSecs: nat
    /** `ACCOUNT_CODE_ID`. */
    var accountCodeId: nat
    /** `HANDLER`. */
    var handler: Option<HandlerState>

    /** A store as instantiation leaves it. */
    constructor (defaultTimeoutSecs: nat, accountCodeId: nat)
      ensures activeChannels == map[] && denomTraces == map[] && accounts == map[]
      ensures this.defaultTimeoutSecs == defaultTimeoutSecs && this.accountCodeId == accountCodeId
      ensures handler == None
    {
      activeChannels := map[];
      denomTraces := map[];
      accounts := map[];
      this.defaultTimeoutSecs := defaultTimeoutSecs;
      this.accountCodeId := accountCodeId;
      handler := None;
    }
  }
}
