/** Shared vocabulary of the ICS-999 core: the packet schema, the messages the
    contract emits, its error taxonomy, and the host-chain collaborators it
    consumes (as pure functions supplied by the platform). */
module Types {

  // ------------------------------------------------------------------
  // Failure-compatible wrappers
  // ------------------------------------------------------------------

  datatype Option<+T> = None | Some(value: T)

  /** The contract's `Result<T, ContractError>`. */
  datatype Result<+T> = Ok(value: T) | Err(error: ContractError) {
    predicate IsFailure() { Err? }
    function PropagateFailure<U>(): Result<U>
      requires Err?
    {
      Err(error)
    }
    function Extract(): T
      requires Ok?
    {
      value
    }
  }

  // ------------------------------------------------------------------
  // Scalars
  // ------------------------------------------------------------------

  type Byte = b: int | 0 <= b < 256
  type Bytes = seq<Byte>

  /** Largest value of cosmwasm's `Uint128`. */
  const UINT128_MAX: int := 0xFFFF_FFFF_FFFF_FFFF_FFFF_FFFF_FFFF_FFFF
  type Uint128 = n: nat | n <= UINT128_MAX

  /** Bech32 account addresses are handled as plain strings. */
  type Addr = string

  /** `cosmwasm_std::Coin`. */
  datatype Coin = Coin(denom: string, amount: Uint128)

  /** `cosmwasm_std::IbcEndpoint`: one hop of a token's path. */
  datatype Endpoint = Endpoint(portId: string, channelId: string)

  // ------------------------------------------------------------------
  // Packet schema
  // ------------------------------------------------------------------

  /** The actions a packet may carry. `Query` belongs to the newer host
      handler, `QueryRaw` and `QuerySmart` to the older one. */
  datatype Action =
    | Transfer(denom: string, amount: Uint128, recipient: Option<Addr>)
    | RegisterAccount(salt: Option<Bytes>)
    | Execute(msg: Bytes)
    | Query(request: Bytes)
    | QueryRaw(contract: Addr, key: Bytes)
    | QuerySmart(contract: Addr, query: Bytes)
  {
    /** Query actions are answered within the same step and never get a reply. */
    predicate IsQuery() { Query? || QueryRaw? || QuerySmart? }
  }

  datatype ActionResult =
    | TransferResult(denom: string, newToken: bool, recipient: Addr)
    | RegisterAccountResult(address: Addr)
    | ExecuteResult(data: Option<Bytes>)
    | QueryResult(response: Bytes)
    | QueryRawResult(value: Option<Bytes>)
    | QuerySmartResult(response: Bytes)

  /** `ics999::Trace`: a token's denom on the sending chain, its original
      denom, and the hops it has travelled. */
  datatype Trace = Trace(denom: string, baseDenom: string, path: seq<Endpoint>)

  datatype RelayerFee = RelayerFee(dest: Option<Coin>, src: Option<Coin>)

  datatype PacketData = PacketData(
    sender: Addr,
    actions: seq<Action>,
    traces: seq<Trace>,
    relayerFee: RelayerFee)

  datatype PacketAck = Results(results: seq<ActionResult>) | Error(message: string)

  /** `IbcPacket`, with its data already deserialized. */
  datatype Packet = Packet(src: Endpoint, dest: Endpoint, sequence: nat, data: PacketData)

  /** `IbcTimeout`: block time is counted in nanoseconds. */
  datatype Timeout = AtTimestamp(nanos: nat) | AtBlock(revision: nat, height: nat)

  // ------------------------------------------------------------------
  // Emitted messages and responses
  // ------------------------------------------------------------------

  /** Payloads of `WasmMsg::Execute` calls made by the core contract. */
  datatype WasmPayload =
    | HandlePayload(connectionId: string, src: Endpoint, dest: Endpoint, controller: Addr,
                    actions: seq<Action>, traces: seq<Trace>)
    | PacketCallback(channelId: string, sequence: nat, ack: Option<PacketAck>)
    | RawPayload(bytes: Bytes)

  datatype CosmosMsg =
    | MintTokens(denom: string, amount: Uint128, mintTo: Addr)
    | BurnTokens(denom: string, amount: Uint128, burnFrom: Addr)
    | CreateDenom(subdenom: string)
    | BankSend(to: Addr, coins: seq<Coin>)
    | SendPacket(channelId: string, packet: PacketData, timeout: Timeout)
    | WasmInstantiate2(admin: Addr, codeId: nat, salt: Bytes)
    | WasmExecute(contract: Addr, payload: WasmPayload)

  datatype ReplyOn = Never | OnSuccess | Always

  /** Reply ids, as numbered in contracts/core/src/lib.rs. */
  const AFTER_ACTION: nat := 1
  const AFTER_ALL_ACTIONS: nat := 2
  const AFTER_CALLBACK: nat := 3

  datatype SubMsg = SubMsg(msg: CosmosMsg, id: nat, replyOn: ReplyOn)

  datatype Attribute = Attribute(key: string, value: string)

  /** What a response carries in its `data` field (serialization is the identity here). */
  datatype ResponseData = ResultsData(results: seq<ActionResult>) | AckData(ack: PacketAck)

  /** The outcome of a sub-message, as a reply hands it back. */
  datatype SubMsgResult = SubOk(data: Option<Bytes>) | SubErr(message: string)

  datatype Response = Response(attrs: seq<Attribute>, msgs: seq<SubMsg>, data: Option<ResponseData>)

  const EmptyResponse := Response([], [], None)

  /** `add_message`: a plain sub-message that never replies. */
  function AddMessage(res: Response, m: CosmosMsg): Response {
    res.(msgs := res.msgs + [SubMsg(m, 0, Never)])
  }

  // ------------------------------------------------------------------
  // Errors
  // ------------------------------------------------------------------

  datatype Order = Unordered | Ordered

  datatype ContractError =
    | Overflow
    | Std(what: string)
    | NotFound(what: string)
    | FundsMismatch(actual: seq<Coin>, expected: seq<Coin>)
    | IncorrectOrder(actualOrder: Order, expectedOrder: Order)
    | IncorrectVersion(actualVersion: string, expectedVersion: string)
    | ChannelExists(connectionId: string)
    | ChannelNotFound(portId: string, channelId: string)
    | EmptyActionQueue
    | Unauthorized
    | UnexpectedChannelClosure
    | TraceNotFound(denom: string)
    | AccountExists(connectionId: string, controller: Addr)
    | AccountNotFound(connectionId: string, controller: Addr)
    | NonZeroTokenCreationFee
    | SmartQueryFailed
    | QueryFailed
    /** The `StdError` that `addr_validate` raises on a malformed recipient. */
    | InvalidAddress(address: string)
    | Instantiate2AddressFailed
    | ParseReplyFailed
    | MissingResponseData
    | Unimplemented(feature: string)
    | UnknownReplyId(id: nat)

  // ------------------------------------------------------------------
  // Host-chain collaborators
  // ------------------------------------------------------------------

  /** The contract's environment and the host functions it calls, which this
      model does not implement: each is an arbitrary pure function. */
  datatype Platform = Platform(
    /** `env.contract.address` */
    contractAddr: Addr,
    /** `env.block.time` in nanoseconds */
    blockTimeNanos: nat,
    /** the IBC port bound to this contract (`query_port`) */
    portId: string,
    /** the checksum of the account contract's code (`query_wasm_code_info`) */
    accountChecksum: Bytes,
    /** `instantiate2_address` composed with the address conversions; None on failure */
    instantiate2Address: (Bytes, Addr, Bytes) -> Option<Addr>,
    /** `addr_validate` */
    addrValidate: Addr -> bool,
    /** `query_wasm_raw`; None when the querier itself fails */
    queryWasmRaw: (Addr, Bytes) -> Option<Option<Bytes>>,
    /** a raw smart query; None when it does not return `Ok(Ok(..))` */
    querySmart: (Addr, Bytes) -> Option<Bytes>,
    /** the newer generic wasm query; None when it does not return `Ok(Ok(..))` */
    query: Bytes -> Option<Bytes>,
    /** `parse_instantiate_response_data` projected to the contract address */
    parseInstantiateResponse: Bytes -> Option<Addr>,
    /** `parse_execute_response_data` projected to its data field */
    parseExecuteResponse: Bytes -> Option<Option<Bytes>>,
    /** `from_slice` of a list of action results */
    decodeResults: Bytes -> Option<seq<ActionResult>>,
    /** `connection_of_channel`; None when the channel is unknown */
    connectionOfChannel: string -> Option<string>,
    /** the token-factory module's `denom_creation_fee` parameter */
    denomCreationFee: seq<Coin>)
}
