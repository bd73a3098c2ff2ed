/** The channel handshake (contracts/core/src/handshake.rs, and its older twin
    contracts/core/src/ibc.rs, which differs only in the key of the first
    attribute `open_connect` emits). An ICS-999 channel is unordered, speaks
    version "ics999-1", and is the only one on its connection. */
module Handshake {
  import opened Types
  import opened State

  /** `ORDER`. */
  const ORDER: Order := Unordered
  /** `VERSION`. */
  const VERSION: string := "ics999-1"

  /** The attribute key naming the step: "method" in handshake.rs, "action" in ibc.rs. */
  const METHOD_KEY: string := "method"
  const LEGACY_METHOD_KEY: string := "action"

  /** `IbcChannel`, the fields the handshake looks at. */
  datatype Channel = Channel(endpoint: Endpoint, order: Order, version: string, connectionId: string)

  datatype CloseMsg = CloseInit(channel: Channel) | CloseConfirm(channel: Channel)

  /** `validate_order_and_version`: the order is checked first, then the
      version, then the counterparty version when one is known. */
  function ValidateOrderAndVersion(order: Order, version: string, counterpartyVersion: Option<string>): (r: Result<()>)
    ensures r.Ok? <==> order == ORDER && version == VERSION && (counterpartyVersion.Some? ==> counterpartyVersion.value == VERSION)
    ensures order != ORDER ==> r == Err(IncorrectOrder(order, ORDER))
    ensures order == ORDER && version != VERSION ==> r == Err(IncorrectVersion(version, VERSION))
    ensures r.Err? && r.error.IncorrectVersion? ==>
      order == ORDER && r.error.expectedVersion == VERSION &&
      (r.error.actualVersion == version || counterpartyVersion == Some(r.error.actualVersion))
  {
    if order != ORDER then Err(IncorrectOrder(order, ORDER))
    else if version != VERSION then Err(IncorrectVersion(version, VERSION))
    else if counterpartyVersion.Some? && counterpartyVersion.value != VERSION then
      Err(IncorrectVersion(counterpartyVersion.value, VERSION))
    else Ok(())
  }

  /** `assert_unique_channel`. */
  function AssertUniqueChannel(channels: map<string, string>, connectionId: string): (r: Result<()>)
    ensures r.Ok? <==> connectionId !in channels
    ensures r.Err? ==> r.error == ChannelExists(connectionId)
  {
    if connectionId in channels then Err(ChannelExists(connectionId)) else Ok(())
  }

  /** `open_init`: the counterparty version is not known yet. On success the
      version is left as proposed (`None`). */
  function OpenInit(channels: map<string, string>, channel: Channel): (r: Result<Option<string>>)
    ensures r.Ok? <==> channel.order == ORDER && channel.version == VERSION && channel.connectionId !in channels
    ensures r.Ok? ==> r.value == None
    ensures channel.order != ORDER ==> r == Err(IncorrectOrder(channel.order, ORDER))
    ensures channel.order == ORDER && channel.version == VERSION && channel.connectionId in channels ==>
      r == Err(ChannelExists(channel.connectionId))
  {
    var _ :- ValidateOrderAndVersion(channel.order, channel.version, None);
    var _ :- AssertUniqueChannel(channels, channel.connectionId);
    Ok(None)
  }

  /** `open_try`: the counterparty version is known and must match too. */
  function OpenTry(channels: map<string, string>, channel: Channel, counterpartyVersion: string): (r: Result<Option<string>>)
    ensures r.Ok? <==>
      channel.order == ORDER && channel.version == VERSION && counterpartyVersion == VERSION &&
      channel.connectionId !in channels
    ensures r.Ok? ==> r.value == None
    ensures channel.order != ORDER ==> r == Err(IncorrectOrder(channel.order, ORDER))
    ensures channel.order == ORDER && channel.version == VERSION && counterpartyVersion != VERSION ==>
      r == Err(IncorrectVersion(counterpartyVersion, VERSION))
    ensures (channel.order == ORDER && channel.version == VERSION && counterpartyVersion == VERSION &&
             channel.connectionId in channels) ==> r == Err(ChannelExists(channel.connectionId))
  {
    var _ :- ValidateOrderAndVersion(channel.order, channel.version, Some(counterpartyVersion));
    var _ :- AssertUniqueChannel(channels, channel.connectionId);
    Ok(None)
  }

  /** The attributes `open_connect` emits. */
  function ConnectAttrs(methodKey: string, channel: Channel): seq<Attribute> {
    [Attribute(methodKey, "open_connect"), Attribute("connection_id", channel.connectionId),
     Attribute("port_id", channel.endpoint.portId), Attribute("channel_id", channel.endpoint.channelId)]
  }

  /** The channel table after `open_connect`, or its error. */
  function ConnectSpec(channels: map<string, string>, channel: Channel, counterpartyVersion: Option<string>)
    : (r: Result<map<string, string>>)
    ensures r.Ok? <==> ValidateOrderAndVersion(channel.order, channel.version, counterpartyVersion).Ok?
    ensures r.Ok? ==> channel.connectionId in r.value && r.value[channel.connectionId] == channel.endpoint.channelId
    ensures r.Ok? ==> forall c | c != channel.connectionId :: (c in r.value <==> c in channels) &&
                                                              (c in channels ==> r.value[c] == channels[c])
  {
    var _ :- ValidateOrderAndVersion(channel.order, channel.version, counterpartyVersion);
    Ok(channels[channel.connectionId := channel.endpoint.channelId])
  }

  /** `open_connect`: records the channel of the connection once validation
      passes; nothing else in storage changes. */
  method OpenConnect(store: Store, channel: Channel, counterpartyVersion: Option<string>, methodKey: string)
    returns (r: Result<Response>)
    modifies store
    ensures var spec := ConnectSpec(old(store.activeChannels), channel, counterpartyVersion);
      (r.Ok? <==> spec.Ok?) &&
      (r.Ok? ==> store.activeChannels == spec.value && r.value == Response(ConnectAttrs(methodKey, channel), [], None)) &&
      (r.Err? ==> r.error == spec.error && store.activeChannels == old(store.activeChannels))
    ensures store.denomTraces == old(store.denomTraces) && store.accounts == old(store.accounts)
    ensures store.defaultTimeoutSecs == old(store.defaultTimeoutSecs) && store.accountCodeId == old(store.accountCodeId)
    ensures store.handler == old(store.handler)
  {
    var valid := ValidateOrderAndVersion(channel.order, channel.version, counterpartyVersion);
    if valid.Err? {
      return Err(valid.error);
    }
    store.activeChannels := store.activeChannels[channel.connectionId := channel.endpoint.channelId];
    r := Ok(Response(ConnectAttrs(methodKey, channel), [], None));
  }

  /** `close`: a channel end may never start closing; a close confirmed by the
      counterparty goes through and leaves the channel table as it was. */
  function Close(msg: CloseMsg): (r: Result<Response>)
    ensures r.Err? <==> msg.CloseInit?
    ensures r.Err? ==> r.error == UnexpectedChannelClosure
    ensures r.Ok? ==> r.value == EmptyResponse
  {
    match msg
    case CloseInit(_) => Err(UnexpectedChannelClosure)
    case CloseConfirm(_) => Ok(EmptyResponse)
  }

  // ------------------------------------------------------------------
  // One channel per connection
  // ------------------------------------------------------------------

  /** Once a channel is connected, every later handshake on the same connection
      is refused at its first step, whichever side starts it, unless it is
      already refused for its order or version. */
  lemma ConnectedConnectionRefusesNewChannels(channels: map<string, string>, channel: Channel,
                                              counterpartyVersion: Option<string>, other: Channel, otherCounterparty: string)
    requires ConnectSpec(channels, channel, counterpartyVersion).Ok?
    requires other.connectionId == channel.connectionId
    ensures var after := ConnectSpec(channels, channel, counterpartyVersion).value;
      OpenInit(after, other).Err? && OpenTry(after, other, otherCounterparty).Err?
    ensures var after := ConnectSpec(channels, channel, counterpartyVersion).value;
      other.order == ORDER && other.version == VERSION ==> OpenInit(after, other) == Err(ChannelExists(other.connectionId))
  {
  }

  /** `open_connect` itself does not check for an existing channel: a
      connection that already has one gets it replaced. Uniqueness rests on the
      two opening steps alone. */
  lemma ConnectOverwrites(channels: map<string, string>, channel: Channel)
    requires channel.order == ORDER && channel.version == VERSION
    requires channel.connectionId in channels && channels[channel.connectionId] != channel.endpoint.channelId
    ensures ConnectSpec(channels, channel, None).Ok?
    ensures ConnectSpec(channels, channel, None).value[channel.connectionId] != channels[channel.connectionId]
  {
  }

  /** Each opening step validates the version before it reads the channel
      table: a wrong order or version is reported even on a connection that
      already has a channel. */
  lemma ValidationComesFirst(channels: map<string, string>, channel: Channel, counterpartyVersion: string)
    requires channel.connectionId in channels
    requires channel.version != VERSION
    ensures channel.order == ORDER ==> OpenInit(channels, channel) == Err(IncorrectVersion(channel.version, VERSION))
    ensures channel.order == ORDER ==> OpenTry(channels, channel, counterpartyVersion) == Err(IncorrectVersion(channel.version, VERSION))
    ensures channel.order != ORDER ==> OpenTry(channels, channel, counterpartyVersion) == Err(IncorrectOrder(channel.order, ORDER))
  {
  }
}
