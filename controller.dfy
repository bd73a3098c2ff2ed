/** The sending side of ICS-999 (contracts/core/src/controller/mod.rs): `act`
    takes the user's funds and actions and sends the packet, and
    `packet_lifecycle_complete` settles it on acknowledgement or timeout. */
module Controller {
  import opened Types
  import opened Text
  import opened Ledger
  import opened Traces
  import opened Accounting
  import opened State

  const NANOS_PER_SECOND: nat := 1_000_000_000

  // ------------------------------------------------------------------
  // Small helpers
  // ------------------------------------------------------------------

  /** `trace_of`: the stored trace, or a fresh one when the denom is native here. */
  function TraceOf(stored: map<string, TraceItem>, denom: string): TraceItem {
    if denom in stored then stored[denom] else New(denom)
  }

  /** A denom without a stored trace is native to this chain: it is sent from
      its source for every endpoint, so it is escrowed and later released. */
  lemma UnstoredIsSenderSource(stored: map<string, TraceItem>, denom: string, e: Endpoint)
    requires denom !in stored
    ensures TraceOf(stored, denom) == TraceItem(denom, [])
    ensures SenderIsSource(TraceOf(stored, denom), e)
  {
  }

  /** `contains_denom`. */
  predicate ContainsDenom(traces: seq<Trace>, denom: string) {
    exists i | 0 <= i < |traces| :: traces[i].denom == denom
  }

  /** `localhost`: this contract's port and the channel bound to the connection. */
  function Localhost(env: Platform, channels: map<string, string>, conn: string): (r: Result<Endpoint>)
    ensures r.Ok? <==> conn in channels
    ensures r.Ok? ==> r.value.portId == env.portId && r.value.channelId == channels[conn]
  {
    if conn in channels then Ok(Endpoint(env.portId, channels[conn])) else Err(NotFound(conn))
  }

  /** `should_refund`. */
  predicate ShouldRefund(ack: Option<PacketAck>) {
    match ack
    case None => true
    case Some(Error(_)) => true
    case Some(Results(_)) => false
  }

  /** Refund exactly unless the packet was acknowledged with results. */
  lemma ShouldRefundSpec(ack: Option<PacketAck>)
    ensures ShouldRefund(ack) <==> !(ack.Some? && ack.value.Results?)
    ensures ack.None? ==> ShouldRefund(ack)
  {
  }

  function BoolString(b: bool): string {
    if b then "true" else "false"
  }

  /** `after_callback`: succeeds whatever the callback's outcome, recording it. */
  function AfterCallback(success: bool): (r: Result<Response>)
    ensures r.Ok? && r.value.msgs == [] && r.value.data == None
    ensures r.value.attrs == [Attribute("method", "after_callback"), Attribute("success", BoolString(success))]
  {
    Ok(Response([Attribute("method", "after_callback"), Attribute("success", BoolString(success))], [], None))
  }

  /** `add_messages`: each as a plain sub-message. */
  function Plain(msgs: seq<CosmosMsg>): (r: seq<SubMsg>)
    ensures |r| == |msgs|
    ensures forall i | 0 <= i < |r| :: r[i] == SubMsg(msgs[i], 0, Never)
  {
    if msgs == [] then [] else [SubMsg(msgs[0], 0, Never)] + Plain(msgs[1..])
  }

  lemma {:induction false} PlainAppend(a: seq<CosmosMsg>, b: seq<CosmosMsg>)
    ensures Plain(a + b) == Plain(a) + Plain(b)
    decreases |a|
  {
    if a == [] {
      assert a + b == b;
    } else {
      assert (a + b)[1..] == a[1..] + b;
      PlainAppend(a[1..], b);
    }
  }

  // ------------------------------------------------------------------
  // `act`, as a specification
  // ------------------------------------------------------------------

  /** What `act` has gathered so far: messages, attributes, packet traces and
      the expected funds ledger. */
  datatype Acc = Acc(msgs: seq<CosmosMsg>, attrs: seq<Attribute>, traces: seq<Trace>, owed: seq<Coin>)

  /** Records the denom's full trace unless one is already recorded. */
  function WithTrace(traces: seq<Trace>, stored: map<string, TraceItem>, denom: string): seq<Trace> {
    if ContainsDenom(traces, denom) then traces else traces + [IntoFullTrace(TraceOf(stored, denom), denom)]
  }

  /** The loop body of `act` for one Transfer: escrow or burn, record the
      trace, add the coin to the expected funds. */
  function TransferStep(acc: Acc, a: Action, stored: map<string, TraceItem>, localhost: Endpoint,
                        contract: Addr): (r: Result<Acc>)
    requires Sorted(acc.owed) && a.Transfer?
    ensures r.Ok? ==> Sorted(r.value.owed)
  {
    var coin := Coin(a.denom, a.amount);
    var moved :=
      if SenderIsSource(TraceOf(stored, a.denom), localhost) then acc.(attrs := acc.attrs + CoinAttrs(coin, "escrow"))
      else acc.(msgs := acc.msgs + [BurnMsg(coin, contract)], attrs := acc.attrs + CoinAttrs(coin, "burn"));
    var owed :- AddCoin(acc.owed, coin);
    Ok(moved.(traces := WithTrace(acc.traces, stored, a.denom), owed := owed))
  }

  /** The whole loop of `act` over the actions; non-transfers are skipped. */
  function Transfers(actions: seq<Action>, stored: map<string, TraceItem>, localhost: Endpoint,
                     contract: Addr): (r: Result<Acc>)
    ensures r.Ok? ==> Sorted(r.value.owed)
    decreases |actions|
  {
    if actions == [] then Ok(Acc([], [], [], []))
    else
      var acc :- Transfers(actions[..|actions| - 1], stored, localhost, contract);
      var a := actions[|actions| - 1];
      if a.Transfer? then TransferStep(acc, a, stored, localhost, contract) else Ok(acc)
  }

  /** The destination relayer fee: its trace travels with the packet. */
  function DestFee(acc: Acc, fee: Option<Coin>, stored: map<string, TraceItem>): (r: Result<Acc>)
    requires Sorted(acc.owed)
    ensures r.Ok? ==> Sorted(r.value.owed)
    ensures r.Ok? ==> r.value.msgs == acc.msgs && r.value.attrs == acc.attrs
    ensures r.Ok? ==> r.value.traces == if fee.Some? then WithTrace(acc.traces, stored, fee.value.denom) else acc.traces
  {
    match fee
    case None => Ok(acc)
    case Some(f) =>
      var owed :- AddCoin(acc.owed, f);
      Ok(acc.(traces := WithTrace(acc.traces, stored, f.denom), owed := owed))
  }

  /** The source relayer fee: only added to the expected funds. */
  function SrcFee(acc: Acc, fee: Option<Coin>): (r: Result<Acc>)
    requires Sorted(acc.owed)
    ensures r.Ok? ==> Sorted(r.value.owed)
    ensures r.Ok? ==> r.value.msgs == acc.msgs && r.value.attrs == acc.attrs && r.value.traces == acc.traces
  {
    match fee
    case None => Ok(acc)
    case Some(f) =>
      var owed :- AddCoin(acc.owed, f);
      Ok(acc.(owed := owed))
  }

  /** The packet timeout: the given one, or the default number of seconds
      after the current block time. */
  function ResolveTimeout(timeout: Option<Timeout>, blockTimeNanos: nat, defaultSecs: nat): Timeout {
    match timeout
    case None => AtTimestamp(blockTimeNanos + defaultSecs * NANOS_PER_SECOND)
    case Some(t) => t
  }

  /** Everything `act` gathers before comparing funds: the transfer loop, then
      the destination fee, then the source fee. */
  function Gather(actions: seq<Action>, fee: RelayerFee, stored: map<string, TraceItem>, localhost: Endpoint,
                  contract: Addr): (r: Result<Acc>)
    ensures r.Ok? ==> Sorted(r.value.owed)
  {
    var transfers :- Transfers(actions, stored, localhost, contract);
    var withDest :- DestFee(transfers, fee.dest, stored);
    SrcFee(withDest, fee.src)
  }

  /** `act`, as a function of the storage it reads and its inputs. */
  function ActSpec(stored: map<string, TraceItem>, channels: map<string, string>, defaultSecs: nat,
                   env: Platform, sender: Addr, funds: seq<Coin>, conn: string, actions: seq<Action>,
                   timeout: Option<Timeout>, fee: RelayerFee): Result<Response>
  {
    var localhost :- Localhost(env, channels, conn);
    var acc :- Gather(actions, fee, stored, localhost, env.contractAddr);
    var received := Collect(funds);
    if received != acc.owed then Err(FundsMismatch(received, acc.owed))
    else
      var packet := PacketData(sender, actions, acc.traces, fee);
      Ok(Response(acc.attrs,
                  Plain(acc.msgs) + [SubMsg(SendPacket(localhost.channelId, packet,
                                                        ResolveTimeout(timeout, env.blockTimeNanos, defaultSecs)), 0, Never)],
                  None))
  }

  /** Once a prefix of the actions overflows the expected funds, so does the whole loop. */
  lemma {:induction false} TransfersErrSticks(actions: seq<Action>, n: nat, stored: map<string, TraceItem>,
                                              localhost: Endpoint, contract: Addr)
    requires n <= |actions| && Transfers(actions[..n], stored, localhost, contract).Err?
    ensures Transfers(actions, stored, localhost, contract) == Transfers(actions[..n], stored, localhost, contract)
    decreases |actions|
  {
    if n < |actions| {
      var p := actions[..|actions| - 1];
      assert p[..n] == actions[..n];
      TransfersErrSticks(p, n, stored, localhost, contract);
    } else {
      assert actions[..n] == actions;
    }
  }

  // ------------------------------------------------------------------
  // `act`
  // ------------------------------------------------------------------

  /** The loop of `act` over the actions, pushing onto `effects` and adding to
      `owed`; stops at the first overflow. */
  method TransfersLoop(stored: map<string, TraceItem>, localhost: Endpoint, contract: Addr,
                       actions: seq<Action>, owed: Coins, effects: Effects)
    returns (traces: seq<Trace>, r: Result<()>)
    requires owed.entries == [] && effects.msgs == [] && effects.attrs == []
    modifies owed, effects
    ensures owed.Valid()
    ensures r.Ok? <==> Transfers(actions, stored, localhost, contract).Ok?
    ensures r.Ok? ==> Transfers(actions, stored, localhost, contract) == Ok(Acc(effects.msgs, effects.attrs, traces, owed.entries))
    ensures r.Err? ==> Transfers(actions, stored, localhost, contract) == Err(r.error)
  {
    traces := [];
    assert actions[..0] == [];
    var i := 0;
    while i < |actions|
      invariant i <= |actions|
      invariant owed.Valid()
      invariant Transfers(actions[..i], stored, localhost, contract) == Ok(Acc(effects.msgs, effects.attrs, traces, owed.entries))
    {
      var action := actions[i];
      assert actions[..i + 1][..i] == actions[..i];
      if action.Transfer? {
        var trace := TraceOf(stored, action.denom);
        var coin := Coin(action.denom, action.amount);
        if SenderIsSource(trace, localhost) {
          effects.Escrow(coin);
        } else {
          // burned from the contract itself, which already holds the funds
          effects.Burn(coin, contract);
        }
        if !ContainsDenom(traces, action.denom) {
          traces := traces + [IntoFullTrace(trace, action.denom)];
        }
        var added := owed.Add(coin);
        if added.Err? {
          TransfersErrSticks(actions, i + 1, stored, localhost, contract);
          return traces, Err(added.error);
        }
      }
      i := i + 1;
    }
    assert actions[..|actions|] == actions;
    r := Ok(());
  }

  /** The relayer fees of `act`: the destination fee's trace is recorded and
      both fees are added to `owed`. */
  method FeesStep(stored: map<string, TraceItem>, fee: RelayerFee, acc: Acc, owed: Coins)
    returns (traces: seq<Trace>, r: Result<()>)
    requires owed.Valid() && owed.entries == acc.owed
    modifies owed
    ensures owed.Valid()
    ensures var spec := DestFee(acc, fee.dest, stored);
      if spec.Err? then r == Err(spec.error)
      else var full := SrcFee(spec.value, fee.src);
        if full.Err? then r == Err(full.error)
        else r.Ok? && full.value == acc.(traces := traces, owed := owed.entries)
  {
    traces := acc.traces;
    if fee.dest.Some? {
      var f := fee.dest.value;
      if !ContainsDenom(traces, f.denom) {
        traces := traces + [IntoFullTrace(TraceOf(stored, f.denom), f.denom)];
      }
      var added := owed.Add(f);
      if added.Err? {
        return traces, Err(added.error);
      }
    }
    if fee.src.Some? {
      var added := owed.Add(fee.src.value);
      if added.Err? {
        return traces, Err(added.error);
      }
    }
    r := Ok(());
  }

  /** `act`: loops over the actions, escrowing or burning each transferred coin
      and recording its trace, adds the relayer fees, refuses funds that differ
      from what is owed, and sends the packet. */
  method Act(store: Store, env: Platform, sender: Addr, funds: seq<Coin>, conn: string,
             actions: seq<Action>, timeout: Option<Timeout>, fee: RelayerFee) returns (r: Result<Response>)
    ensures r == ActSpec(store.denomTraces, store.activeChannels, store.defaultTimeoutSecs,
                         env, sender, funds, conn, actions, timeout, fee)
  {
    var received := new Coins.FromVec(funds);
    var owed := new Coins.Empty();
    EmptyMap(owed.entries);
    var effects := new Effects();

    var localhost :- Localhost(env, store.activeChannels, conn);

    var traces, looped := TransfersLoop(store.denomTraces, localhost, env.contractAddr, actions, owed, effects);
    if looped.Err? {
      return Err(looped.error);
    }
    var acc := Acc(effects.msgs, effects.attrs, traces, owed.entries);
    var feeTraces, feed := FeesStep(store.denomTraces, fee, acc, owed);
    if feed.Err? {
      return Err(feed.error);
    }
    traces := feeTraces;

    SortedCanonical(received.entries, owed.entries);
    if !received.Equals(owed) {
      return Err(FundsMismatch(received.ToVec(), owed.ToVec()));
    }

    var t := ResolveTimeout(timeout, env.blockTimeNanos, store.defaultTimeoutSecs);
    var packet := PacketData(sender, actions, traces, fee);
    r := Ok(Response(effects.attrs, Plain(effects.msgs) + [SubMsg(SendPacket(localhost.channelId, packet, t), 0, Never)], None));
  }

  // ------------------------------------------------------------------
  // What `act` owes, accepts and sends
  // ------------------------------------------------------------------

  /** The coins the transfers move, in action order. */
  function TransferCoins(actions: seq<Action>): seq<Coin>
    decreases |actions|
  {
    if actions == [] then []
    else
      var a := actions[|actions| - 1];
      TransferCoins(actions[..|actions| - 1]) + (if a.Transfer? then [Coin(a.denom, a.amount)] else [])
  }

  function OptCoin(c: Option<Coin>): seq<Coin> {
    if c.Some? then [c.value] else []
  }

  /** What the user has to send: every transfer, then the destination fee,
      then the source fee. */
  function ExpectedCoins(actions: seq<Action>, fee: RelayerFee): seq<Coin> {
    TransferCoins(actions) + OptCoin(fee.dest) + OptCoin(fee.src)
  }

  /** The loop's ledger is the transfers added up from nothing, and it fails only by overflow. */
  lemma {:induction false} TransfersOwed(actions: seq<Action>, stored: map<string, TraceItem>, localhost: Endpoint,
                                         contract: Addr)
    ensures var t := Transfers(actions, stored, localhost, contract);
      var sum := AddAll([], TransferCoins(actions));
      (t.Ok? <==> sum.Ok?) && (t.Ok? ==> t.value.owed == sum.value) && (t.Err? ==> t.error == Overflow)
    decreases |actions|
  {
    if actions != [] {
      var p := actions[..|actions| - 1];
      var a := actions[|actions| - 1];
      TransfersOwed(p, stored, localhost, contract);
      if a.Transfer? {
        AddAllSnoc([], TransferCoins(p), Coin(a.denom, a.amount));
      } else {
        assert TransferCoins(actions) == TransferCoins(p) + [];
        assert TransferCoins(p) + [] == TransferCoins(p);
      }
    }
  }

  lemma AddAllOpt(cs: seq<Coin>, c: Option<Coin>)
    ensures AddAll([], cs + OptCoin(c)) ==
      if c.None? || AddAll([], cs).Err? then AddAll([], cs) else AddCoin(AddAll([], cs).value, c.value)
  {
    if c.None? {
      assert cs + OptCoin(c) == cs;
    } else {
      AddAllSnoc([], cs, c.value);
    }
  }

  /** What `act` gathers owes exactly the expected coins, and fails only by overflow. */
  lemma GatherOwed(actions: seq<Action>, fee: RelayerFee, stored: map<string, TraceItem>, localhost: Endpoint,
                   contract: Addr)
    ensures var g := Gather(actions, fee, stored, localhost, contract);
      var sum := AddAll([], ExpectedCoins(actions, fee));
      (g.Ok? <==> sum.Ok?) && (g.Ok? ==> g.value.owed == sum.value) && (g.Err? ==> g.error == Overflow)
  {
    TransfersOwed(actions, stored, localhost, contract);
    AddAllOpt(TransferCoins(actions), fee.dest);
    AddAllOpt(TransferCoins(actions) + OptCoin(fee.dest), fee.src);
  }

  /** `act` succeeds exactly when the connection has a channel and the funds
      received, as a ledger, hold each denom's total of transfers and fees and
      nothing else. It fails with `FundsMismatch` exactly when they differ and
      no total overflows; the only other errors are the missing channel and
      the overflow. */
  lemma ActFunds(stored: map<string, TraceItem>, channels: map<string, string>, defaultSecs: nat,
                 env: Platform, sender: Addr, funds: seq<Coin>, conn: string, actions: seq<Action>,
                 timeout: Option<Timeout>, fee: RelayerFee)
    ensures var r := ActSpec(stored, channels, defaultSecs, env, sender, funds, conn, actions, timeout, fee);
      var cs := ExpectedCoins(actions, fee);
      (r.Ok? <==> conn in channels && ToMap(funds) == Totals(cs)) &&
      (r.Err? && r.error.FundsMismatch? <==>
         conn in channels && (forall d :: Sum(cs, d) <= UINT128_MAX) && ToMap(funds) != Totals(cs)) &&
      (conn !in channels ==> r == Err(NotFound(conn))) &&
      (r.Err? && conn in channels ==> r.error == Overflow || r.error.FundsMismatch?) &&
      (r.Err? && r.error.FundsMismatch? ==>
         r.error.actual == Collect(funds) && ToMap(r.error.expected) == Totals(cs))
  {
    var cs := ExpectedCoins(actions, fee);
    AddAllFromEmpty(cs);
    if conn in channels {
      var localhost := Endpoint(env.portId, channels[conn]);
      GatherOwed(actions, fee, stored, localhost, env.contractAddr);
      if AddAll([], cs).Ok? {
        SortedCanonical(Collect(funds), AddAll([], cs).value);
      } else {
        var d :| Sum(cs, d) > UINT128_MAX;
        if d !in Denoms(cs) {
          SumOutsideDenoms(cs, d);
        }
        assert Totals(cs)[d] > UINT128_MAX;
        assert ToMap(funds) != Totals(cs) by {
          if d in ToMap(funds) {
            assert ToMap(funds)[d] <= UINT128_MAX;
          }
        }
      }
    }
  }

  // ------------------------------------------------------------------
  // The traces and messages `act` sends
  // ------------------------------------------------------------------

  /** The transferred denoms, in action order, repeats included. */
  function TransferDenoms(actions: seq<Action>): seq<string>
    decreases |actions|
  {
    if actions == [] then []
    else
      var a := actions[|actions| - 1];
      TransferDenoms(actions[..|actions| - 1]) + (if a.Transfer? then [a.denom] else [])
  }

  /** Each denom at its first appearance only. */
  function Dedup(s: seq<string>): seq<string>
    decreases |s|
  {
    if s == [] then []
    else
      var prev := Dedup(s[..|s| - 1]);
      if s[|s| - 1] in prev then prev else prev + [s[|s| - 1]]
  }

  lemma {:induction false} DedupSpec(s: seq<string>)
    ensures forall x :: x in Dedup(s) <==> x in s
    ensures forall i, j | 0 <= i < j < |Dedup(s)| :: Dedup(s)[i] != Dedup(s)[j]
    decreases |s|
  {
    if s != [] {
      var p := s[..|s| - 1];
      DedupSpec(p);
      assert s == p + [s[|s| - 1]];
    }
  }

  /** The full trace of each denom, as `trace_of` finds it. */
  function FullTraces(stored: map<string, TraceItem>, ds: seq<string>): (r: seq<Trace>)
    ensures |r| == |ds|
    ensures forall i | 0 <= i < |r| :: r[i] == IntoFullTrace(TraceOf(stored, ds[i]), ds[i])
  {
    seq(|ds|, i requires 0 <= i < |ds| => IntoFullTrace(TraceOf(stored, ds[i]), ds[i]))
  }

  lemma ContainsFull(stored: map<string, TraceItem>, ds: seq<string>, d: string)
    ensures ContainsDenom(FullTraces(stored, ds), d) <==> d in ds
  {
    var ts := FullTraces(stored, ds);
    if d in ds {
      var i :| 0 <= i < |ds| && ds[i] == d;
      assert ts[i].denom == d;
    }
  }

  lemma WithTraceFull(stored: map<string, TraceItem>, s: seq<string>, d: string)
    ensures WithTrace(FullTraces(stored, Dedup(s)), stored, d) == FullTraces(stored, Dedup(s + [d]))
  {
    assert (s + [d])[..|s|] == s;
    ContainsFull(stored, Dedup(s), d);
  }

  /** The loop records the trace of each transferred denom once, at its first appearance. */
  lemma {:induction false} TransfersTraces(actions: seq<Action>, stored: map<string, TraceItem>, localhost: Endpoint,
                                           contract: Addr)
    requires Transfers(actions, stored, localhost, contract).Ok?
    ensures Transfers(actions, stored, localhost, contract).value.traces
         == FullTraces(stored, Dedup(TransferDenoms(actions)))
    decreases |actions|
  {
    if actions != [] {
      var p := actions[..|actions| - 1];
      var a := actions[|actions| - 1];
      TransfersTraces(p, stored, localhost, contract);
      if a.Transfer? {
        WithTraceFull(stored, TransferDenoms(p), a.denom);
      } else {
        assert TransferDenoms(actions) == TransferDenoms(p) + [];
        assert TransferDenoms(p) + [] == TransferDenoms(p);
      }
    }
  }

  /** The burn messages of the loop: one per transfer whose trace says this
      chain is not the token's source, taken from the contract itself. */
  function Burns(actions: seq<Action>, stored: map<string, TraceItem>, localhost: Endpoint, contract: Addr): seq<CosmosMsg>
    decreases |actions|
  {
    if actions == [] then []
    else
      var a := actions[|actions| - 1];
      Burns(actions[..|actions| - 1], stored, localhost, contract) +
        (if a.Transfer? && !SenderIsSource(TraceOf(stored, a.denom), localhost)
         then [BurnMsg(Coin(a.denom, a.amount), contract)] else [])
  }

  /** The loop emits exactly the burns: escrowed coins produce no message. */
  lemma {:induction false} TransfersMsgs(actions: seq<Action>, stored: map<string, TraceItem>, localhost: Endpoint,
                                         contract: Addr)
    requires Transfers(actions, stored, localhost, contract).Ok?
    ensures Transfers(actions, stored, localhost, contract).value.msgs == Burns(actions, stored, localhost, contract)
    decreases |actions|
  {
    if actions != [] {
      var p := actions[..|actions| - 1];
      TransfersMsgs(p, stored, localhost, contract);
    }
  }

  function DestDenoms(fee: RelayerFee): seq<string> {
    if fee.dest.Some? then [fee.dest.value.denom] else []
  }

  lemma GatherTracesMsgs(actions: seq<Action>, fee: RelayerFee, stored: map<string, TraceItem>, localhost: Endpoint,
                         contract: Addr)
    requires Gather(actions, fee, stored, localhost, contract).Ok?
    ensures var g := Gather(actions, fee, stored, localhost, contract).value;
      g.traces == FullTraces(stored, Dedup(TransferDenoms(actions) + DestDenoms(fee))) &&
      g.msgs == Burns(actions, stored, localhost, contract)
  {
    var t := Transfers(actions, stored, localhost, contract);
    assert t.Ok?;
    var w := DestFee(t.value, fee.dest, stored);
    assert w.Ok?;
    assert Gather(actions, fee, stored, localhost, contract) == SrcFee(w.value, fee.src);
    TransfersTraces(actions, stored, localhost, contract);
    TransfersMsgs(actions, stored, localhost, contract);
    if fee.dest.Some? {
      WithTraceFull(stored, TransferDenoms(actions), fee.dest.value.denom);
    } else {
      assert TransferDenoms(actions) + DestDenoms(fee) == TransferDenoms(actions);
    }
  }

  /** What an accepted `act` sends: the burns, then one packet on the
      connection's channel carrying the sender, the actions unchanged, the
      relayer fee, and one trace per transferred or destination-fee denom (the
      source-fee denom is not traced for its own sake), each as `trace_of`
      finds it and in order of first appearance; the timeout is the given one
      or the default seconds after the block time. */
  lemma ActSends(stored: map<string, TraceItem>, channels: map<string, string>, defaultSecs: nat,
                 env: Platform, sender: Addr, funds: seq<Coin>, conn: string, actions: seq<Action>,
                 timeout: Option<Timeout>, fee: RelayerFee)
    requires ActSpec(stored, channels, defaultSecs, env, sender, funds, conn, actions, timeout, fee).Ok?
    ensures var res := ActSpec(stored, channels, defaultSecs, env, sender, funds, conn, actions, timeout, fee).value;
      var localhost := Endpoint(env.portId, channels[conn]);
      var ts := FullTraces(stored, Dedup(TransferDenoms(actions) + DestDenoms(fee)));
      conn in channels &&
      res.msgs == Plain(Burns(actions, stored, localhost, env.contractAddr)) +
        [SubMsg(SendPacket(channels[conn], PacketData(sender, actions, ts, fee),
                           if timeout.None? then AtTimestamp(env.blockTimeNanos + defaultSecs * NANOS_PER_SECOND)
                           else timeout.value), 0, Never)] &&
      (forall i, j | 0 <= i < j < |ts| :: ts[i].denom != ts[j].denom) &&
      (forall d :: ContainsDenom(ts, d) <==> d in TransferDenoms(actions) || d in DestDenoms(fee)) &&
      res.data == None
  {
    var localhost := Endpoint(env.portId, channels[conn]);
    GatherTracesMsgs(actions, fee, stored, localhost, env.contractAddr);
    var ds := Dedup(TransferDenoms(actions) + DestDenoms(fee));
    DedupSpec(TransferDenoms(actions) + DestDenoms(fee));
    forall d ensures ContainsDenom(FullTraces(stored, ds), d) <==> d in TransferDenoms(actions) || d in DestDenoms(fee) {
      ContainsFull(stored, ds, d);
    }
  }

  // ------------------------------------------------------------------
  // `packet_lifecycle_complete`
  // ------------------------------------------------------------------

  /** Messages and attributes pushed by the refund helpers. */
  datatype Effect = Effect(msgs: seq<CosmosMsg>, attrs: seq<Attribute>)

  function Then(a: Effect, b: Effect): Effect {
    Effect(a.msgs + b.msgs, a.attrs + b.attrs)
  }

  /** `refund`: the coin goes to `to`, released from escrow when this chain is
      the token's source, minted back otherwise. */
  function RefundEffect(to: Addr, coin: Coin, trace: TraceItem, src: Endpoint): Effect {
    if SenderIsSource(trace, src) then Effect([ReleaseMsg(coin, to)], CoinAttrs(coin, "release"))
    else Effect([MintMsg(coin, to)], CoinAttrs(coin, "mint"))
  }

  /** The refund loop over the packet's transfers, all to `to`. */
  function Refunds(actions: seq<Action>, stored: map<string, TraceItem>, to: Addr, src: Endpoint): Effect
    decreases |actions|
  {
    if actions == [] then Effect([], [])
    else
      var prev := Refunds(actions[..|actions| - 1], stored, to, src);
      var a := actions[|actions| - 1];
      if a.Transfer? then Then(prev, RefundEffect(to, Coin(a.denom, a.amount), TraceOf(stored, a.denom), src))
      else prev
  }

  /** A fee paid back to `to`, if there is one. */
  function FeeRefund(fee: Option<Coin>, to: Addr, stored: map<string, TraceItem>, src: Endpoint): Effect {
    if fee.Some? then RefundEffect(to, fee.value, TraceOf(stored, fee.value.denom), src) else Effect([], [])
  }

  function CompleteAttrs(packet: Packet, ack: Option<PacketAck>): seq<Attribute> {
    [Attribute("method", "packet_lifecycle_complete"),
     Attribute("channel_id", packet.src.channelId),
     Attribute("sequence", Decimal(packet.sequence)),
     Attribute("acknowledged", BoolString(ack.Some?)),
     Attribute("sender", packet.data.sender)]
  }

  /** The sender's callback, replied to whatever its outcome. */
  function Callback(packet: Packet, ack: Option<PacketAck>): SubMsg {
    SubMsg(WasmExecute(packet.data.sender, PacketCallback(packet.src.channelId, packet.sequence, ack)),
           AFTER_CALLBACK, Always)
  }

  /** What settling pushes: the refunded transfers on timeout or an error
      ack, the destination fee on timeout, then the source fee. */
  function SettleEffect(stored: map<string, TraceItem>, packet: Packet, ack: Option<PacketAck>, relayer: Addr): Effect {
    var pd := packet.data;
    var transfers := if ShouldRefund(ack) then Refunds(pd.actions, stored, pd.sender, packet.src) else Effect([], []);
    var dest := if ack.None? then FeeRefund(pd.relayerFee.dest, pd.sender, stored, packet.src) else Effect([], []);
    var src := FeeRefund(pd.relayerFee.src, relayer, stored, packet.src);
    Then(Then(transfers, dest), src)
  }

  /** `packet_lifecycle_complete`, as a function of the traces it reads; `ack`
      is None on timeout. */
  function CompleteSpec(stored: map<string, TraceItem>, packet: Packet, ack: Option<PacketAck>, relayer: Addr): Response {
    var e := SettleEffect(stored, packet, ack, relayer);
    Response(CompleteAttrs(packet, ack) + e.attrs, Plain(e.msgs) + [Callback(packet, ack)], None)
  }

  /** `refund`, pushing onto `effects`. */
  method Refund(effects: Effects, to: Addr, coin: Coin, trace: TraceItem, src: Endpoint)
    modifies effects
    ensures effects.msgs == old(effects.msgs) + RefundEffect(to, coin, trace, src).msgs
    ensures effects.attrs == old(effects.attrs) + RefundEffect(to, coin, trace, src).attrs
  {
    if SenderIsSource(trace, src) {
      effects.Release(coin, to);
    } else {
      effects.Mint(coin, to);
    }
  }

  /** The refund loop of `packet_lifecycle_complete`. */
  method RefundLoop(stored: map<string, TraceItem>, actions: seq<Action>, to: Addr, src: Endpoint, effects: Effects)
    requires effects.msgs == [] && effects.attrs == []
    modifies effects
    ensures Effect(effects.msgs, effects.attrs) == Refunds(actions, stored, to, src)
  {
    assert actions[..0] == [];
    var i := 0;
    while i < |actions|
      invariant i <= |actions|
      invariant Effect(effects.msgs, effects.attrs) == Refunds(actions[..i], stored, to, src)
    {
      assert actions[..i + 1][..i] == actions[..i];
      var action := actions[i];
      if action.Transfer? {
        Refund(effects, to, Coin(action.denom, action.amount), TraceOf(stored, action.denom), src);
      }
      i := i + 1;
    }
    assert actions[..|actions|] == actions;
  }

  /** The refunds and fee payments of `packet_lifecycle_complete`. */
  method Settle(stored: map<string, TraceItem>, packet: Packet, ack: Option<PacketAck>, relayer: Addr, effects: Effects)
    requires effects.msgs == [] && effects.attrs == []
    modifies effects
    ensures Effect(effects.msgs, effects.attrs) == SettleEffect(stored, packet, ack, relayer)
  {
    var pd := packet.data;
    if ShouldRefund(ack) {
      RefundLoop(stored, pd.actions, pd.sender, packet.src, effects);
    }
    var transfers := if ShouldRefund(ack) then Refunds(pd.actions, stored, pd.sender, packet.src) else Effect([], []);
    assert Effect(effects.msgs, effects.attrs) == transfers;
    if pd.relayerFee.dest.Some? && ack.None? {
      var fee := pd.relayerFee.dest.value;
      Refund(effects, pd.sender, fee, TraceOf(stored, fee.denom), packet.src);
    }
    var dest := if ack.None? then FeeRefund(pd.relayerFee.dest, pd.sender, stored, packet.src) else Effect([], []);
    assert Effect(effects.msgs, effects.attrs) == Then(transfers, dest);
    if pd.relayerFee.src.Some? {
      var fee := pd.relayerFee.src.value;
      Refund(effects, relayer, fee, TraceOf(stored, fee.denom), packet.src);
    }
  }

  /** `packet_lifecycle_complete`: on timeout or an error ack every transfer
      goes back to the sender; on timeout so does the destination fee; the
      source fee goes to the relayer; then the sender is called back. */
  method PacketLifecycleComplete(store: Store, packet: Packet, ack: Option<PacketAck>, relayer: Addr)
    returns (res: Response)
    ensures res == CompleteSpec(store.denomTraces, packet, ack, relayer)
  {
    var effects := new Effects();
    Settle(store.denomTraces, packet, ack, relayer, effects);
    res := Response(CompleteAttrs(packet, ack) + effects.attrs, Plain(effects.msgs) + [Callback(packet, ack)], None);
  }

  /** What settling a packet sends, by outcome: with a results ack only the
      source fee is paid; with an error ack the transfers are refunded too; on
      timeout the transfers and the destination fee are refunded. Whatever the
      outcome the last message is the sender's callback, replied to always
      under `AFTER_CALLBACK`, and nothing settles as response data. */
  lemma CompleteOutcome(stored: map<string, TraceItem>, packet: Packet, ack: Option<PacketAck>, relayer: Addr)
    ensures var res := CompleteSpec(stored, packet, ack, relayer);
      var pd := packet.data;
      var t := Refunds(pd.actions, stored, pd.sender, packet.src).msgs;
      var dm := FeeRefund(pd.relayerFee.dest, pd.sender, stored, packet.src).msgs;
      var sm := FeeRefund(pd.relayerFee.src, relayer, stored, packet.src).msgs;
      var cb := Callback(packet, ack);
      (ack.Some? && ack.value.Results? ==> res.msgs == Plain(sm) + [cb]) &&
      (ack.Some? && ack.value.Error? ==> res.msgs == Plain(t + sm) + [cb]) &&
      (ack.None? ==> res.msgs == Plain(t + dm + sm) + [cb]) &&
      cb.id == AFTER_CALLBACK && cb.replyOn == Always &&
      cb.msg == WasmExecute(pd.sender, PacketCallback(packet.src.channelId, packet.sequence, ack)) &&
      res.attrs[..5] == CompleteAttrs(packet, ack) && res.data == None
  {
    var pd := packet.data;
    var t := Refunds(pd.actions, stored, pd.sender, packet.src).msgs;
    var sm := FeeRefund(pd.relayerFee.src, relayer, stored, packet.src).msgs;
    assert [] + [] + sm == sm;
    assert t + [] + sm == t + sm;
  }

  // ------------------------------------------------------------------
  // Balances over a packet's life
  // ------------------------------------------------------------------

  /** The messages of a list of sub-messages. */
  function MsgsOf(subs: seq<SubMsg>): seq<CosmosMsg> {
    if subs == [] then [] else [subs[0].msg] + MsgsOf(subs[1..])
  }

  lemma {:induction false} MsgsOfPlain(ms: seq<CosmosMsg>, last: SubMsg)
    ensures MsgsOf(Plain(ms) + [last]) == ms + [last.msg]
    decreases |ms|
  {
    if ms == [] {
      assert Plain(ms) + [last] == [last];
    } else {
      assert (Plain(ms) + [last])[1..] == Plain(ms[1..]) + [last];
      MsgsOfPlain(ms[1..], last);
    }
  }

  /** `amount` of `fee` in denom `d`, when there is such a fee. */
  function FeeAmount(fee: Option<Coin>, d: string): nat {
    if fee.Some? && fee.value.denom == d then fee.value.amount else 0
  }

  /** `fee` ends up with `to`: what account `who` gains of denom `d` by it. */
  function Paid(fee: Option<Coin>, to: Addr, who: Addr, d: string): nat {
    if who == to then FeeAmount(fee, d) else 0
  }

  lemma SumOpt(cs: seq<Coin>, fee: Option<Coin>, d: string)
    ensures Sum(cs + OptCoin(fee), d) == Sum(cs, d) + FeeAmount(fee, d)
  {
    if fee.Some? {
      assert (cs + [fee.value])[..|cs|] == cs;
    } else {
      assert cs + OptCoin(fee) == cs;
    }
  }

  /** The bank adds up normalised funds the way the ledger does. */
  lemma {:induction false} SumOfSorted(es: seq<Coin>, d: string)
    requires Sorted(es)
    ensures SumOf(es, d) == AmountOf(es, d)
    decreases |es|
  {
    if es != [] {
      SortedHead(es);
      SumOfSorted(es[1..], d);
    }
  }

  /** A transfer's burn in `act` and its refund cancel out: over both, the
      sender regains each transferred amount and the contract gives it up. */
  lemma {:induction false} TransfersComeBack(actions: seq<Action>, stored: map<string, TraceItem>, src: Endpoint,
                                             contract: Addr, sender: Addr, who: Addr, d: string)
    ensures NetDelta(Burns(actions, stored, src, contract), contract, who, d)
          + NetDelta(Refunds(actions, stored, sender, src).msgs, contract, who, d)
         == (if who == sender then Sum(TransferCoins(actions), d) else 0)
          - (if who == contract then Sum(TransferCoins(actions), d) else 0)
    decreases |actions|
  {
    if actions != [] {
      var p := actions[..|actions| - 1];
      var a := actions[|actions| - 1];
      TransfersComeBack(p, stored, src, contract, sender, who, d);
      if a.Transfer? {
        var coin := Coin(a.denom, a.amount);
        var burn := if !SenderIsSource(TraceOf(stored, a.denom), src) then [BurnMsg(coin, contract)] else [];
        var back := RefundEffect(sender, coin, TraceOf(stored, a.denom), src).msgs;
        NetDeltaAppend(Burns(p, stored, src, contract), burn, contract, who, d);
        NetDeltaAppend(Refunds(p, stored, sender, src).msgs, back, contract, who, d);
        HelperMovements(coin, contract, sender, who, d);
        HelperMovements(coin, contract, contract, who, d);
        assert (TransferCoins(p) + [coin])[..|TransferCoins(p)|] == TransferCoins(p);
      } else {
        assert Burns(actions, stored, src, contract) == Burns(p, stored, src, contract) + [];
        assert Burns(p, stored, src, contract) + [] == Burns(p, stored, src, contract);
        assert TransferCoins(actions) == TransferCoins(p) + [];
        assert TransferCoins(p) + [] == TransferCoins(p);
      }
    }
  }

  /** The burn the corrected `act` makes of a relayer fee paid in a voucher. */
  function FeeBurn(fee: Option<Coin>, stored: map<string, TraceItem>, src: Endpoint, contract: Addr): seq<CosmosMsg> {
    if fee.Some? && !SenderIsSource(TraceOf(stored, fee.value.denom), src) then [BurnMsg(fee.value, contract)] else []
  }

  /** A relayer fee escrowed or burned on sending and paid out on settlement
      moves exactly from the contract to the payee. */
  lemma FeeComesOut(fee: Option<Coin>, payee: Addr, stored: map<string, TraceItem>, src: Endpoint,
                    contract: Addr, who: Addr, d: string)
    ensures NetDelta(FeeBurn(fee, stored, src, contract), contract, who, d)
          + NetDelta(FeeRefund(fee, payee, stored, src).msgs, contract, who, d)
         == Paid(fee, payee, who, d) - Paid(fee, contract, who, d)
  {
    if fee.Some? {
      HelperMovements(fee.value, contract, payee, who, d);
      HelperMovements(fee.value, contract, contract, who, d);
    }
  }

  /** `act` with the fix: a relayer fee paid in a voucher is burned from the
      contract like a transferred voucher. */
  function ActCorrected(stored: map<string, TraceItem>, channels: map<string, string>, defaultSecs: nat,
                        env: Platform, sender: Addr, funds: seq<Coin>, conn: string, actions: seq<Action>,
                        timeout: Option<Timeout>, fee: RelayerFee): Result<Response>
  {
    match ActSpec(stored, channels, defaultSecs, env, sender, funds, conn, actions, timeout, fee)
    case Err(e) => Err(e)
    case Ok(res) =>
      var localhost := Endpoint(env.portId, if conn in channels then channels[conn] else "");
      Ok(res.(msgs := Plain(FeeBurn(fee.dest, stored, localhost, env.contractAddr)
                            + FeeBurn(fee.src, stored, localhost, env.contractAddr)) + res.msgs))
  }

  /** With normalised funds (sorted, one coin per denom, as the bank delivers
      them), an accepted `act` received, in each denom, the transfers plus
      the fees. */
  lemma DepositAmount(stored: map<string, TraceItem>, channels: map<string, string>, defaultSecs: nat,
                      env: Platform, sender: Addr, funds: seq<Coin>, conn: string, actions: seq<Action>,
                      timeout: Option<Timeout>, fee: RelayerFee, d: string)
    requires ActSpec(stored, channels, defaultSecs, env, sender, funds, conn, actions, timeout, fee).Ok?
    requires Sorted(funds)
    ensures SumOf(funds, d) == Sum(TransferCoins(actions), d) + FeeAmount(fee.dest, d) + FeeAmount(fee.src, d)
  {
    var cs := ExpectedCoins(actions, fee);
    ActFunds(stored, channels, defaultSecs, env, sender, funds, conn, actions, timeout, fee);
    SumOfSorted(funds, d);
    if d !in Denoms(cs) {
      SumOutsideDenoms(cs, d);
    }
    SumOpt(TransferCoins(actions), fee.dest, d);
    SumOpt(TransferCoins(actions) + OptCoin(fee.dest), fee.src, d);
  }

  lemma NetDeltaSingleQuiet(m: CosmosMsg, executor: Addr, who: Addr, d: string)
    requires m.SendPacket? || m.WasmExecute?
    ensures NetDelta([m], executor, who, d) == 0
  {
    assert [m][1..] == [];
  }

  /** The messages of an accepted `act`: its burns, then the packet. */
  lemma ActMsgsShape(stored: map<string, TraceItem>, channels: map<string, string>, defaultSecs: nat,
                     env: Platform, sender: Addr, funds: seq<Coin>, conn: string, actions: seq<Action>,
                     timeout: Option<Timeout>, fee: RelayerFee)
    requires ActSpec(stored, channels, defaultSecs, env, sender, funds, conn, actions, timeout, fee).Ok?
    ensures var msgs := ActSpec(stored, channels, defaultSecs, env, sender, funds, conn, actions, timeout, fee).value.msgs;
      conn in channels && |msgs| > 0 && msgs[|msgs| - 1].msg.SendPacket? &&
      msgs == Plain(Burns(actions, stored, Endpoint(env.portId, channels[conn]), env.contractAddr)) + [msgs[|msgs| - 1]]
  {
    ActSends(stored, channels, defaultSecs, env, sender, funds, conn, actions, timeout, fee);
  }

  /** A packet sent after plain messages moves no tokens of its own. */
  lemma QuietTail(ms: seq<CosmosMsg>, last: SubMsg, c: Addr, who: Addr, d: string)
    requires last.msg.SendPacket?
    ensures NetDelta(MsgsOf(Plain(ms) + [last]), c, who, d) == NetDelta(ms, c, who, d)
  {
    MsgsOfPlain(ms, last);
    NetDeltaAppend(ms, [last.msg], c, who, d);
    NetDeltaSingleQuiet(last.msg, c, who, d);
  }

  /** The same with more plain messages put in front. */
  lemma QuietTailAfter(front: seq<CosmosMsg>, ms: seq<CosmosMsg>, last: SubMsg, c: Addr, who: Addr, d: string)
    requires last.msg.SendPacket?
    ensures NetDelta(MsgsOf(Plain(front) + (Plain(ms) + [last])), c, who, d)
      == NetDelta(front, c, who, d) + NetDelta(ms, c, who, d)
  {
    PlainAppend(front, ms);
    assert Plain(front) + (Plain(ms) + [last]) == Plain(front + ms) + [last];
    QuietTail(front + ms, last, c, who, d);
    NetDeltaAppend(front, ms, c, who, d);
  }

  /** Only the burns of an accepted `act` move tokens; the packet moves none here. */
  lemma SentDelta(stored: map<string, TraceItem>, channels: map<string, string>, defaultSecs: nat,
                  env: Platform, sender: Addr, funds: seq<Coin>, conn: string, actions: seq<Action>,
                  timeout: Option<Timeout>, fee: RelayerFee, who: Addr, d: string)
    requires conn in channels
    requires ActSpec(stored, channels, defaultSecs, env, sender, funds, conn, actions, timeout, fee).Ok?
    ensures var localhost := Endpoint(env.portId, channels[conn]);
      var c := env.contractAddr;
      NetDelta(MsgsOf(ActSpec(stored, channels, defaultSecs, env, sender, funds, conn, actions, timeout, fee).value.msgs), c, who, d)
        == NetDelta(Burns(actions, stored, localhost, c), c, who, d) &&
      NetDelta(MsgsOf(ActCorrected(stored, channels, defaultSecs, env, sender, funds, conn, actions, timeout, fee).value.msgs), c, who, d)
        == NetDelta(FeeBurn(fee.dest, stored, localhost, c) + FeeBurn(fee.src, stored, localhost, c), c, who, d)
         + NetDelta(Burns(actions, stored, localhost, c), c, who, d)
  {
    var localhost := Endpoint(env.portId, channels[conn]);
    var c := env.contractAddr;
    ActMsgsShape(stored, channels, defaultSecs, env, sender, funds, conn, actions, timeout, fee);
    var msgs := ActSpec(stored, channels, defaultSecs, env, sender, funds, conn, actions, timeout, fee).value.msgs;
    var burns := Burns(actions, stored, localhost, c);
    var fb := FeeBurn(fee.dest, stored, localhost, c) + FeeBurn(fee.src, stored, localhost, c);
    var last := msgs[|msgs| - 1];
    QuietTail(burns, last, c, who, d);
    assert ActCorrected(stored, channels, defaultSecs, env, sender, funds, conn, actions, timeout, fee).value.msgs
      == Plain(fb) + (Plain(burns) + [last]);
    QuietTailAfter(fb, burns, last, c, who, d);
  }

  /** What the messages of a settlement move: the refunded transfers, the
      destination fee on timeout, the source fee. */
  lemma DoneDelta(stored: map<string, TraceItem>, packet: Packet, ack: Option<PacketAck>, relayer: Addr,
                  c: Addr, who: Addr, d: string)
    requires ShouldRefund(ack)
    ensures var pd := packet.data;
      NetDelta(MsgsOf(CompleteSpec(stored, packet, ack, relayer).msgs), c, who, d)
        == NetDelta(Refunds(pd.actions, stored, pd.sender, packet.src).msgs, c, who, d)
         + (if ack.None? then NetDelta(FeeRefund(pd.relayerFee.dest, pd.sender, stored, packet.src).msgs, c, who, d) else 0)
         + NetDelta(FeeRefund(pd.relayerFee.src, relayer, stored, packet.src).msgs, c, who, d)
  {
    var pd := packet.data;
    var t := Refunds(pd.actions, stored, pd.sender, packet.src).msgs;
    var dm := if ack.None? then FeeRefund(pd.relayerFee.dest, pd.sender, stored, packet.src).msgs else [];
    var sm := FeeRefund(pd.relayerFee.src, relayer, stored, packet.src).msgs;
    var cb := Callback(packet, ack);
    assert CompleteSpec(stored, packet, ack, relayer).msgs == Plain(t + dm + sm) + [cb];
    MsgsOfPlain(t + dm + sm, cb);
    NetDeltaAppend(t + dm + sm, [cb.msg], c, who, d);
    NetDeltaSingleQuiet(cb.msg, c, who, d);
    NetDeltaAppend(t + dm, sm, c, who, d);
    NetDeltaAppend(t, dm, c, who, d);
  }

  /** The three stages of a refunded packet's life, each as what it moves:
      the deposit of transfers and fees, the burns of `act`, and the refunds
      and fee payments of the settlement. */
  lemma SettlementTotal(stored: map<string, TraceItem>, channels: map<string, string>, defaultSecs: nat,
                           env: Platform, sender: Addr, funds: seq<Coin>, conn: string, actions: seq<Action>,
                           timeout: Option<Timeout>, fee: RelayerFee, packet: Packet, ack: Option<PacketAck>,
                           relayer: Addr, who: Addr, d: string)
    requires conn in channels
    requires ActSpec(stored, channels, defaultSecs, env, sender, funds, conn, actions, timeout, fee).Ok?
    requires Sorted(funds)
    requires packet.src == Endpoint(env.portId, channels[conn])
    requires packet.data.sender == sender && packet.data.actions == actions && packet.data.relayerFee == fee
    requires ShouldRefund(ack)
    ensures var c := env.contractAddr;
      var localhost := Endpoint(env.portId, channels[conn]);
      var all: int := Sum(TransferCoins(actions), d) + FeeAmount(fee.dest, d) + FeeAmount(fee.src, d);
      Delta(BankSend(c, funds), sender, who, d)
        + NetDelta(MsgsOf(ActSpec(stored, channels, defaultSecs, env, sender, funds, conn, actions, timeout, fee).value.msgs), c, who, d)
        + NetDelta(MsgsOf(CompleteSpec(stored, packet, ack, relayer).msgs), c, who, d)
      == (if who == c then all else 0) - (if who == sender then all else 0)
        + NetDelta(Burns(actions, stored, localhost, c), c, who, d)
        + NetDelta(Refunds(actions, stored, sender, localhost).msgs, c, who, d)
        + (if ack.None? then NetDelta(FeeRefund(fee.dest, sender, stored, localhost).msgs, c, who, d) else 0)
        + NetDelta(FeeRefund(fee.src, relayer, stored, localhost).msgs, c, who, d)
  {
    var c := env.contractAddr;
    var localhost := Endpoint(env.portId, channels[conn]);
    var all: int := Sum(TransferCoins(actions), d) + FeeAmount(fee.dest, d) + FeeAmount(fee.src, d);
    assert Delta(BankSend(c, funds), sender, who, d) == (if who == c then all else 0) - (if who == sender then all else 0) by {
      DepositAmount(stored, channels, defaultSecs, env, sender, funds, conn, actions, timeout, fee, d);
    }
    assert NetDelta(MsgsOf(ActSpec(stored, channels, defaultSecs, env, sender, funds, conn, actions, timeout, fee).value.msgs), c, who, d)
      == NetDelta(Burns(actions, stored, localhost, c), c, who, d) by {
      SentDelta(stored, channels, defaultSecs, env, sender, funds, conn, actions, timeout, fee, who, d);
    }
    assert NetDelta(MsgsOf(CompleteSpec(stored, packet, ack, relayer).msgs), c, who, d)
      == NetDelta(Refunds(actions, stored, sender, localhost).msgs, c, who, d)
       + (if ack.None? then NetDelta(FeeRefund(fee.dest, sender, stored, localhost).msgs, c, who, d) else 0)
       + NetDelta(FeeRefund(fee.src, relayer, stored, localhost).msgs, c, who, d) by {
      DoneDelta(stored, packet, ack, relayer, c, who, d);
    }
  }

  /** Balances over a refunded packet's life, for `act` as written: the
      deposit, the messages of `act` and those of the settlement together
      leave every account where it was, except that the source relayer is
      paid by the sender and, with an error ack, the sender also forfeits the
      destination fee; but every relayer fee paid in a voucher is left over
      in the contract while it is also paid out, which the last term subtracts. */
  lemma SettlementBalances(stored: map<string, TraceItem>, channels: map<string, string>, defaultSecs: nat,
                           env: Platform, sender: Addr, funds: seq<Coin>, conn: string, actions: seq<Action>,
                           timeout: Option<Timeout>, fee: RelayerFee, packet: Packet, ack: Option<PacketAck>,
                           relayer: Addr, who: Addr, d: string)
    requires conn in channels
    requires ActSpec(stored, channels, defaultSecs, env, sender, funds, conn, actions, timeout, fee).Ok?
    requires Sorted(funds)
    requires packet.src == Endpoint(env.portId, channels[conn])
    requires packet.data.sender == sender && packet.data.actions == actions && packet.data.relayerFee == fee
    requires ShouldRefund(ack)
    ensures var c := env.contractAddr;
      var localhost := Endpoint(env.portId, channels[conn]);
      var total := Delta(BankSend(c, funds), sender, who, d)
        + NetDelta(MsgsOf(ActSpec(stored, channels, defaultSecs, env, sender, funds, conn, actions, timeout, fee).value.msgs), c, who, d)
        + NetDelta(MsgsOf(CompleteSpec(stored, packet, ack, relayer).msgs), c, who, d);
      var unburned := NetDelta(FeeBurn(fee.dest, stored, localhost, c) + FeeBurn(fee.src, stored, localhost, c), c, who, d);
      (ack.None? ==> total == Paid(fee.src, relayer, who, d) - Paid(fee.src, sender, who, d) - unburned) &&
      (ack.Some? && who != c ==>
         total == Paid(fee.src, relayer, who, d) - Paid(fee.src, sender, who, d) - Paid(fee.dest, sender, who, d))
  {
    var c := env.contractAddr;
    var localhost := Endpoint(env.portId, channels[conn]);
    SettlementTotal(stored, channels, defaultSecs, env, sender, funds, conn, actions, timeout, fee, packet, ack,
                    relayer, who, d);
    NetDeltaAppend(FeeBurn(fee.dest, stored, localhost, c), FeeBurn(fee.src, stored, localhost, c), c, who, d);
    PartsComeBack(actions, fee, stored, localhost, c, sender, relayer, who, d);
    BalanceArithmetic(Delta(BankSend(c, funds), sender, who, d)
                        + NetDelta(MsgsOf(ActSpec(stored, channels, defaultSecs, env, sender, funds, conn, actions, timeout, fee).value.msgs), c, who, d)
                        + NetDelta(MsgsOf(CompleteSpec(stored, packet, ack, relayer).msgs), c, who, d),
                      NetDelta(Burns(actions, stored, localhost, c), c, who, d),
                      NetDelta(Refunds(actions, stored, sender, localhost).msgs, c, who, d),
                      NetDelta(FeeBurn(fee.dest, stored, localhost, c), c, who, d),
                      NetDelta(FeeBurn(fee.src, stored, localhost, c), c, who, d),
                      NetDelta(FeeRefund(fee.dest, sender, stored, localhost).msgs, c, who, d),
                      NetDelta(FeeRefund(fee.src, relayer, stored, localhost).msgs, c, who, d),
                      Sum(TransferCoins(actions), d), FeeAmount(fee.dest, d), FeeAmount(fee.src, d),
                      who == c, who == sender, who == relayer, ack.None?);
  }

  /** Over a refunded packet, each part of the deposit is burned or kept by
      `act` and then minted or released by the settlement: the transfers and
      the destination fee back to the sender, the source fee to the relayer. */
  lemma PartsComeBack(actions: seq<Action>, fee: RelayerFee, stored: map<string, TraceItem>, localhost: Endpoint,
                      c: Addr, sender: Addr, relayer: Addr, who: Addr, d: string)
    ensures NetDelta(Burns(actions, stored, localhost, c), c, who, d)
          + NetDelta(Refunds(actions, stored, sender, localhost).msgs, c, who, d)
         == (if who == sender then Sum(TransferCoins(actions), d) else 0)
          - (if who == c then Sum(TransferCoins(actions), d) else 0)
    ensures NetDelta(FeeBurn(fee.dest, stored, localhost, c), c, who, d)
          + NetDelta(FeeRefund(fee.dest, sender, stored, localhost).msgs, c, who, d)
         == (if who == sender then FeeAmount(fee.dest, d) else 0) - (if who == c then FeeAmount(fee.dest, d) else 0)
    ensures NetDelta(FeeBurn(fee.src, stored, localhost, c), c, who, d)
          + NetDelta(FeeRefund(fee.src, relayer, stored, localhost).msgs, c, who, d)
         == (if who == relayer then FeeAmount(fee.src, d) else 0) - (if who == c then FeeAmount(fee.src, d) else 0)
    ensures who != c ==>
      NetDelta(FeeBurn(fee.dest, stored, localhost, c), c, who, d) == 0 &&
      NetDelta(FeeBurn(fee.src, stored, localhost, c), c, who, d) == 0
  {
    TransfersComeBack(actions, stored, localhost, c, sender, who, d);
    FeeComesOut(fee.dest, sender, stored, localhost, c, who, d);
    FeeComesOut(fee.src, relayer, stored, localhost, c, who, d);
    FeeBurnOnlyContract(fee.dest, stored, localhost, c, who, d);
    FeeBurnOnlyContract(fee.src, stored, localhost, c, who, d);
  }

  /** A fee burn is taken from the contract and touches no other account. */
  lemma FeeBurnOnlyContract(fee: Option<Coin>, stored: map<string, TraceItem>, src: Endpoint, c: Addr, who: Addr, d: string)
    ensures who != c ==> NetDelta(FeeBurn(fee, stored, src, c), c, who, d) == 0
  {
    if fee.Some? {
      assert [BurnMsg(fee.value, c)][1..] == [];
    }
  }

  /** The bookkeeping behind `SettlementBalances`, over the amounts alone. */
  lemma BalanceArithmetic(total: int, burns: int, back: int, destBurn: int, srcBurn: int, destBack: int, srcOut: int,
                          t: int, dst: int, src: int, isContract: bool, isSender: bool, isRelayer: bool, timedOut: bool)
    requires total == (if isContract then t + dst + src else 0) - (if isSender then t + dst + src else 0)
                      + burns + back + (if timedOut then destBack else 0) + srcOut
    requires burns + back == (if isSender then t else 0) - (if isContract then t else 0)
    requires destBurn + destBack == (if isSender then dst else 0) - (if isContract then dst else 0)
    requires srcBurn + srcOut == (if isRelayer then src else 0) - (if isContract then src else 0)
    requires !isContract ==> destBurn == 0 && srcBurn == 0
    ensures timedOut ==>
      total == (if isRelayer then src else 0) - (if isSender then src else 0) - (destBurn + srcBurn)
    ensures !timedOut && !isContract ==>
      total == (if isRelayer then src else 0) - (if isSender then src else 0) - (if isSender then dst else 0)
  {
  }

  /** The same for the corrected `act`: a timed-out packet leaves every
      account as it was except that the sender has paid the source relayer. */
  lemma SettlementBalancesCorrected(stored: map<string, TraceItem>, channels: map<string, string>, defaultSecs: nat,
                                    env: Platform, sender: Addr, funds: seq<Coin>, conn: string, actions: seq<Action>,
                                    timeout: Option<Timeout>, fee: RelayerFee, packet: Packet, relayer: Addr,
                                    who: Addr, d: string)
    requires conn in channels
    requires ActCorrected(stored, channels, defaultSecs, env, sender, funds, conn, actions, timeout, fee).Ok?
    requires Sorted(funds)
    requires packet.src == Endpoint(env.portId, channels[conn])
    requires packet.data.sender == sender && packet.data.actions == actions && packet.data.relayerFee == fee
    ensures var c := env.contractAddr;
      Delta(BankSend(c, funds), sender, who, d)
        + NetDelta(MsgsOf(ActCorrected(stored, channels, defaultSecs, env, sender, funds, conn, actions, timeout, fee).value.msgs), c, who, d)
        + NetDelta(MsgsOf(CompleteSpec(stored, packet, None, relayer).msgs), c, who, d)
      == Paid(fee.src, relayer, who, d) - Paid(fee.src, sender, who, d)
  {
    SettlementBalances(stored, channels, defaultSecs, env, sender, funds, conn, actions, timeout, fee, packet, None,
                       relayer, who, d);
    SentDelta(stored, channels, defaultSecs, env, sender, funds, conn, actions, timeout, fee, who, d);
  }

  /** As written, a source relayer fee paid in a voucher is created twice on
      timeout: the contract keeps the 100 vouchers it was sent while 100 new
      ones are minted to the relayer. */
  lemma VoucherFeeMintedTwice(env: Platform, relayer: Addr)
    requires env.contractAddr != "larry" && env.contractAddr != relayer
    ensures var localhost := Endpoint(env.portId, "channel-0");
      var stored := map["ibc/v" := TraceItem("uatom", [localhost])];
      var channels := map["connection-0" := "channel-0"];
      var fee := RelayerFee(None, Some(Coin("ibc/v", 100)));
      var actions := [RegisterAccount(None)];
      var funds := [Coin("ibc/v", 100)];
      var sent := ActSpec(stored, channels, 300, env, "larry", funds, "connection-0", actions, None, fee);
      var packet := Packet(localhost, localhost, 1, PacketData("larry", actions, [], fee));
      var c := env.contractAddr;
      sent.Ok? &&
      Delta(BankSend(c, funds), "larry", c, "ibc/v")
        + NetDelta(MsgsOf(sent.value.msgs), c, c, "ibc/v")
        + NetDelta(MsgsOf(CompleteSpec(stored, packet, None, relayer).msgs), c, c, "ibc/v")
      == 100
  {
    var localhost := Endpoint(env.portId, "channel-0");
    var stored := map["ibc/v" := TraceItem("uatom", [localhost])];
    var channels := map["connection-0" := "channel-0"];
    var fee := RelayerFee(None, Some(Coin("ibc/v", 100)));
    var actions := [RegisterAccount(None)];
    var funds := [Coin("ibc/v", 100)];
    var c := env.contractAddr;
    var packet := Packet(localhost, localhost, 1, PacketData("larry", actions, [], fee));
    assert actions[..0] == [];
    assert TransferCoins(actions) == [];
    assert ExpectedCoins(actions, fee) == funds;
    assert funds[..0] == [] && funds[1..] == [];
    assert Denoms(funds) == {"ibc/v"} by {
      assert funds[0].denom == "ibc/v";
    }
    assert Totals(funds) == map["ibc/v" := 100] == ToMap(funds);
    ActFunds(stored, channels, 300, env, "larry", funds, "connection-0", actions, None, fee);
    assert Burns(actions, stored, localhost, c) == [];
    assert FeeBurn(fee.src, stored, localhost, c) == [BurnMsg(Coin("ibc/v", 100), c)];
    assert NetDelta([BurnMsg(Coin("ibc/v", 100), c)], c, c, "ibc/v") == -100 by {
      assert [BurnMsg(Coin("ibc/v", 100), c)][1..] == [];
    }
    assert [] + [BurnMsg(Coin("ibc/v", 100), c)] == [BurnMsg(Coin("ibc/v", 100), c)];
    SettlementBalances(stored, channels, 300, env, "larry", funds, "connection-0", actions, None, fee, packet, None,
                       relayer, c, "ibc/v");
  }

  // ------------------------------------------------------------------
  // The unit test `asserting_funds`, as lemmas
  // ------------------------------------------------------------------

  const TestActions: seq<Action> := [
    Transfer("uatom", 10000, None),
    Transfer("uosmo", 23456, None),
    Transfer("uatom", 2345, Some("pumpkin"))]

  const NoFee := RelayerFee(None, None)

  const TestCoins: seq<Coin> := [Coin("uatom", 10000), Coin("uosmo", 23456), Coin("uatom", 2345)]

  lemma TestExpected()
    ensures ExpectedCoins(TestActions, NoFee) == TestCoins
  {
    assert TestActions[..2][..1] == TestActions[..1];
    assert TransferCoins(TestActions[..1]) == TestCoins[..1];
    assert TransferCoins(TestActions[..2]) == TestCoins[..2];
    assert TransferCoins(TestActions) == TestCoins;
  }

  lemma TestSums()
    ensures Sum(TestCoins, "uatom") == 12345 && Sum(TestCoins, "uosmo") == 23456
  {
    var c1 := [Coin("uatom", 10000)];
    var c2 := c1 + [Coin("uosmo", 23456)];
    assert "uatom" != "uosmo" by { assert "uatom"[1] != "uosmo"[1]; }
    assert TestCoins[..2] == c2 && c2[..1] == c1 && c1[..0] == [];
    assert Sum(c1, "uatom") == 10000 && Sum(c1, "uosmo") == 0;
    assert Sum(c2, "uatom") == 10000 && Sum(c2, "uosmo") == 23456;
  }

  lemma TestTotals()
    ensures forall d :: Sum(ExpectedCoins(TestActions, NoFee), d) <= UINT128_MAX
    ensures Totals(ExpectedCoins(TestActions, NoFee)) == map["uatom" := 12345, "uosmo" := 23456]
  {
    TestExpected();
    TestSums();
    var cs := TestCoins;
    assert Denoms(cs) == {"uatom", "uosmo"} by {
      assert cs[0].denom == "uatom" && cs[1].denom == "uosmo" && cs[2].denom == "uatom";
    }
    forall d ensures Sum(cs, d) <= UINT128_MAX {
      if d !in Denoms(cs) {
        SumOutsideDenoms(cs, d);
      }
    }
  }

  /** The test's five deposits, as maps: only the last is what is owed. */
  lemma TestFundMaps()
    ensures var expected := map["uatom" := 12345, "uosmo" := 23456];
      ToMap([]) != expected && ToMap([Coin("uatom", 12345)]) != expected &&
      ToMap([Coin("uatom", 12345), Coin("uosmo", 12345)]) != expected &&
      ToMap([Coin("uatom", 12345), Coin("uosmo", 23456), Coin("ujuno", 34567)]) != expected &&
      ToMap([Coin("uatom", 12345), Coin("uosmo", 23456)]) == expected
  {
    var expected := map["uatom" := 12345, "uosmo" := 23456];
    assert "uatom"[1] != "uosmo"[1] && "uatom"[1] != "ujuno"[1] && "uosmo"[1] != "ujuno"[1];
    var f0: seq<Coin> := [];
    var f1 := [Coin("uatom", 12345)];
    var f2 := [Coin("uatom", 12345), Coin("uosmo", 12345)];
    var f3 := [Coin("uatom", 12345), Coin("uosmo", 23456), Coin("ujuno", 34567)];
    var f4 := [Coin("uatom", 12345), Coin("uosmo", 23456)];
    assert ToMap(f0) == map[] && "uatom" in expected;
    assert ToMap(f1) == map["uatom" := 12345] != expected by {
      assert f1[1..] == [];
      assert "uosmo" !in ToMap(f1);
    }
    assert ToMap(f2)["uosmo"] == 12345 by {
      assert f2[1..] == [Coin("uosmo", 12345)] && f2[1..][1..] == [];
    }
    assert ToMap(f3) != expected by {
      assert f3[1..][1..][1..] == [];
      assert "ujuno" in ToMap(f3);
    }
    assert ToMap(f4) == expected by {
      assert f4[1..] == [Coin("uosmo", 23456)] && f4[1..][1..] == [];
    }
  }

  /** The test's `act` on given funds: accepted exactly when they add up to
      12345 uatom and 23456 uosmo, refused with `FundsMismatch` otherwise. */
  lemma TestAct(stored: map<string, TraceItem>, env: Platform, funds: seq<Coin>)
    ensures var r := ActSpec(stored, map["connection-0" := "channel-0"], 300, env, "larry", funds, "connection-0",
                              TestActions, None, NoFee);
      (ToMap(funds) == map["uatom" := 12345, "uosmo" := 23456] ==> r.Ok?) &&
      (ToMap(funds) != map["uatom" := 12345, "uosmo" := 23456] ==> r.Err? && r.error.FundsMismatch?)
  {
    TestTotals();
    ActFunds(stored, map["connection-0" := "channel-0"], 300, env, "larry", funds, "connection-0", TestActions, None, NoFee);
  }

  /** For transfers of 10000 uatom, 23456 uosmo and 2345 uatom over an open
      channel and no relayer fees, only exactly 12345 uatom and 23456 uosmo
      are accepted; no funds, uatom alone, too little uosmo, or an extra ujuno
      are each refused with `FundsMismatch`. */
  lemma AssertingFunds(stored: map<string, TraceItem>, env: Platform)
    ensures var act := (funds: seq<Coin>) =>
      ActSpec(stored, map["connection-0" := "channel-0"], 300, env, "larry", funds, "connection-0",
              TestActions, None, NoFee);
      act([]).Err? && act([]).error.FundsMismatch? &&
      act([Coin("uatom", 12345)]).Err? && act([Coin("uatom", 12345)]).error.FundsMismatch? &&
      act([Coin("uatom", 12345), Coin("uosmo", 12345)]).Err? &&
      act([Coin("uatom", 12345), Coin("uosmo", 12345)]).error.FundsMismatch? &&
      act([Coin("uatom", 12345), Coin("uosmo", 23456), Coin("ujuno", 34567)]).Err? &&
      act([Coin("uatom", 12345), Coin("uosmo", 23456), Coin("ujuno", 34567)]).error.FundsMismatch? &&
      act([Coin("uatom", 12345), Coin("uosmo", 23456)]).Ok?
  {
    TestFundMaps();
    TestAct(stored, env, []);
    TestAct(stored, env, [Coin("uatom", 12345)]);
    TestAct(stored, env, [Coin("uatom", 12345), Coin("uosmo", 12345)]);
    TestAct(stored, env, [Coin("uatom", 12345), Coin("uosmo", 23456), Coin("ujuno", 34567)]);
    TestAct(stored, env, [Coin("uatom", 12345), Coin("uosmo", 23456)]);
  }
}
