/** The older sending side (contracts/core/src/execute.rs): `act` before relayer
    fees existed. A transfer whose denom has a stored trace is burned from the
    message sender and its trace is pushed, repeats included; any other
    transfer is escrowed. The funds must match the transfers alone, and the
    channel is looked up only after that check. */
module LegacyExecute {
  import opened Types
  import opened Ledger
  import opened Traces
  import opened Accounting
  import opened State
  import opened Controller

  /** Packets of this version carry no relayer fee. */
  const NoRelayerFee := RelayerFee(None, None)

  // ------------------------------------------------------------------
  // `act`, as a specification
  // ------------------------------------------------------------------

  /** The loop body for one Transfer. */
  function LegacyStep(acc: Acc, a: Action, stored: map<string, TraceItem>, sender: Addr): (r: Result<Acc>)
    requires Sorted(acc.owed) && a.Transfer?
    ensures r.Ok? ==> Sorted(r.value.owed)
  {
    var coin := Coin(a.denom, a.amount);
    var moved :=
      if a.denom in stored then
        acc.(traces := acc.traces + [IntoFullTrace(stored[a.denom], a.denom)],
             msgs := acc.msgs + [BurnMsg(coin, sender)], attrs := acc.attrs + CoinAttrs(coin, "burn"))
      else acc.(attrs := acc.attrs + CoinAttrs(coin, "escrow"));
    var owed :- AddCoin(acc.owed, coin);
    Ok(moved.(owed := owed))
  }

  function LegacyTransfers(actions: seq<Action>, stored: map<string, TraceItem>, sender: Addr): (r: Result<Acc>)
    ensures r.Ok? ==> Sorted(r.value.owed)
    decreases |actions|
  {
    if actions == [] then Ok(Acc([], [], [], []))
    else
      var acc :- LegacyTransfers(actions[..|actions| - 1], stored, sender);
      var a := actions[|actions| - 1];
      if a.Transfer? then LegacyStep(acc, a, stored, sender) else Ok(acc)
  }

  /** The older `act`, as a function of the storage it reads and its inputs. */
  function LegacyActSpec(stored: map<string, TraceItem>, channels: map<string, string>, defaultSecs: nat,
                         env: Platform, sender: Addr, funds: seq<Coin>, conn: string, actions: seq<Action>,
                         timeout: Option<Timeout>): Result<Response>
  {
    var acc :- LegacyTransfers(actions, stored, sender);
    var received := Collect(funds);
    if received != acc.owed then Err(FundsMismatch(received, acc.owed))
    else if conn !in channels then Err(NotFound(conn))
    else
      var packet := PacketData(sender, actions, acc.traces, NoRelayerFee);
      var send := SendPacket(channels[conn], packet, ResolveTimeout(timeout, env.blockTimeNanos, defaultSecs));
      Ok(Response([Attribute("action", "act")] + acc.attrs, Plain(acc.msgs) + [SubMsg(send, 0, Never)], None))
  }

  lemma {:induction false} LegacyErrSticks(actions: seq<Action>, n: nat, stored: map<string, TraceItem>, sender: Addr)
    requires n <= |actions| && LegacyTransfers(actions[..n], stored, sender).Err?
    ensures LegacyTransfers(actions, stored, sender) == LegacyTransfers(actions[..n], stored, sender)
    decreases |actions|
  {
    if n < |actions| {
      var p := actions[..|actions| - 1];
      assert p[..n] == actions[..n];
      LegacyErrSticks(p, n, stored, sender);
    } else {
      assert actions[..n] == actions;
    }
  }

  // ------------------------------------------------------------------
  // `act`
  // ------------------------------------------------------------------

  method LegacyLoop(stored: map<string, TraceItem>, sender: Addr, actions: seq<Action>, owed: Coins, effects: Effects)
    returns (traces: seq<Trace>, r: Result<()>)
    requires owed.entries == [] && effects.msgs == [] && effects.attrs == []
    modifies owed, effects
    ensures owed.Valid()
    ensures r.Ok? <==> LegacyTransfers(actions, stored, sender).Ok?
    ensures r.Ok? ==> LegacyTransfers(actions, stored, sender) == Ok(Acc(effects.msgs, effects.attrs, traces, owed.entries))
    ensures r.Err? ==> LegacyTransfers(actions, stored, sender) == Err(r.error)
  {
    traces := [];
    assert actions[..0] == [];
    var i := 0;
    while i < |actions|
      invariant i <= |actions|
      invariant owed.Valid()
      invariant LegacyTransfers(actions[..i], stored, sender) == Ok(Acc(effects.msgs, effects.attrs, traces, owed.entries))
    {
      var action := actions[i];
      assert actions[..i + 1][..i] == actions[..i];
      if action.Transfer? {
        var coin := Coin(action.denom, action.amount);
        if action.denom in stored {
          // this chain is the sink: the voucher is burned
          var trace := stored[action.denom];
          traces := traces + [IntoFullTrace(trace, action.denom)];
          effects.Burn(coin, sender);
        } else {
          // this chain is the source: the coin stays in escrow
          effects.Escrow(coin);
        }
        var added := owed.Add(coin);
        if added.Err? {
          LegacyErrSticks(actions, i + 1, stored, sender);
          return traces, Err(added.error);
        }
      }
      i := i + 1;
    }
    assert actions[..|actions|] == actions;
    r := Ok(());
  }

  /** The older `act`. */
  method LegacyAct(store: Store, env: Platform, sender: Addr, funds: seq<Coin>, conn: string,
                   actions: seq<Action>, timeout: Option<Timeout>) returns (r: Result<Response>)
    ensures r == LegacyActSpec(store.denomTraces, store.activeChannels, store.defaultTimeoutSecs,
                               env, sender, funds, conn, actions, timeout)
  {
    var received := new Coins.FromVec(funds);
    var sending := new Coins.Empty();
    EmptyMap(sending.entries);
    var effects := new Effects();

    var traces, looped := LegacyLoop(store.denomTraces, sender, actions, sending, effects);
    if looped.Err? {
      return Err(looped.error);
    }

    SortedCanonical(received.entries, sending.entries);
    if !received.Equals(sending) {
      return Err(FundsMismatch(received.ToVec(), sending.ToVec()));
    }

    var t := ResolveTimeout(timeout, env.blockTimeNanos, store.defaultTimeoutSecs);
    if conn !in store.activeChannels {
      return Err(NotFound(conn));
    }
    var channelId := store.activeChannels[conn];
    var packet := PacketData(sender, actions, traces, NoRelayerFee);
    r := Ok(Response([Attribute("action", "act")] + effects.attrs,
                     Plain(effects.msgs) + [SubMsg(SendPacket(channelId, packet, t), 0, Never)], None));
  }

  // ------------------------------------------------------------------
  // What the older `act` owes, accepts and sends
  // ------------------------------------------------------------------

  lemma {:induction false} LegacyOwed(actions: seq<Action>, stored: map<string, TraceItem>, sender: Addr)
    ensures var t := LegacyTransfers(actions, stored, sender);
      var sum := AddAll([], TransferCoins(actions));
      (t.Ok? <==> sum.Ok?) && (t.Ok? ==> t.value.owed == sum.value) && (t.Err? ==> t.error == Overflow)
    decreases |actions|
  {
    if actions != [] {
      var p := actions[..|actions| - 1];
      var a := actions[|actions| - 1];
      LegacyOwed(p, stored, sender);
      if a.Transfer? {
        AddAllSnoc([], TransferCoins(p), Coin(a.denom, a.amount));
      } else {
        assert TransferCoins(actions) == TransferCoins(p) + [];
        assert TransferCoins(p) + [] == TransferCoins(p);
      }
    }
  }

  /** The older `act` succeeds exactly when the funds, as a ledger, hold each
      denom's transfer total and nothing else, and the connection has a
      channel. It fails with `FundsMismatch` exactly when they differ and no
      total overflows, whether or not a channel exists: the funds are checked
      first. */
  lemma LegacyFunds(stored: map<string, TraceItem>, channels: map<string, string>, defaultSecs: nat,
                    env: Platform, sender: Addr, funds: seq<Coin>, conn: string, actions: seq<Action>,
                    timeout: Option<Timeout>)
    ensures var r := LegacyActSpec(stored, channels, defaultSecs, env, sender, funds, conn, actions, timeout);
      var cs := TransferCoins(actions);
      (r.Ok? <==> conn in channels && ToMap(funds) == Totals(cs)) &&
      (r.Err? && r.error.FundsMismatch? <==> (forall d :: Sum(cs, d) <= UINT128_MAX) && ToMap(funds) != Totals(cs)) &&
      (ToMap(funds) == Totals(cs) && conn !in channels ==> r == Err(NotFound(conn))) &&
      (r.Err? ==> r.error == Overflow || r.error.FundsMismatch? || r.error == NotFound(conn)) &&
      (r.Err? && r.error.FundsMismatch? ==>
         r.error.actual == Collect(funds) && ToMap(r.error.expected) == Totals(cs))
  {
    var cs := TransferCoins(actions);
    AddAllFromEmpty(cs);
    LegacyOwed(actions, stored, sender);
    if AddAll([], cs).Ok? {
      SortedCanonical(Collect(funds), AddAll([], cs).value);
    } else {
      var d :| Sum(cs, d) > UINT128_MAX;
      if d !in Denoms(cs) {
        SumOutsideDenoms(cs, d);
      }
      assert Totals(cs)[d] > UINT128_MAX;
      assert ToMap(funds) != Totals(cs) by {
        if d in ToMap(funds) {
          assert ToMap(funds)[d] <= UINT128_MAX;
        }
      }
    }
  }

  /** One full trace per transfer of a denom that has a stored trace, in action
      order and with repeats. */
  function StoredTraces(actions: seq<Action>, stored: map<string, TraceItem>): seq<Trace>
    decreases |actions|
  {
    if actions == [] then []
    else
      var a := actions[|actions| - 1];
      StoredTraces(actions[..|actions| - 1], stored) +
        (if a.Transfer? && a.denom in stored then [IntoFullTrace(stored[a.denom], a.denom)] else [])
  }

  /** One burn from the sender per transfer of a denom that has a stored trace. */
  function SenderBurns(actions: seq<Action>, stored: map<string, TraceItem>, sender: Addr): seq<CosmosMsg>
    decreases |actions|
  {
    if actions == [] then []
    else
      var a := actions[|actions| - 1];
      SenderBurns(actions[..|actions| - 1], stored, sender) +
        (if a.Transfer? && a.denom in stored then [BurnMsg(Coin(a.denom, a.amount), sender)] else [])
  }

  lemma {:induction false} LegacyShape(actions: seq<Action>, stored: map<string, TraceItem>, sender: Addr)
    requires LegacyTransfers(actions, stored, sender).Ok?
    ensures LegacyTransfers(actions, stored, sender).value.traces == StoredTraces(actions, stored)
    ensures LegacyTransfers(actions, stored, sender).value.msgs == SenderBurns(actions, stored, sender)
    decreases |actions|
  {
    if actions != [] {
      LegacyShape(actions[..|actions| - 1], stored, sender);
    }
  }

  /** What an accepted older `act` sends: a burn from the sender for each
      traced denom, then one packet on the connection's channel with the
      sender, the actions unchanged, the stored traces and no relayer fee; the
      first attribute names the action. */
  lemma LegacySends(stored: map<string, TraceItem>, channels: map<string, string>, defaultSecs: nat,
                    env: Platform, sender: Addr, funds: seq<Coin>, conn: string, actions: seq<Action>,
                    timeout: Option<Timeout>)
    requires LegacyActSpec(stored, channels, defaultSecs, env, sender, funds, conn, actions, timeout).Ok?
    ensures var res := LegacyActSpec(stored, channels, defaultSecs, env, sender, funds, conn, actions, timeout).value;
      conn in channels &&
      res.msgs == Plain(SenderBurns(actions, stored, sender)) +
        [SubMsg(SendPacket(channels[conn], PacketData(sender, actions, StoredTraces(actions, stored), NoRelayerFee),
                           if timeout.None? then AtTimestamp(env.blockTimeNanos + defaultSecs * NANOS_PER_SECOND)
                           else timeout.value), 0, Never)] &&
      res.attrs[0] == Attribute("action", "act") && res.data == None
  {
    LegacyShape(actions, stored, sender);
  }

  /** Unlike the newer `act`, the older one pushes a trace per transfer: two
      transfers of the same voucher put the same trace in the packet twice. */
  lemma LegacyRepeatsTraces(item: TraceItem, sender: Addr)
    ensures var stored := map["ibc/v" := item];
      var actions := [Transfer("ibc/v", 1, None), Transfer("ibc/v", 2, None)];
      StoredTraces(actions, stored) == [IntoFullTrace(item, "ibc/v"), IntoFullTrace(item, "ibc/v")]
  {
    var stored := map["ibc/v" := item];
    var actions := [Transfer("ibc/v", 1, None), Transfer("ibc/v", 2, None)];
    assert actions[..1][..0] == [];
    assert StoredTraces(actions[..1], stored) == [IntoFullTrace(item, "ibc/v")];
  }
}
