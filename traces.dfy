/** Token provenance: `TraceItem` (contracts/core/src/transfer/trace.rs) and its
    older form `DenomTrace` (packages/types/src/transfer.rs), which has the same
    two fields. A trace is a token's original denom and the hops it has taken,
    recorded as the IBC endpoints it crossed, the latest last. */
module Traces {
  import opened Types
  import opened Text

  datatype TraceItem = TraceItem(baseDenom: string, path: seq<Endpoint>)

  /** `DenomTrace` carries exactly the fields of `TraceItem`. */
  type DenomTrace = TraceItem

  /** `TraceItem::new`, `DenomTrace::new`: a token that has not travelled. */
  function New(baseDenom: string): (r: TraceItem)
    ensures r.baseDenom == baseDenom
    ensures forall e :: SenderIsSource(r, e) && !IsSource(r, e)
  {
    TraceItem(baseDenom, [])
  }

  /** `From<&Trace> for TraceItem`: the full trace without its local `denom`. */
  function FromTrace(t: Trace): (r: TraceItem)
    ensures IntoFullTrace(r, t.denom) == t
  {
    TraceItem(t.baseDenom, t.path)
  }

  /** `TraceItem::into_full_trace`. */
  function IntoFullTrace(item: TraceItem, denom: string): Trace {
    Trace(denom, item.baseDenom, item.path)
  }

  /** Dropping the denom and putting it back are inverse. */
  lemma FullTraceRoundTrip(item: TraceItem, t: Trace)
    ensures FromTrace(IntoFullTrace(item, t.denom)) == item
    ensures IntoFullTrace(FromTrace(t), t.denom) == t
    ensures IntoFullTrace(item, t.denom).denom == t.denom
  {
  }

  // ------------------------------------------------------------------
  // Source or sink
  // ------------------------------------------------------------------

  /** `receiver_is_source`: the path's last hop is `src`; false on an empty path. */
  predicate ReceiverIsSource(item: TraceItem, src: Endpoint) {
    |item.path| > 0 && item.path[|item.path| - 1] == src
  }

  /** `sender_is_source`. */
  predicate SenderIsSource(item: TraceItem, src: Endpoint) {
    !ReceiverIsSource(item, src)
  }

  /** `DenomTrace::is_source`: true when `localhost` is the last hop. The doc
      comment above it in the source says the reverse; this follows the code. */
  predicate IsSource(t: DenomTrace, localhost: Endpoint) {
    match Last(t.path)
    case None => false
    case Some(step) => localhost == step
  }

  function Last<T>(s: seq<T>): (r: Option<T>)
    ensures r.None? <==> s == []
    ensures r.Some? ==> r.value == s[|s| - 1]
  {
    if s == [] then None else Some(s[|s| - 1])
  }

  /** The older `is_source` and the newer `receiver_is_source` decide alike, and
      `sender_is_source` is their negation, for every trace and endpoint. */
  lemma SourceDecisionsAgree(t: TraceItem, e: Endpoint)
    ensures IsSource(t, e) <==> ReceiverIsSource(t, e)
    ensures SenderIsSource(t, e) <==> !IsSource(t, e)
  {
  }

  /** With an empty path no endpoint is the receiver-side source; in particular
      a fresh trace is sender-source for every endpoint. */
  lemma EmptyPathIsSenderSource(t: TraceItem, e: Endpoint)
    requires t.path == []
    ensures !ReceiverIsSource(t, e) && SenderIsSource(t, e) && !IsSource(t, e)
    ensures SenderIsSource(New(t.baseDenom), e)
  {
  }

  /** On a non-empty path the decision is made by the last hop alone. */
  lemma {:induction false} LastHopDecides(t: TraceItem, u: TraceItem, e: Endpoint)
    requires t.path != [] && u.path != [] && t.path[|t.path| - 1] == u.path[|u.path| - 1]
    ensures ReceiverIsSource(t, e) <==> ReceiverIsSource(u, e)
    ensures IsSource(t, e) <==> IsSource(u, e)
  {
  }

  /** Earlier hops never matter: prefixing the path with any hops changes nothing. */
  lemma EarlierHopsIrrelevant(t: TraceItem, earlier: seq<Endpoint>, e: Endpoint)
    ensures IsSource(t.(path := earlier + t.path), e) <==> (if t.path == [] then IsSource(t.(path := earlier), e) else IsSource(t, e))
  {
    if t.path == [] {
      assert earlier + t.path == earlier;
    }
  }

  /** Once a chain has appended endpoint `e` to the path, `e` is no longer the
      sender-side source, while every other endpoint is. */
  lemma AppendedHopIsSink(t: TraceItem, e: Endpoint, other: Endpoint)
    requires other != e
    ensures !SenderIsSource(t.(path := t.path + [e]), e)
    ensures SenderIsSource(t.(path := t.path + [e]), other)
  {
  }

  // ------------------------------------------------------------------
  // Hash (the voucher subdenom)
  // ------------------------------------------------------------------

  /** A RIPEMD-160 digest. */
  type Digest = d: Bytes | |d| == 20 witness seq(20, _ => 0)

  /** What the hasher is fed: the base denom's UTF-8 bytes, then each hop's port
      id and channel id, in path order, with no separators. */
  function HashInput(item: TraceItem): Bytes
    decreases |item.path|
  {
    if item.path == [] then Utf8(item.baseDenom)
    else
      var last := item.path[|item.path| - 1];
      HashInput(item.(path := item.path[..|item.path| - 1])) + Utf8(last.portId) + Utf8(last.channelId)
  }

  /** `TraceItem::hash` / `DenomTrace::hash`, for a hash function the model does
      not implement. */
  function Hash(item: TraceItem, ripemd160: Bytes -> Digest): (h: Digest)
    ensures h == ripemd160(Utf8(item.baseDenom) + HopBytes(item.path))
  {
    HashInputIsConcatenation(item);
    ripemd160(HashInput(item))
  }

  /** Each hop extends the hashed stream by its port then its channel, which is
      what the hasher's update loop does. */
  lemma HashInputSnoc(item: TraceItem, e: Endpoint)
    ensures HashInput(item.(path := item.path + [e])) == HashInput(item) + Utf8(e.portId) + Utf8(e.channelId)
  {
    assert (item.path + [e])[..|item.path|] == item.path;
  }

  /** Flattens the hops into the stream they contribute. */
  function HopBytes(path: seq<Endpoint>): Bytes {
    if path == [] then [] else Utf8(path[0].portId) + Utf8(path[0].channelId) + HopBytes(path[1..])
  }

  lemma {:induction false} HopBytesSnoc(path: seq<Endpoint>, e: Endpoint)
    ensures HopBytes(path + [e]) == HopBytes(path) + Utf8(e.portId) + Utf8(e.channelId)
    decreases |path|
  {
    if path == [] {
      assert path + [e] == [e] && [e][1..] == [];
    } else {
      var q := path[1..];
      assert (path + [e])[0] == path[0] && (path + [e])[1..] == q + [e];
      HopBytesSnoc(q, e);
      ConcatAssoc(Utf8(path[0].portId) + Utf8(path[0].channelId), HopBytes(q), Utf8(e.portId), Utf8(e.channelId));
    }
  }

  /** The stream is the base denom followed by the hops in order. */
  lemma {:induction false} HashInputIsConcatenation(item: TraceItem)
    ensures HashInput(item) == Utf8(item.baseDenom) + HopBytes(item.path)
    decreases |item.path|
  {
    if item.path != [] {
      var p := item.path[..|item.path| - 1];
      var e := item.path[|item.path| - 1];
      var pre := item.(path := p);
      assert pre.(path := pre.path + [e]) == item;
      HashInputSnoc(pre, e);
      HashInputIsConcatenation(pre);
      HopBytesSnoc(p, e);
      assert p + [e] == item.path;
      ConcatAssoc(Utf8(item.baseDenom), HopBytes(p), Utf8(e.portId), Utf8(e.channelId));
    }
  }

  lemma ConcatAssoc(x: Bytes, h: Bytes, a: Bytes, b: Bytes)
    ensures x + h + a + b == x + (h + a + b)
  {
  }

  /** Equivalently, the UTF-8 encoding of the base denom and all the hop ids
      written one after the other. */
  lemma HashInputIsText(item: TraceItem)
    ensures HashInput(item) == Utf8(item.baseDenom + HopText(item.path))
  {
    HashInputIsConcatenation(item);
    HopTextBytes(item.path);
    Utf8Append(item.baseDenom, HopText(item.path));
  }

  lemma {:induction false} HopTextBytes(path: seq<Endpoint>)
    ensures Utf8(HopText(path)) == HopBytes(path)
    decreases |path|
  {
    if path != [] {
      HopTextBytes(path[1..]);
      Utf8Append(path[0].portId, path[0].channelId);
      Utf8Append(path[0].portId + path[0].channelId, HopText(path[1..]));
    }
  }

  function HopText(path: seq<Endpoint>): string {
    if path == [] then [] else path[0].portId + path[0].channelId + HopText(path[1..])
  }

  /** The hash depends only on the base denom and the path, never on the local
      `denom` a full trace carries. */
  lemma HashIgnoresLocalDenom(t: Trace, u: Trace, ripemd160: Bytes -> Digest)
    requires t.baseDenom == u.baseDenom && t.path == u.path
    ensures Hash(FromTrace(t), ripemd160) == Hash(FromTrace(u), ripemd160)
  {
  }

  /** With no separators between the fields, distinct traces can feed the hasher
      the same bytes and so get the same voucher denom, whatever the hash. */
  lemma HashInputNotInjective(ripemd160: Bytes -> Digest)
    ensures var a := TraceItem("uatomtransfer", [Endpoint("channel-0", "x")]);
            var b := TraceItem("uatom", [Endpoint("transferchannel-0", "x")]);
            a != b && Hash(a, ripemd160) == Hash(b, ripemd160)
  {
    var a := TraceItem("uatomtransfer", [Endpoint("channel-0", "x")]);
    var b := TraceItem("uatom", [Endpoint("transferchannel-0", "x")]);
    HashInputIsText(a);
    HashInputIsText(b);
    OneHopText(Endpoint("channel-0", "x"));
    OneHopText(Endpoint("transferchannel-0", "x"));
    var u, t, c, x := "uatom", "transfer", "channel-0", "x";
    assert a.baseDenom == u + t && b.path[0].portId == t + c;
    assert a.baseDenom + HopText(a.path) == (u + t) + (c + x);
    assert b.baseDenom + HopText(b.path) == u + ((t + c) + x);
    StringAssoc(u, t, c, x);
    assert a.baseDenom != b.baseDenom by { assert |a.baseDenom| != |b.baseDenom|; }
  }

  /** The hash input with a separator byte before each port and channel id:
      the input the uniqueness promise of the voucher denom needs. */
  function MarkedHops(path: seq<Endpoint>): (r: Bytes)
    ensures r == [] <==> path == []
    ensures r != [] ==> r[0] == MARK
  {
    if path == [] then []
    else [MARK] + (Utf8(path[0].portId) + ([MARK] + (Utf8(path[0].channelId) + MarkedHops(path[1..]))))
  }

  function MarkedHashInput(item: TraceItem): Bytes {
    Utf8(item.baseDenom) + MarkedHops(item.path)
  }

  /** The separated hops determine the path. */
  lemma {:induction false} MarkedHopsInjective(p: seq<Endpoint>, q: seq<Endpoint>)
    requires MarkedHops(p) == MarkedHops(q)
    ensures p == q
    decreases |p|
  {
    if p != [] {
      var a, b := p[0], q[0];
      var ra := Utf8(a.channelId) + MarkedHops(p[1..]);
      var rb := Utf8(b.channelId) + MarkedHops(q[1..]);
      assert Utf8(a.portId) + ([MARK] + ra) == Utf8(b.portId) + ([MARK] + rb) by {
        assert MarkedHops(p)[1..] == Utf8(a.portId) + ([MARK] + ra);
        assert MarkedHops(q)[1..] == Utf8(b.portId) + ([MARK] + rb);
      }
      Utf8NoHighByte(a.portId);
      Utf8NoHighByte(b.portId);
      SplitAtMark(Utf8(a.portId), [MARK] + ra, Utf8(b.portId), [MARK] + rb);
      Utf8Injective(a.portId, b.portId);
      assert ra == ([MARK] + ra)[1..] == ([MARK] + rb)[1..] == rb;
      Utf8NoHighByte(a.channelId);
      Utf8NoHighByte(b.channelId);
      SplitAtMark(Utf8(a.channelId), MarkedHops(p[1..]), Utf8(b.channelId), MarkedHops(q[1..]));
      Utf8Injective(a.channelId, b.channelId);
      MarkedHopsInjective(p[1..], q[1..]);
      assert p == [a] + p[1..] && q == [b] + q[1..];
    }
  }

  /** With separators, distinct traces always feed the hasher distinct bytes,
      so only a collision of the hash itself could give two of them one voucher
      denom. */
  lemma MarkedHashInputInjective(a: TraceItem, b: TraceItem)
    requires MarkedHashInput(a) == MarkedHashInput(b)
    ensures a == b
  {
    Utf8NoHighByte(a.baseDenom);
    Utf8NoHighByte(b.baseDenom);
    SplitAtMark(Utf8(a.baseDenom), MarkedHops(a.path), Utf8(b.baseDenom), MarkedHops(b.path));
    Utf8Injective(a.baseDenom, b.baseDenom);
    MarkedHopsInjective(a.path, b.path);
  }

  /** The two traces that collide without separators are told apart with them. */
  lemma MarkedHashInputSeparates()
    ensures MarkedHashInput(TraceItem("uatomtransfer", [Endpoint("channel-0", "x")]))
         != MarkedHashInput(TraceItem("uatom", [Endpoint("transferchannel-0", "x")]))
  {
    var a := TraceItem("uatomtransfer", [Endpoint("channel-0", "x")]);
    var b := TraceItem("uatom", [Endpoint("transferchannel-0", "x")]);
    if MarkedHashInput(a) == MarkedHashInput(b) {
      MarkedHashInputInjective(a, b);
    }
  }

  lemma StringAssoc(u: string, t: string, c: string, x: string)
    ensures (u + t) + (c + x) == u + ((t + c) + x)
  {
  }

  lemma OneHopText(e: Endpoint)
    ensures HopText([e]) == e.portId + e.channelId
  {
    assert [e][1..] == [];
  }
}
