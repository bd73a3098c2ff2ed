/** The accounting primitives: escrow, release, mint and burn
    (contracts/core/src/transfer/helpers.rs, and the older response-building
    forms in contracts/core/src/execute.rs), plus the zero-creation-fee guard. */
module Accounting {
  import opened Types
  import opened Text
  import TokenFactory

  /** `Coin`'s `Display`: the amount followed by the denom. */
  function CoinString(c: Coin): string {
    Decimal(c.amount) + c.denom
  }

  /** The two event attributes every helper records. */
  function CoinAttrs(c: Coin, action: string): (r: seq<Attribute>)
    ensures |r| == 2 && r[0].key == "coin" && r[1] == Attribute("action", action)
  {
    [Attribute("coin", CoinString(c)), Attribute("action", action)]
  }

  function MintMsg(c: Coin, to: Addr): CosmosMsg {
    MintTokens(c.denom, c.amount, to)
  }

  function BurnMsg(c: Coin, from: Addr): CosmosMsg {
    BurnTokens(c.denom, c.amount, from)
  }

  function ReleaseMsg(c: Coin, to: Addr): CosmosMsg {
    BankSend(to, [c])
  }

  // ------------------------------------------------------------------
  // What a message does to balances
  // ------------------------------------------------------------------

  function SumOf(coins: seq<Coin>, denom: string): nat {
    if coins == [] then 0
    else (if coins[0].denom == denom then coins[0].amount else 0) + SumOf(coins[1..], denom)
  }

  /** The change a message makes to the balance of `who` in `denom`, when the
      contract `executor` sends it: a mint credits, a burn debits, a bank send
      moves coins from the executor. Other messages move no tokens. */
  function Delta(m: CosmosMsg, executor: Addr, who: Addr, denom: string): int {
    match m
    case MintTokens(d, a, to) => if to == who && d == denom then a else 0
    case BurnTokens(d, a, from) => if from == who && d == denom then -(a as int) else 0
    case BankSend(to, coins) =>
      (if to == who then SumOf(coins, denom) else 0) - (if executor == who then SumOf(coins, denom) else 0)
    case _ => 0
  }

  function NetDelta(msgs: seq<CosmosMsg>, executor: Addr, who: Addr, denom: string): int {
    if msgs == [] then 0 else Delta(msgs[0], executor, who, denom) + NetDelta(msgs[1..], executor, who, denom)
  }

  lemma {:induction false} NetDeltaAppend(a: seq<CosmosMsg>, b: seq<CosmosMsg>, executor: Addr, who: Addr, denom: string)
    ensures NetDelta(a + b, executor, who, denom) == NetDelta(a, executor, who, denom) + NetDelta(b, executor, who, denom)
    decreases |a|
  {
    if a == [] {
      assert a + b == b;
    } else {
      assert (a + b)[1..] == a[1..] + b;
      NetDeltaAppend(a[1..], b, executor, who, denom);
    }
  }

  /** Each helper's message moves exactly its coin: `mint` credits `to`, `burn`
      debits `from`, `release` moves the coin from the contract to `to`; no
      other account or denom is touched. */
  lemma HelperMovements(c: Coin, executor: Addr, to: Addr, who: Addr, denom: string)
    ensures Delta(MintMsg(c, to), executor, who, denom) == if who == to && denom == c.denom then c.amount else 0
    ensures Delta(BurnMsg(c, to), executor, who, denom) == if who == to && denom == c.denom then -(c.amount as int) else 0
    ensures Delta(ReleaseMsg(c, to), executor, who, denom) ==
      (if who == to && denom == c.denom then c.amount else 0) - (if who == executor && denom == c.denom then c.amount else 0)
  {
    assert SumOf([c], denom) == if c.denom == denom then c.amount else 0;
  }

  // ------------------------------------------------------------------
  // The helpers, pushing onto the caller's lists
  // ------------------------------------------------------------------

  /** The caller-owned `msgs` and `attrs` vectors the helpers push onto. */
  class Effects {
    var msgs: seq<CosmosMsg>
    var attrs: seq<Attribute>

    constructor ()
      ensures msgs == [] && attrs == []
    {
      msgs := [];
      attrs := [];
    }

    /** `mint`. */
    method Mint(c: Coin, to: Addr)
      modifies this
      ensures attrs == old(attrs) + CoinAttrs(c, "mint")
      ensures msgs == old(msgs) + [MintMsg(c, to)]
    {
      attrs := attrs + [Attribute("coin", CoinString(c))];
      attrs := attrs + [Attribute("action", "mint")];
      msgs := msgs + [MintTokens(c.denom, c.amount, to)];
    }

    /** `burn` (also the older one in execute.rs). */
    method Burn(c: Coin, from: Addr)
      modifies this
      ensures attrs == old(attrs) + CoinAttrs(c, "burn")
      ensures msgs == old(msgs) + [BurnMsg(c, from)]
    {
      attrs := attrs + [Attribute("coin", CoinString(c))];
      attrs := attrs + [Attribute("action", "burn")];
      msgs := msgs + [BurnTokens(c.denom, c.amount, from)];
    }

    /** `release`. */
    method Release(c: Coin, to: Addr)
      modifies this
      ensures attrs == old(attrs) + CoinAttrs(c, "release")
      ensures msgs == old(msgs) + [ReleaseMsg(c, to)]
    {
      attrs := attrs + [Attribute("coin", CoinString(c))];
      attrs := attrs + [Attribute("action", "release")];
      msgs := msgs + [BankSend(to, [c])];
    }

    /** `escrow` (also the older one in execute.rs): attributes only, the coins
        stay with the contract. */
    method Escrow(c: Coin)
      modifies this
      ensures attrs == old(attrs) + CoinAttrs(c, "escrow")
      ensures msgs == old(msgs)
    {
      attrs := attrs + [Attribute("coin", CoinString(c))];
      attrs := attrs + [Attribute("action", "escrow")];
    }
  }

  // ------------------------------------------------------------------
  // Token creation
  // ------------------------------------------------------------------

  /** `assert_free_denom_creation`, given the queried creation fee. */
  function AssertFreeDenomCreation(denomCreationFee: seq<Coin>): (r: Result<()>)
    ensures r.Err? <==> denomCreationFee != []
    ensures r.Err? ==> r.error == NonZeroTokenCreationFee
  {
    if denomCreationFee != [] then Err(NonZeroTokenCreationFee) else Ok(())
  }

  // ------------------------------------------------------------------
  // The older response builders of contracts/core/src/execute.rs
  // ------------------------------------------------------------------

  /** `add_attribute` for each attribute in turn. */
  function AddAttributes(res: Response, attrs: seq<Attribute>): Response {
    res.(attrs := res.attrs + attrs)
  }

  /** The older `mint`: the same attributes and message as the pushing `mint`,
      added to a response. */
  function LegacyMint(c: Coin, to: Addr, res: Response): (r: Result<Response>)
    ensures r.Ok?
    ensures r.value.attrs == res.attrs + CoinAttrs(c, "mint")
    ensures r.value.msgs == res.msgs + [SubMsg(MintMsg(c, to), 0, Never)]
    ensures r.value.data == res.data
  {
    Ok(AddMessage(AddAttributes(res, [Attribute("coin", CoinString(c)), Attribute("action", "mint")]),
                  MintTokens(c.denom, c.amount, to)))
  }

  /** The older `release`. */
  function LegacyRelease(c: Coin, to: Addr, res: Response): (r: Result<Response>)
    ensures r.Ok?
    ensures r.value.attrs == res.attrs + CoinAttrs(c, "release")
    ensures r.value.msgs == res.msgs + [SubMsg(ReleaseMsg(c, to), 0, Never)]
    ensures r.value.data == res.data
  {
    Ok(AddMessage(AddAttributes(res, [Attribute("coin", CoinString(c)), Attribute("action", "release")]),
                  BankSend(to, [c])))
  }

  /** `create_and_mint`, given the queried creation fee: refused while creating a
      denom costs a fee; otherwise the denom `factory/{creator}/{subdenom}` is
      created and then `amount` of it minted to `to`. */
  function CreateAndMint(denomCreationFee: seq<Coin>, creator: Addr, subdenom: string, amount: Uint128,
                         to: Addr, res: Response): (r: Result<Response>)
    ensures r.Err? <==> denomCreationFee != []
    ensures r.Err? ==> r.error == NonZeroTokenCreationFee
    ensures r.Ok? ==> r.value.msgs == res.msgs + [
      SubMsg(CreateDenom(subdenom), 0, Never),
      SubMsg(MintTokens(TokenFactory.ConstructDenom(creator, subdenom), amount, to), 0, Never)]
    ensures r.Ok? ==> r.value.attrs == res.attrs + CoinAttrs(Coin(TokenFactory.ConstructDenom(creator, subdenom), amount), "mint")
  {
    if denomCreationFee != [] then Err(NonZeroTokenCreationFee)
    else LegacyMint(Coin(TokenFactory.ConstructDenom(creator, subdenom), amount), to,
                    AddMessage(res, CreateDenom(subdenom)))
  }

  /** The minted denom is the one the creator owns under the created subdenom:
      splitting it gives back creator and subdenom. */
  lemma CreateAndMintDenom(creator: Addr, subdenom: string, amount: Uint128, to: Addr, res: Response)
    requires '/' !in creator
    ensures var r := CreateAndMint([], creator, subdenom, amount, to, res);
      r.Ok? && r.value.msgs[|res.msgs| + 1].msg.MintTokens? &&
      TokenFactory.DeconstructDenom(r.value.msgs[|res.msgs| + 1].msg.denom) == Some((creator, subdenom))
  {
    TokenFactory.RoundTrip(creator, subdenom);
  }
}
