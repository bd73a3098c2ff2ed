/** Token-factory denoms `factory/{creator}/{subdenom}`
    (packages/token-factory/src/helpers.rs). */
module TokenFactory {
  import opened Types
  import opened Text

  /** `DENOM_PREFIX`. */
  const DENOM_PREFIX: string := "factory"

  /** `construct_denom`. */
  function ConstructDenom(creator: string, subdenom: string): string {
    DENOM_PREFIX + "/" + creator + "/" + subdenom
  }

  /** `deconstruct_denom`: the text before the first `/` must be the prefix; the
      rest is split at its first `/` into creator and subdenom. */
  function DeconstructDenom(denom: string): (r: Option<(string, string)>)
    ensures '/' !in denom ==> r.None?
    ensures r.Some? ==> ConstructDenom(r.value.0, r.value.1) == denom && '/' !in r.value.0
  {
    match SplitOnce(denom, '/')
    case None => None
    case Some((prefix, creatorAndSubdenom)) =>
      if prefix != DENOM_PREFIX then None
      else
        var r := SplitOnce(creatorAndSubdenom, '/');
        assert r.Some? ==>
          (DENOM_PREFIX + "/" + r.value.0 + "/" + r.value.1 == prefix + ['/'] + (r.value.0 + ['/'] + r.value.1));
        r
  }

  /** The three ways a denom is refused, and the one way it is accepted. */
  lemma DeconstructCases(denom: string)
    ensures match SplitOnce(denom, '/')
      case None => DeconstructDenom(denom).None?
      case Some((prefix, rest)) =>
        if prefix != DENOM_PREFIX then DeconstructDenom(denom).None?
        else if '/' !in rest then DeconstructDenom(denom).None?
        else DeconstructDenom(denom) == SplitOnce(rest, '/')
  {
  }

  /** Splitting undoes building whenever the creator holds no `/`; the subdenom
      may hold any number of them. */
  lemma RoundTrip(creator: string, subdenom: string)
    requires '/' !in creator
    ensures DeconstructDenom(ConstructDenom(creator, subdenom)) == Some((creator, subdenom))
  {
    var rest := creator + "/" + subdenom;
    assert '/' !in DENOM_PREFIX;
    assert ConstructDenom(creator, subdenom) == DENOM_PREFIX + ['/'] + rest;
    SplitOnceJoin(DENOM_PREFIX, '/', rest);
    SplitOnceJoin(creator, '/', subdenom);
  }

  /** Exactly the denoms built from a `/`-free creator are accepted, and each
      then yields the creator and subdenom it was built from. */
  lemma DeconstructSpec(denom: string, creator: string, subdenom: string)
    ensures DeconstructDenom(denom) == Some((creator, subdenom))
        <==> denom == ConstructDenom(creator, subdenom) && '/' !in creator
  {
    if denom == ConstructDenom(creator, subdenom) && '/' !in creator {
      RoundTrip(creator, subdenom);
    }
  }

  /** A creator with a `/` is split at the wrong place: the round trip fails. */
  lemma SlashInCreatorBreaksRoundTrip()
    ensures DeconstructDenom(ConstructDenom("a/b", "c")) == Some(("a", "b/c"))
  {
    RoundTrip("a", "b/c");
    assert ConstructDenom("a/b", "c") == ConstructDenom("a", "b/c");
  }

  /** Length of a voucher denom `factory/{creator}/{hex digest}`: 9 characters of
      framing, the creator, and two hex characters per digest byte. For a
      64-character contract address a 20-byte RIPEMD-160 digest gives 113
      characters, inside the 128 the Cosmos SDK allows, where a 32-byte SHA-256
      digest would give 137. */
  lemma VoucherDenomLength(creator: string, digest: Bytes)
    ensures |ConstructDenom(creator, Hex(digest))| == 9 + |creator| + 2 * |digest|
    ensures |creator| == 64 && |digest| == 20 ==> |ConstructDenom(creator, Hex(digest))| == 113 <= 128
    ensures |creator| == 64 && |digest| == 32 ==> |ConstructDenom(creator, Hex(digest))| == 137 > 128
  {
  }
}
