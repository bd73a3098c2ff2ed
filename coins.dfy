/** The coin ledger `Coins`, a `BTreeMap<String, Uint128>` from denom to amount
    (contracts/core/src/utils/coins.rs and its older twin contracts/core/src/coins.rs).

    A BTreeMap is kept here as what it is underneath: the list of its entries in
    strictly ascending key order. `ToMap` gives the map it stands for, and
    `SortedCanonical` shows that two such lists are equal exactly when their maps
    are, so comparing entry lists is comparing ledgers. */
module Ledger {
  import opened Types
  import opened Text

  // ------------------------------------------------------------------
  // The order of `String` keys: lexicographic by character
  // ------------------------------------------------------------------

  /** `a < b` under Rust's `Ord for str`. UTF-8 preserves code-point order, so
      comparing bytes and comparing characters agree. */
  predicate Less(a: string, b: string)
    decreases |a|
  {
    if a == [] then b != []
    else if b == [] then false
    else a[0] < b[0] || (a[0] == b[0] && Less(a[1..], b[1..]))
  }

  lemma LessIrreflexive(a: string)
    ensures !Less(a, a)
  {
  }

  lemma LessTransitive(a: string, b: string, c: string)
    requires Less(a, b) && Less(b, c)
    ensures Less(a, c)
    decreases |a|
  {
    if a != [] && b != [] && c != [] && a[0] == b[0] == c[0] {
      LessTransitive(a[1..], b[1..], c[1..]);
    }
  }

  lemma LessTotal(a: string, b: string)
    requires a != b
    ensures Less(a, b) || Less(b, a)
    decreases |a|
  {
    if a != [] && b != [] && a[0] == b[0] {
      assert a == [a[0]] + a[1..] && b == [b[0]] + b[1..];
      LessTotal(a[1..], b[1..]);
    }
  }

  lemma LessAsymmetric(a: string, b: string)
    requires Less(a, b)
    ensures !Less(b, a)
  {
    if Less(b, a) {
      LessTransitive(a, b, a);
      LessIrreflexive(a);
    }
  }

  // ------------------------------------------------------------------
  // Entry lists and the maps they stand for
  // ------------------------------------------------------------------

  /** `d` comes before every denom of `es`. */
  ghost predicate Above(d: string, es: seq<Coin>) {
    forall k | 0 <= k < |es| :: Less(d, es[k].denom)
  }

  /** Strictly ascending denoms: the order a BTreeMap iterates in, and no key twice. */
  ghost predicate Sorted(es: seq<Coin>)
    decreases |es|
  {
    es == [] || (Above(es[0].denom, es[1..]) && Sorted(es[1..]))
  }

  /** The map a list of coins stands for. Where a denom occurs more than once the
      last occurrence wins, as when `collect`ing pairs into a BTreeMap. */
  function ToMap(es: seq<Coin>): map<string, Uint128>
    decreases |es|
  {
    if es == [] then map[] else map[es[0].denom := es[0].amount] + ToMap(es[1..])
  }

  /** The amount booked for `d`; an absent denom counts as zero. */
  function AmountOf(es: seq<Coin>, d: string): nat {
    if d in ToMap(es) then ToMap(es)[d] else 0
  }

  /** The denoms a list of coins mentions. */
  ghost function Denoms(cs: seq<Coin>): set<string> {
    set i | 0 <= i < |cs| :: cs[i].denom
  }

  lemma {:induction false} ToMapKeys(es: seq<Coin>)
    ensures ToMap(es).Keys == Denoms(es)
    decreases |es|
  {
    if es != [] {
      ToMapKeys(es[1..]);
      assert Denoms(es) == {es[0].denom} + Denoms(es[1..]) by {
        forall d | d in Denoms(es) ensures d in {es[0].denom} + Denoms(es[1..]) {
          var i :| 0 <= i < |es| && es[i].denom == d;
          if i > 0 { assert es[1..][i - 1].denom == d; }
        }
        forall d | d in Denoms(es[1..]) ensures d in Denoms(es) {
          var i :| 0 <= i < |es[1..]| && es[1..][i].denom == d;
          assert es[i + 1].denom == d;
        }
      }
    }
  }

  /** A denom before all of a list's denoms is before every key of its map, and
      so not one of them. */
  lemma AboveKeys(d: string, es: seq<Coin>)
    requires Above(d, es)
    ensures forall k | k in ToMap(es) :: Less(d, k)
    ensures d !in ToMap(es)
  {
    ToMapKeys(es);
    LessIrreflexive(d);
    forall k | k in ToMap(es) ensures Less(d, k) {
      var i :| 0 <= i < |es| && es[i].denom == k;
    }
  }

  /** A sorted list's head is its least key and is booked only once. */
  lemma SortedHead(es: seq<Coin>)
    requires Sorted(es) && es != []
    ensures es[0].denom !in ToMap(es[1..])
    ensures ToMap(es) == ToMap(es[1..])[es[0].denom := es[0].amount]
    ensures ToMap(es[1..]) == ToMap(es) - {es[0].denom}
    ensures forall k | k in ToMap(es[1..]) :: Less(es[0].denom, k)
  {
    AboveKeys(es[0].denom, es[1..]);
  }

  /** Strictly ascending over all pairs, not only adjacent ones. */
  lemma {:induction false} SortedPairwise(es: seq<Coin>)
    requires Sorted(es)
    ensures forall i, j | 0 <= i < j < |es| :: Less(es[i].denom, es[j].denom)
    decreases |es|
  {
    if es != [] {
      SortedPairwise(es[1..]);
      forall i, j | 0 <= i < j < |es| ensures Less(es[i].denom, es[j].denom) {
        if i > 0 { assert es[i] == es[1..][i - 1] && es[j] == es[1..][j - 1]; }
      }
    }
  }

  /** A sorted list holds each denom once. */
  lemma SortedDistinct(es: seq<Coin>)
    requires Sorted(es)
    ensures forall i, j | 0 <= i < j < |es| :: es[i].denom != es[j].denom
  {
    SortedPairwise(es);
    forall i, j | 0 <= i < j < |es| ensures es[i].denom != es[j].denom {
      LessIrreflexive(es[i].denom);
    }
  }

  lemma SameHeads(a: seq<Coin>, b: seq<Coin>)
    requires Sorted(a) && Sorted(b) && a != [] && b != [] && ToMap(a) == ToMap(b)
    ensures a[0] == b[0]
  {
    SortedHead(a);
    SortedHead(b);
    if a[0].denom != b[0].denom {
      assert Less(a[0].denom, b[0].denom);
      LessAsymmetric(a[0].denom, b[0].denom);
    }
  }

  /** Two sorted entry lists are equal exactly when they stand for the same map:
      comparing `Coins` values (BTreeMap equality) is comparing their entries. */
  lemma {:induction false} SortedCanonical(a: seq<Coin>, b: seq<Coin>)
    requires Sorted(a) && Sorted(b)
    ensures a == b <==> ToMap(a) == ToMap(b)
    decreases |a|
  {
    if ToMap(a) == ToMap(b) {
      EmptyMap(a);
      EmptyMap(b);
      if a != [] && b != [] {
        SameHeads(a, b);
        SortedHead(a);
        SortedHead(b);
        SortedCanonical(a[1..], b[1..]);
        assert a == [a[0]] + a[1..] && b == [b[0]] + b[1..];
      }
    }
  }

  lemma EmptyMap(es: seq<Coin>)
    ensures ToMap(es) == map[] <==> es == []
  {
    if es != [] { assert es[0].denom in ToMap(es); }
  }

  // ------------------------------------------------------------------
  // Insertion into the ordered entry list
  // ------------------------------------------------------------------

  /** Books `c.amount` under `c.denom`, overwriting an existing entry or inserting
      a new one at its place in the order. */
  function Put(es: seq<Coin>, c: Coin): seq<Coin>
    decreases |es|
  {
    if es == [] then [c]
    else if es[0].denom == c.denom then [c] + es[1..]
    else if Less(c.denom, es[0].denom) then [c] + es
    else [es[0]] + Put(es[1..], c)
  }

  lemma {:induction false} PutAbove(d: string, es: seq<Coin>, c: Coin)
    requires Above(d, es) && Less(d, c.denom)
    ensures Above(d, Put(es, c))
    decreases |es|
  {
    if es != [] && es[0].denom != c.denom && !Less(c.denom, es[0].denom) {
      PutAbove(d, es[1..], c);
      var p := Put(es, c);
      forall k | 0 <= k < |p| ensures Less(d, p[k].denom) {
        if k > 0 { assert p[k] == Put(es[1..], c)[k - 1]; }
      }
    }
  }

  lemma {:induction false} PutSorted(es: seq<Coin>, c: Coin)
    requires Sorted(es)
    ensures Sorted(Put(es, c))
    decreases |es|
  {
    if es != [] {
      var x := es[0];
      if x.denom == c.denom {
        assert ([c] + es[1..])[1..] == es[1..];
      } else if Less(c.denom, x.denom) {
        forall k | 0 <= k < |es| ensures Less(c.denom, es[k].denom) {
          if k > 0 { LessTransitive(c.denom, x.denom, es[k].denom); }
        }
        assert ([c] + es)[1..] == es;
      } else {
        LessTotal(c.denom, x.denom);
        PutSorted(es[1..], c);
        PutAbove(x.denom, es[1..], c);
        assert ([x] + Put(es[1..], c))[1..] == Put(es[1..], c);
      }
    }
  }

  lemma UpdateBehindHead(k: string, v: Uint128, m: map<string, Uint128>, k2: string, v2: Uint128)
    requires k != k2
    ensures (map[k := v] + m)[k2 := v2] == map[k := v] + m[k2 := v2]
  {
  }

  lemma {:induction false} PutMap(es: seq<Coin>, c: Coin)
    requires Sorted(es)
    ensures ToMap(Put(es, c)) == ToMap(es)[c.denom := c.amount]
    decreases |es|
  {
    if es != [] {
      var x := es[0];
      SortedHead(es);
      if x.denom == c.denom {
        assert ([c] + es[1..])[1..] == es[1..];
      } else if Less(c.denom, x.denom) {
        forall k | 0 <= k < |es| ensures Less(c.denom, es[k].denom) {
          if k > 0 { LessTransitive(c.denom, x.denom, es[k].denom); }
        }
        AboveKeys(c.denom, es);
        assert ([c] + es)[1..] == es;
      } else {
        PutMap(es[1..], c);
        assert ([x] + Put(es[1..], c))[1..] == Put(es[1..], c);
        assert ToMap(Put(es, c)) == map[x.denom := x.amount] + ToMap(es[1..])[c.denom := c.amount];
        UpdateBehindHead(x.denom, x.amount, ToMap(es[1..]), c.denom, c.amount);
      }
    }
  }

  lemma PutSpec(es: seq<Coin>, c: Coin)
    requires Sorted(es)
    ensures Sorted(Put(es, c))
    ensures ToMap(Put(es, c)) == ToMap(es)[c.denom := c.amount]
  {
    PutSorted(es, c);
    PutMap(es, c);
  }

  /** Re-booking the amount a sorted list already holds for a denom changes nothing
      (`entry(..).or_insert_with(..)` on a present key). */
  lemma PutPresent(es: seq<Coin>, d: string)
    requires Sorted(es)
    ensures Put(es, Coin(d, AmountOf(es, d))) == es <==> d in ToMap(es)
  {
    var c := Coin(d, AmountOf(es, d));
    PutSpec(es, c);
    SortedCanonical(Put(es, c), es);
    if d !in ToMap(es) {
      assert d in ToMap(Put(es, c));
    }
  }

  // ------------------------------------------------------------------
  // The ledger operations, on values
  // ------------------------------------------------------------------

  /** `Coins::add`: raises `c.denom` by `c.amount`, starting an absent denom at
      zero; fails with an overflow when the new total does not fit a `Uint128`. */
  function AddCoin(es: seq<Coin>, c: Coin): (r: Result<seq<Coin>>)
    requires Sorted(es)
    ensures r.Ok? <==> AmountOf(es, c.denom) + c.amount <= UINT128_MAX
    ensures r.Ok? ==> Sorted(r.value)
    ensures r.Ok? ==> ToMap(r.value) == ToMap(es)[c.denom := AmountOf(es, c.denom) + c.amount]
    ensures r.Err? ==> r == Err(Overflow) && c.denom in ToMap(es)
  {
    var total := AmountOf(es, c.denom) + c.amount;
    if total > UINT128_MAX then Err(Overflow)
    else
      PutSpec(es, Coin(c.denom, total));
      Ok(Put(es, Coin(c.denom, total)))
  }

  /** Booking the last coin of a list over the map of the others. */
  lemma {:induction false} ToMapSnoc(v: seq<Coin>)
    requires v != []
    ensures ToMap(v) == ToMap(v[..|v| - 1])[v[|v| - 1].denom := v[|v| - 1].amount]
    decreases |v|
  {
    if |v| > 1 {
      ToMapSnoc(v[1..]);
      assert v[1..][..|v[1..]| - 1] == v[..|v| - 1][1..];
    }
  }

  /** `From<Vec<Coin>>`: collects the pairs into a map in order, each one
      overwriting an earlier one of its denom. Duplicate denoms are not summed
      and zero amounts are not dropped. */
  function Collect(v: seq<Coin>): (r: seq<Coin>)
    ensures Sorted(r)
    ensures ToMap(r) == ToMap(v)
    decreases |v|
  {
    if v == [] then []
    else
      var prev := Collect(v[..|v| - 1]);
      PutSpec(prev, v[|v| - 1]);
      ToMapSnoc(v);
      Put(prev, v[|v| - 1])
  }

  /** Total amount of denom `d` in a list of coins. */
  function Sum(cs: seq<Coin>, d: string): nat
    decreases |cs|
  {
    if cs == [] then 0
    else Sum(cs[..|cs| - 1], d) + (if cs[|cs| - 1].denom == d then cs[|cs| - 1].amount else 0)
  }

  /** Adds the coins one after the other, stopping at the first overflow. */
  function AddAll(es: seq<Coin>, cs: seq<Coin>): (r: Result<seq<Coin>>)
    requires Sorted(es)
    ensures r.Ok? ==> Sorted(r.value)
    decreases |cs|
  {
    if cs == [] then Ok(es)
    else
      var prev :- AddAll(es, cs[..|cs| - 1]);
      AddCoin(prev, cs[|cs| - 1])
  }

  lemma SumPrefix(cs: seq<Coin>, d: string)
    requires cs != []
    ensures Sum(cs[..|cs| - 1], d) <= Sum(cs, d)
  {
  }

  lemma {:induction false} DenomsPrefix(cs: seq<Coin>)
    requires cs != []
    ensures Denoms(cs) == Denoms(cs[..|cs| - 1]) + {cs[|cs| - 1].denom}
  {
    var p := cs[..|cs| - 1];
    forall d | d in Denoms(cs) ensures d in Denoms(p) + {cs[|cs| - 1].denom} {
      var i :| 0 <= i < |cs| && cs[i].denom == d;
      if i < |p| { assert p[i].denom == d; }
    }
    forall d | d in Denoms(p) ensures d in Denoms(cs) {
      var i :| 0 <= i < |p| && p[i].denom == d;
      assert cs[i].denom == d;
    }
  }

  /** A denom the list never mentions sums to zero. */
  lemma {:induction false} SumOutsideDenoms(cs: seq<Coin>, d: string)
    requires d !in Denoms(cs)
    ensures Sum(cs, d) == 0
    decreases |cs|
  {
    if cs != [] {
      DenomsPrefix(cs);
      SumOutsideDenoms(cs[..|cs| - 1], d);
    }
  }

  /** Adding a list of coins succeeds exactly when no denom's final total
      overflows (partial totals only grow), and then every denom holds its
      starting amount plus the sum of what was added for it; denoms that were
      neither present nor added stay absent. */
  lemma {:induction false} AddAllSpec(es: seq<Coin>, cs: seq<Coin>)
    requires Sorted(es)
    ensures AddAll(es, cs).Ok? <==> forall d :: AmountOf(es, d) + Sum(cs, d) <= UINT128_MAX
    ensures AddAll(es, cs).Ok? ==>
      ToMap(AddAll(es, cs).value).Keys == ToMap(es).Keys + Denoms(cs) &&
      forall d :: AmountOf(AddAll(es, cs).value, d) == AmountOf(es, d) + Sum(cs, d)
    decreases |cs|
  {
    if cs == [] {
      assert Denoms(cs) == {};
    } else {
      var p := cs[..|cs| - 1];
      var c := cs[|cs| - 1];
      AddAllSpec(es, p);
      DenomsPrefix(cs);
      var fits := forall d :: AmountOf(es, d) + Sum(cs, d) <= UINT128_MAX;
      if fits {
        forall d ensures AmountOf(es, d) + Sum(p, d) <= UINT128_MAX {
          SumPrefix(cs, d);
        }
        assert AmountOf(es, c.denom) + Sum(cs, c.denom) <= UINT128_MAX;
      }
      if AddAll(es, p).Ok? {
        var prev := AddAll(es, p).value;
        var r := AddCoin(prev, c);
        assert AddAll(es, cs) == r;
        if r.Ok? {
          forall d ensures AmountOf(r.value, d) == AmountOf(es, d) + Sum(cs, d) {
            if d == c.denom {
              assert AmountOf(r.value, d) == AmountOf(prev, d) + c.amount;
            } else {
              assert AmountOf(r.value, d) == AmountOf(prev, d);
            }
          }
          forall d ensures AmountOf(es, d) + Sum(cs, d) <= UINT128_MAX {
            assert AmountOf(r.value, d) <= UINT128_MAX;
          }
        } else {
          assert !(AmountOf(es, c.denom) + Sum(cs, c.denom) <= UINT128_MAX);
        }
      } else {
        assert AddAll(es, cs).Err?;
        if fits {
          assert false;
        }
      }
    }
  }

  /** What a ledger built from nothing with `AddAll` stands for: each mentioned
      denom mapped to its total. */
  ghost function Totals(cs: seq<Coin>): map<string, nat> {
    map d | d in Denoms(cs) :: Sum(cs, d)
  }

  lemma AddAllFromEmpty(cs: seq<Coin>)
    ensures AddAll([], cs).Ok? <==> forall d :: Sum(cs, d) <= UINT128_MAX
    ensures AddAll([], cs).Ok? ==> ToMap(AddAll([], cs).value) == Totals(cs)
  {
    AddAllSpec([], cs);
    if AddAll([], cs).Ok? {
      var m := ToMap(AddAll([], cs).value);
      forall d | d in m ensures m[d] == Totals(cs)[d] {
        assert AmountOf(AddAll([], cs).value, d) == Sum(cs, d);
      }
    }
  }

  lemma AddAllSnoc(es: seq<Coin>, cs: seq<Coin>, c: Coin)
    requires Sorted(es)
    ensures AddAll(es, cs + [c]) ==
      if AddAll(es, cs).Ok? then AddCoin(AddAll(es, cs).value, c) else AddAll(es, cs)
  {
    assert (cs + [c])[..|cs|] == cs;
  }

  /** A positive amount added to a ledger always changes it. */
  lemma {:induction false} AddCoinChanges(es: seq<Coin>, c: Coin)
    requires Sorted(es) && c.amount > 0 && AddCoin(es, c).Ok?
    ensures AddCoin(es, c).value != es
  {
    var r := AddCoin(es, c).value;
    assert AmountOf(r, c.denom) == AmountOf(es, c.denom) + c.amount;
  }

  // ------------------------------------------------------------------
  // Rendering (`Display`)
  // ------------------------------------------------------------------

  /** One `{amount}{denom}` string per entry, in entry order. */
  function CoinStrings(es: seq<Coin>): (r: seq<string>)
    ensures |r| == |es|
    ensures forall i | 0 <= i < |es| :: r[i] == Decimal(es[i].amount) + es[i].denom
  {
    if es == [] then [] else [Decimal(es[0].amount) + es[0].denom] + CoinStrings(es[1..])
  }

  /** `"[]"` for an empty ledger, otherwise `{amount}{denom}` per entry joined by commas. */
  function Display(es: seq<Coin>): string {
    if es == [] then "[]" else Join(CoinStrings(es), ",")
  }

  lemma JoinStartsWith(parts: seq<string>, sep: string)
    requires parts != []
    ensures |Join(parts, sep)| >= |parts[0]| && Join(parts, sep)[..|parts[0]|] == parts[0]
  {
  }

  /** The rendering is `"[]"` exactly for the empty ledger; otherwise it is the
      entries' strings joined by commas, and opens with the first entry's amount. */
  lemma DisplaySpec(es: seq<Coin>)
    ensures Display(es) == "[]" <==> es == []
    ensures es != [] ==> Display(es) == Join(CoinStrings(es), ",")
    ensures es != [] ==> |Display(es)| >= |Decimal(es[0].amount)| &&
                         Display(es)[..|Decimal(es[0].amount)|] == Decimal(es[0].amount)
    ensures es != [] ==> IsDigit(Display(es)[0])
  {
    if es != [] {
      var parts := CoinStrings(es);
      JoinStartsWith(parts, ",");
      var first := Decimal(es[0].amount) + es[0].denom;
      assert parts[0] == first;
      assert Display(es)[0] == first[0];
      assert IsDigit(first[0]);
      assert Display(es)[..|Decimal(es[0].amount)|] == first[..|Decimal(es[0].amount)|];
    }
  }

  /** The two steps of `Coins::add`: booking the current amount (zero when
      absent) and then the raised one. When the raise overflows, the first step
      has changed nothing, because only a present denom can overflow. */
  lemma OrInsertThenAdd(es: seq<Coin>, c: Coin)
    requires Sorted(es)
    ensures var staged := Put(es, Coin(c.denom, AmountOf(es, c.denom)));
      Sorted(staged) && AmountOf(staged, c.denom) == AmountOf(es, c.denom) &&
      (AddCoin(es, c).Err? ==> staged == es) &&
      (AddCoin(es, c).Ok? ==>
        Put(staged, Coin(c.denom, AmountOf(es, c.denom) + c.amount)) == AddCoin(es, c).value)
  {
    var current := AmountOf(es, c.denom);
    PutPresent(es, c.denom);
    PutSpec(es, Coin(c.denom, current));
    PutPut(es, c.denom, current, if current + c.amount <= UINT128_MAX then current + c.amount else 0);
  }

  /** Booking a denom twice keeps the second amount. */
  lemma {:induction false} PutPut(es: seq<Coin>, d: string, a: Uint128, b: Uint128)
    ensures Put(Put(es, Coin(d, a)), Coin(d, b)) == Put(es, Coin(d, b))
    decreases |es|
  {
    if es != [] && es[0].denom != d && !Less(d, es[0].denom) {
      PutPut(es[1..], d, a, b);
      assert ([es[0]] + Put(es[1..], Coin(d, a)))[1..] == Put(es[1..], Coin(d, a));
    }
  }

  // ------------------------------------------------------------------
  // The ledger object
  // ------------------------------------------------------------------

  /** `Coins`, updated in place by `add`. */
  class Coins {
    var entries: seq<Coin>

    ghost predicate Valid()
      reads this
    {
      Sorted(entries)
    }

    /** The map the ledger stands for. */
    function View(): map<string, Uint128>
      reads this
    {
      ToMap(entries)
    }

    /** `Coins::empty`. */
    constructor Empty()
      ensures Valid() && View() == map[]
    {
      entries := [];
    }

    /** `From<Vec<Coin>>`. */
    constructor FromVec(v: seq<Coin>)
      ensures Valid() && entries == Collect(v) && View() == ToMap(v)
    {
      entries := Collect(v);
    }

    /** `Coins::is_empty`. */
    function IsEmpty(): (b: bool)
      reads this
      requires Valid()
      ensures b <==> View() == map[]
    {
      EmptyMap(entries);
      entries == []
    }

    /** `From<Coins> for Vec<Coin>`: one coin per denom, in ascending denom order. */
    function ToVec(): (v: seq<Coin>)
      reads this
      requires Valid()
      ensures Sorted(v) && ToMap(v) == View()
      ensures forall i, j | 0 <= i < j < |v| :: v[i].denom != v[j].denom
    {
      SortedDistinct(entries);
      entries
    }

    /** `Display for Coins`. */
    function ToString(): (s: string)
      reads this
      requires Valid()
      ensures s == "[]" <==> View() == map[]
    {
      DisplaySpec(entries);
      assert IsEmpty() <==> entries == [];
      Display(entries)
    }

    /** `PartialEq for Coins`. */
    function Equals(other: Coins): (b: bool)
      reads this, other
      requires Valid() && other.Valid()
      ensures b <==> View() == other.View()
    {
      SortedCanonical(entries, other.entries);
      entries == other.entries
    }

    /** `Coins::add`: the entry is looked up, inserted at zero if absent, then
        raised with an overflow check. */
    method Add(c: Coin) returns (r: Result<()>)
      requires Valid()
      modifies this
      ensures Valid()
      ensures r.Ok? <==> AddCoin(old(entries), c).Ok?
      ensures r.Ok? ==> entries == AddCoin(old(entries), c).value
      ensures r.Err? ==> r == Err(Overflow) && entries == old(entries)
    {
      ghost var before := entries;
      OrInsertThenAdd(before, c);
      var current := AmountOf(entries, c.denom);
      entries := Put(entries, Coin(c.denom, current));  // `entry(..).or_insert_with(Uint128::zero)`
      if current + c.amount > UINT128_MAX {
        return Err(Overflow);
      }
      entries := Put(entries, Coin(c.denom, current + c.amount));
      r := Ok(());
    }
  }

  // ------------------------------------------------------------------
  // The unit tests of contracts/core/src/utils/coins.rs, as lemmas
  // ------------------------------------------------------------------

  /** The `adding` test: two `umars` additions are summed and the result comes
      out in denom order. */
  lemma AddingVector()
    ensures AddAll([], [Coin("umars", 12345), Coin("uastro", 23456), Coin("uosmo", 34567), Coin("umars", 88888)])
      == Ok([Coin("uastro", 23456), Coin("umars", 12345 + 88888), Coin("uosmo", 34567)])
  {
    var cs := [Coin("umars", 12345), Coin("uastro", 23456), Coin("uosmo", 34567), Coin("umars", 88888)];
    AddingSteps();
    AddAllSnoc([], [], cs[0]);
    AddAllSnoc([], cs[..1], cs[1]);
    AddAllSnoc([], cs[..2], cs[2]);
    AddAllSnoc([], cs[..3], cs[3]);
    assert [] + [cs[0]] == cs[..1] && cs[..1] + [cs[1]] == cs[..2];
    assert cs[..2] + [cs[2]] == cs[..3] && cs[..3] + [cs[3]] == cs;
  }

  lemma AddingSteps()
    ensures AddCoin([], Coin("umars", 12345)) == Ok([Coin("umars", 12345)])
    ensures AddCoin([Coin("umars", 12345)], Coin("uastro", 23456))
      == Ok([Coin("uastro", 23456), Coin("umars", 12345)])
    ensures AddCoin([Coin("uastro", 23456), Coin("umars", 12345)], Coin("uosmo", 34567))
      == Ok([Coin("uastro", 23456), Coin("umars", 12345), Coin("uosmo", 34567)])
    ensures AddCoin([Coin("uastro", 23456), Coin("umars", 12345), Coin("uosmo", 34567)], Coin("umars", 88888))
      == Ok([Coin("uastro", 23456), Coin("umars", 12345 + 88888), Coin("uosmo", 34567)])
  {
    AddingStep2();
    AddingStep3();
    AddingStep4();
  }

  lemma AddingStep2()
    ensures AddCoin([Coin("umars", 12345)], Coin("uastro", 23456))
      == Ok([Coin("uastro", 23456), Coin("umars", 12345)])
  {
    var s1 := [Coin("umars", 12345)];
    assert "uastro"[1] != "umars"[1];
    assert Less("uastro", "umars");
    assert s1[1..] == [];
    assert AmountOf(s1, "uastro") == 0;
    assert Put(s1, Coin("uastro", 23456)) == [Coin("uastro", 23456), Coin("umars", 12345)];
  }

  lemma AddingStep3()
    ensures AddCoin([Coin("uastro", 23456), Coin("umars", 12345)], Coin("uosmo", 34567))
      == Ok([Coin("uastro", 23456), Coin("umars", 12345), Coin("uosmo", 34567)])
  {
    var s2 := [Coin("uastro", 23456), Coin("umars", 12345)];
    var c := Coin("uosmo", 34567);
    assert "uosmo"[1] != "uastro"[1] && "uosmo"[1] != "umars"[1];
    assert !Less("uosmo", "uastro") && !Less("uosmo", "umars");
    assert s2[1..][1..] == [];
    assert ToMap(s2) == map["uastro" := 23456, "umars" := 12345];
    assert AmountOf(s2, "uosmo") == 0;
    assert Put(s2[1..][1..], c) == [c];
    assert Put(s2[1..], c) == [Coin("umars", 12345), c];
    assert Put(s2, c) == [Coin("uastro", 23456), Coin("umars", 12345), c];
  }

  lemma AddingStep4()
    ensures AddCoin([Coin("uastro", 23456), Coin("umars", 12345), Coin("uosmo", 34567)], Coin("umars", 88888))
      == Ok([Coin("uastro", 23456), Coin("umars", 12345 + 88888), Coin("uosmo", 34567)])
  {
    var s3 := [Coin("uastro", 23456), Coin("umars", 12345), Coin("uosmo", 34567)];
    var c := Coin("umars", 12345 + 88888);
    assert "umars"[1] != "uastro"[1] && "umars"[1] != "uosmo"[1];
    assert !Less("umars", "uastro");
    assert s3[1..][1..][1..] == [];
    assert ToMap(s3) == map["uastro" := 23456, "umars" := 12345, "uosmo" := 34567];
    assert AmountOf(s3, "umars") == 12345;
    assert Put(s3[1..], c) == [c] + s3[1..][1..];
    assert Put(s3, c) == [Coin("uastro", 23456), c, Coin("uosmo", 34567)];
  }

  /** The `comparing` test: adding one `umars` makes the ledger differ from what it was. */
  lemma ComparingVector()
    ensures var c1 := Collect([Coin("uastro", 23456), Coin("umars", 88888), Coin("uosmo", 34567)]);
      AddCoin(c1, Coin("umars", 1)).Ok? && AddCoin(c1, Coin("umars", 1)).value != c1
  {
    var c1 := Collect([Coin("uastro", 23456), Coin("umars", 88888), Coin("uosmo", 34567)]);
    AddCoinChanges(c1, Coin("umars", 1));
  }

  /** `From<Vec<Coin>>` is trusted input only: duplicates are not summed (the last
      wins) and a zero amount stays booked. */
  lemma CollectIsUnchecked()
    ensures ToMap(Collect([Coin("uatom", 5), Coin("uatom", 7)])) == map["uatom" := 7]
    ensures ToMap(Collect([Coin("uatom", 0)])) == map["uatom" := 0]
  {
  }
}
