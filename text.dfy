/** The string primitives of Rust's standard library that the core relies on:
    `as_bytes` (UTF-8), the decimal `Display` of integers, hex encoding,
    `join` and `split_once`. */
module Text {
  import opened Types

  // ------------------------------------------------------------------
  // UTF-8 (`str::as_bytes`)
  // ------------------------------------------------------------------

  /** The UTF-8 encoding of one Unicode scalar value. */
  function CharUtf8(c: char): (r: Bytes)
    ensures 1 <= |r| <= 4
    ensures (c as int < 0x80) <==> |r| == 1
    ensures |r| == 1 ==> r[0] == c as int
  {
    var n := c as int;
    if n < 0x80 then [n]
    else if n < 0x800 then [0xC0 + n / 64, 0x80 + n % 64]
    else if n < 0x1_0000 then [0xE0 + n / 4096, 0x80 + (n / 64) % 64, 0x80 + n % 64]
    else [0xF0 + n / 262144, 0x80 + (n / 4096) % 64, 0x80 + (n / 64) % 64, 0x80 + n % 64]
  }

  function Utf8(s: string): (r: Bytes)
    ensures |r| >= |s|
    decreases |s|
  {
    if s == [] then [] else Utf8(s[..|s| - 1]) + CharUtf8(s[|s| - 1])
  }

  /** Encoding is a homomorphism from concatenation of strings to concatenation of bytes. */
  lemma {:induction false} Utf8Append(a: string, b: string)
    ensures Utf8(a + b) == Utf8(a) + Utf8(b)
    decreases |b|
  {
    if b == [] {
      assert a + b == a;
    } else {
      var b' := b[..|b| - 1];
      assert (a + b)[..|a + b| - 1] == a + b';
      assert (a + b)[|a + b| - 1] == b[|b| - 1];
      Utf8Append(a, b');
    }
  }

  /** The lead byte of an encoded scalar value tells how many bytes it takes. */
  function LeadLength(b: Byte): nat {
    if b < 0xC0 then 1 else if b < 0xE0 then 2 else if b < 0xF0 then 3 else 4
  }

  /** No encoded byte is 0xF5 or above. */
  predicate NoHighByte(bs: Bytes) {
    forall i | 0 <= i < |bs| :: bs[i] < 0xF5
  }

  lemma CharUtf8Lead(c: char)
    ensures LeadLength(CharUtf8(c)[0]) == |CharUtf8(c)|
    ensures NoHighByte(CharUtf8(c))
  {
  }

  /** The bytes of one scalar value determine it. */
  lemma CharUtf8Injective(a: char, b: char)
    requires CharUtf8(a) == CharUtf8(b)
    ensures a == b
  {
    var m, n := a as int, b as int;
    var r := CharUtf8(a);
    var r0, r1, r2, r3: int := r[0], if |r| > 1 then r[1] else 0, if |r| > 2 then r[2] else 0, if |r| > 3 then r[3] else 0;
    if |r| == 2 {
      assert m == (r0 - 0xC0) * 64 + (r1 - 0x80) == n;
    } else if |r| == 3 {
      assert (m / 64) / 64 == m / 4096 && (n / 64) / 64 == n / 4096;
      assert m == ((r0 - 0xE0) * 64 + (r1 - 0x80)) * 64 + (r2 - 0x80) == n;
    } else if |r| == 4 {
      assert (m / 64) / 64 == m / 4096 && (n / 64) / 64 == n / 4096;
      assert (m / 4096) / 64 == m / 262144 && (n / 4096) / 64 == n / 262144;
      assert m == (((r0 - 0xF0) * 64 + (r1 - 0x80)) * 64 + (r2 - 0x80)) * 64 + (r3 - 0x80) == n;
    }
  }

  /** UTF-8 is prefix-free: an encoded scalar value can be split off the front
      of a byte string in one way only. */
  lemma CharUtf8PrefixFree(a: char, x: Bytes, b: char, y: Bytes)
    requires CharUtf8(a) + x == CharUtf8(b) + y
    ensures a == b && x == y
  {
    CharUtf8Lead(a);
    CharUtf8Lead(b);
    var k := |CharUtf8(a)|;
    assert (CharUtf8(a) + x)[0] == CharUtf8(a)[0];
    assert (CharUtf8(b) + y)[0] == CharUtf8(b)[0];
    assert CharUtf8(a) == (CharUtf8(a) + x)[..k] == (CharUtf8(b) + y)[..k] == CharUtf8(b);
    CharUtf8Injective(a, b);
    assert x == (CharUtf8(a) + x)[k..] == (CharUtf8(b) + y)[k..] == y;
  }

  lemma Utf8Cons(s: string)
    requires s != []
    ensures Utf8(s) == CharUtf8(s[0]) + Utf8(s[1..])
  {
    assert s == [s[0]] + s[1..];
    Utf8Append([s[0]], s[1..]);
    assert [s[0]][..0] == [];
  }

  /** Distinct strings have distinct encodings. */
  lemma {:induction false} Utf8Injective(a: string, b: string)
    requires Utf8(a) == Utf8(b)
    ensures a == b
    decreases |a|
  {
    if a != [] && b != [] {
      Utf8Cons(a);
      Utf8Cons(b);
      CharUtf8PrefixFree(a[0], Utf8(a[1..]), b[0], Utf8(b[1..]));
      Utf8Injective(a[1..], b[1..]);
      assert a == [a[0]] + a[1..] && b == [b[0]] + b[1..];
    }
  }

  lemma {:induction false} Utf8NoHighByte(s: string)
    ensures NoHighByte(Utf8(s))
    decreases |s|
  {
    if s != [] {
      Utf8NoHighByte(s[..|s| - 1]);
      CharUtf8Lead(s[|s| - 1]);
    }
  }

  /** A byte that no encoding contains, used as a separator. */
  const MARK: Byte := 0xFF

  /** Splitting at the first separator: when the two fronts contain none and
      the two backs are empty or start with one, the split is unique. */
  lemma SplitAtMark(x: Bytes, y: Bytes, x': Bytes, y': Bytes)
    requires NoHighByte(x) && NoHighByte(x')
    requires (y == [] || y[0] == MARK) && (y' == [] || y'[0] == MARK)
    requires x + y == x' + y'
    ensures x == x' && y == y'
  {
    var z := x + y;
    assert forall i | 0 <= i < |x'| :: z[i] < 0xF5 by {
      forall i | 0 <= i < |x'| ensures z[i] < 0xF5 {
        assert z[i] == (x' + y')[i] == x'[i];
      }
    }
    assert forall i | 0 <= i < |x| :: z[i] < 0xF5;
    assert |z| == |x| || z[|x|] == MARK;
    assert |z| == |x'| || z[|x'|] == MARK;
    assert |x| == |x'|;
    assert x == (x + y)[..|x|] && x' == (x' + y')[..|x|];
    assert y == (x + y)[|x|..] && y' == (x' + y')[|x|..];
  }

  // ------------------------------------------------------------------
  // Decimal digits (`Display` of `Uint128`, `u64`)
  // ------------------------------------------------------------------

  predicate IsDigit(c: char) { '0' <= c <= '9' }

  function Digit(d: nat): (c: char)
    requires d < 10
    ensures IsDigit(c) && (c as int) - ('0' as int) == d
  {
    ('0' as int + d) as char
  }

  /** The shortest decimal representation of `n`. */
  function Decimal(n: nat): (s: string)
    ensures |s| >= 1
    ensures forall i | 0 <= i < |s| :: IsDigit(s[i])
    ensures |s| > 1 ==> s[0] != '0'
    decreases n
  {
    if n < 10 then [Digit(n)] else Decimal(n / 10) + [Digit(n % 10)]
  }

  /** Reads a string of digits back as a number. */
  function ParseDecimal(s: string): nat
    requires forall i | 0 <= i < |s| :: IsDigit(s[i])
    decreases |s|
  {
    if s == [] then 0
    else
      assert IsDigit(s[|s| - 1]);
      ParseDecimal(s[..|s| - 1]) * 10 + ((s[|s| - 1] as int) - ('0' as int))
  }

  lemma {:induction false} DecimalRoundTrip(n: nat)
    ensures ParseDecimal(Decimal(n)) == n
    decreases n
  {
    if n >= 10 {
      var s := Decimal(n);
      assert s[..|s| - 1] == Decimal(n / 10);
      DecimalRoundTrip(n / 10);
    }
  }

  /** Distinct amounts print differently. */
  lemma DecimalInjective(m: nat, n: nat)
    requires Decimal(m) == Decimal(n)
    ensures m == n
  {
    DecimalRoundTrip(m);
    DecimalRoundTrip(n);
  }

  // ------------------------------------------------------------------
  // Hex (`HexBinary::to_hex`)
  // ------------------------------------------------------------------

  function HexDigit(d: nat): (c: char)
    requires d < 16
  {
    if d < 10 then Digit(d) else ('a' as int + (d - 10)) as char
  }

  /** Lower-case hex, two characters per byte. */
  function Hex(bs: Bytes): (s: string)
    ensures |s| == 2 * |bs|
  {
    if bs == [] then [] else [HexDigit(bs[0] / 16), HexDigit(bs[0] % 16)] + Hex(bs[1..])
  }

  // ------------------------------------------------------------------
  // Joining and splitting
  // ------------------------------------------------------------------

  /** `Vec<String>::join(sep)`. */
  function Join(parts: seq<string>, sep: string): string
    decreases |parts|
  {
    if parts == [] then []
    else if |parts| == 1 then parts[0]
    else parts[0] + sep + Join(parts[1..], sep)
  }

  /** The index of the first occurrence of `c` in `s`. */
  function FindFirst(s: string, c: char): (r: Option<nat>)
    ensures r.None? <==> c !in s
    ensures r.Some? ==> r.value < |s| && s[r.value] == c && c !in s[..r.value]
    decreases |s|
  {
    if s == [] then None
    else if s[0] == c then Some(0)
    else
      match FindFirst(s[1..], c)
      case None => None
      case Some(i) =>
        assert s[..i + 1] == [s[0]] + s[1..][..i];
        Some(i + 1)
  }

  /** `str::split_once(c)`: the text before and after the first `c`. */
  function SplitOnce(s: string, c: char): (r: Option<(string, string)>)
    ensures r.None? <==> c !in s
    ensures r.Some? ==> r.value.0 + [c] + r.value.1 == s && c !in r.value.0
  {
    match FindFirst(s, c)
    case None => None
    case Some(i) =>
      assert s[..i] + [c] + s[i + 1..] == s;
      Some((s[..i], s[i + 1..]))
  }

  /** Splitting at the first `c` undoes joining around `c`, provided the left
      part holds no `c`; the right part may. */
  lemma SplitOnceJoin(a: string, c: char, b: string)
    requires c !in a
    ensures SplitOnce(a + [c] + b, c) == Some((a, b))
  {
    var s := a + [c] + b;
    var r := SplitOnce(s, c);
    assert s[|a|] == c;
    assert c in s;
    var (x, y) := r.value;
    // both splits put the first `c` at the same position
    assert |x| == |a|;
    assert x == s[..|x|] == a;
    assert y == s[|a| + 1..] == b;
  }
}
