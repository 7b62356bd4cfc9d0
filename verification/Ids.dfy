/**
  Contest ids (internal/extractor/contest.go) and the deterministic Google
  event ids (internal/sync/sync.go): what they determine. The digest is any
  function to 16 bytes; base32hex is that of section 7 of RFC 4648.
 */
module Ids {
  import opened Strings

  // ---------- Decimal numbers ----------

  function Digit(d: int): char
    requires 0 <= d < 10
  {
    ('0' as int + d) as char
  }

  function Digits(n: nat): (s: string)
    ensures s != "" && forall c :: c in s ==> '0' <= c <= '9'
  {
    if n < 10 then [Digit(n)] else Digits(n / 10) + [Digit(n % 10)]
  }

  /** Go's %d. */
  function Decimal(n: int): string {
    if n < 0 then "-" + Digits(-n) else Digits(n)
  }

  function ParseDigits(s: string): int {
    if s == "" then 0 else 10 * ParseDigits(s[..|s| - 1]) + (s[|s| - 1] as int - '0' as int)
  }

  function ParseDecimal(s: string): int {
    if s != "" && s[0] == '-' then -ParseDigits(s[1..]) else ParseDigits(s)
  }

  lemma {:induction false} DigitsRoundTrip(n: nat)
    ensures ParseDigits(Digits(n)) == n
  {
    if n >= 10 {
      DigitsRoundTrip(n / 10);
      var s := Digits(n);
      assert s[..|s| - 1] == Digits(n / 10);
    } else {
      assert [Digit(n)][..0] == "";
    }
  }

  lemma DecimalRoundTrip(n: int)
    ensures ParseDecimal(Decimal(n)) == n
    ensures '_' !in Decimal(n)
  {
    if n < 0 {
      DigitsRoundTrip(-n);
      assert Decimal(n)[1..] == Digits(-n);
    } else {
      DigitsRoundTrip(n);
      assert Digits(n)[0] in Digits(n);
    }
  }

  // ---------- Contest ids ----------

  const PLATFORMS: seq<string> :=
    ["codechef", "codeforces", "leetcode", "atcoder", "hackerrank", "geeksforgeeks", "code360"]

  function ContestId(platform: string, start: int): string {
    platform + "_" + Decimal(start)
  }

  /** The platform and the start time that an id stands for. */
  function PlatformOf(id: string): string {
    var i := LastIndex(id, '_');
    if i < 0 then id else id[..i]
  }

  function StartOf(id: string): int {
    ParseDecimal(id[LastIndex(id, '_') + 1..])
  }

  /** An id determines its platform and its start time, whatever the platform's name. */
  lemma ContestIdRoundTrip(platform: string, start: int)
    ensures PlatformOf(ContestId(platform, start)) == platform
    ensures StartOf(ContestId(platform, start)) == start
  {
    var id := ContestId(platform, start);
    DecimalRoundTrip(start);
    assert id[|platform|] == '_';
    forall k | |platform| < k < |id| ensures id[k] != '_' {
      assert id[k] in Decimal(start);
    }
    assert LastIndex(id, '_') == |platform|;
    assert id[|platform| + 1..] == Decimal(start);
  }

  lemma ContestIdInjective(p: string, s: int, p': string, s': int)
    requires ContestId(p, s) == ContestId(p', s')
    ensures p == p' && s == s'
  {
    ContestIdRoundTrip(p, s);
    ContestIdRoundTrip(p', s');
  }

  // ---------- base32hex ----------

  type Byte = b: int | 0 <= b < 256

  type Bit = b: int | 0 <= b < 2

  /** The lowest `n` bits of `v`, the highest first. */
  function LowBits(v: nat, n: nat): (r: seq<Bit>)
    ensures |r| == n
  {
    if n == 0 then [] else LowBits(v / 2, n - 1) + [v % 2]
  }

  function ValueOf(bits: seq<Bit>): (v: nat)
    ensures v < Pow2(|bits|)
  {
    if bits == [] then 0 else 2 * ValueOf(bits[..|bits| - 1]) + bits[|bits| - 1]
  }

  function Pow2(n: nat): nat {
    if n == 0 then 1 else 2 * Pow2(n - 1)
  }

  lemma {:induction false} LowBitsValue(v: nat, n: nat)
    requires v < Pow2(n)
    ensures ValueOf(LowBits(v, n)) == v
  {
    if n > 0 {
      LowBitsValue(v / 2, n - 1);
      assert LowBits(v, n)[..n - 1] == LowBits(v / 2, n - 1);
    }
  }

  lemma {:induction false} ValueInjective(a: seq<Bit>, b: seq<Bit>)
    requires |a| == |b| && ValueOf(a) == ValueOf(b)
    ensures a == b
    decreases |a|
  {
    if a != [] {
      var n := |a| - 1;
      ValueInjective(a[..n], b[..n]);
      assert a == a[..n] + [a[n]] && b == b[..n] + [b[n]];
    }
  }

  function Bits(b: Byte): (r: seq<Bit>)
    ensures |r| == 8
  {
    LowBits(b, 8)
  }

  function AllBits(bytes: seq<Byte>): (r: seq<Bit>)
    ensures |r| == 8 * |bytes|
  {
    if bytes == [] then [] else Bits(bytes[0]) + AllBits(bytes[1..])
  }

  /** The alphabet "0123456789ABCDEFGHIJKLMNOPQRSTUV" in lower case. */
  function Letter(v: int): (c: char)
    requires 0 <= v < 32
    ensures '0' <= c <= '9' || 'a' <= c <= 'v'
  {
    if v < 10 then ('0' as int + v) as char else ('a' as int + v - 10) as char
  }

  function Zeros(n: nat): (r: seq<Bit>)
    ensures |r| == n
  {
    seq(n, _ => 0)
  }

  /** The first five bits, filled up with zeros where there are fewer. */
  function FirstGroup(bits: seq<Bit>): (g: seq<Bit>)
    ensures |g| == 5
  {
    if |bits| < 5 then bits + Zeros(5 - |bits|) else bits[..5]
  }

  /** One letter for every group of five bits; no padding characters. */
  function Groups(bits: seq<Bit>): (s: string)
    ensures |s| == (|bits| + 4) / 5
    ensures forall c :: c in s ==> '0' <= c <= '9' || 'a' <= c <= 'v'
    decreases |bits|
  {
    if bits == [] then ""
    else
      assert Pow2(5) == 32;
      [Letter(ValueOf(FirstGroup(bits)))] + Groups(if |bits| < 5 then [] else bits[5..])
  }

  function Base32Hex(bytes: seq<Byte>): string {
    Groups(AllBits(bytes))
  }

  lemma BitsInjective(a: Byte, b: Byte)
    requires Bits(a) == Bits(b)
    ensures a == b
  {
    assert Pow2(8) == 256;
    LowBitsValue(a, 8);
    LowBitsValue(b, 8);
  }

  lemma {:induction false} AllBitsInjective(a: seq<Byte>, b: seq<Byte>)
    requires |a| == |b| && AllBits(a) == AllBits(b)
    ensures a == b
    decreases |a|
  {
    if a != [] {
      assert Bits(a[0]) == AllBits(a)[..8] == AllBits(b)[..8] == Bits(b[0]);
      BitsInjective(a[0], b[0]);
      assert AllBits(a[1..]) == AllBits(a)[8..] == AllBits(b)[8..] == AllBits(b[1..]);
      AllBitsInjective(a[1..], b[1..]);
    }
  }

  lemma {:induction false} GroupsInjective(a: seq<Bit>, b: seq<Bit>)
    requires |a| == |b| && Groups(a) == Groups(b)
    ensures a == b
    decreases |a|
  {
    if a != [] {
      var g, h := FirstGroup(a), FirstGroup(b);
      assert Groups(a)[0] == Groups(b)[0];
      assert Pow2(5) == 32;
      ValueInjective(g, h);
      if |a| < 5 {
        assert a == g[..|a|] && b == h[..|a|];
      } else {
        assert Groups(a[5..]) == Groups(a)[1..] == Groups(b)[1..] == Groups(b[5..]);
        GroupsInjective(a[5..], b[5..]);
        assert a == a[..5] + a[5..] && b == b[..5] + b[5..];
      }
    }
  }

  /** Two byte strings of one length have one encoding only if they are equal. */
  lemma Base32HexInjective(a: seq<Byte>, b: seq<Byte>)
    requires |a| == |b| && Base32Hex(a) == Base32Hex(b)
    ensures a == b
  {
    GroupsInjective(AllBits(a), AllBits(b));
    AllBitsInjective(a, b);
  }

  // ---------- As numbers ----------

  lemma {:induction false} Pow2Add(a: nat, b: nat)
    ensures Pow2(a + b) == Pow2(a) * Pow2(b)
  {
    if a > 0 {
      Pow2Add(a - 1, b);
    }
  }

  /** Bits one after the other: the first ones count for more. */
  lemma {:induction false} ValueConcat(a: seq<Bit>, b: seq<Bit>)
    ensures ValueOf(a + b) == ValueOf(a) * Pow2(|b|) + ValueOf(b)
    decreases |b|
  {
    if b == [] {
      assert a + b == a;
    } else {
      var n := |b| - 1;
      var init, last := b[..n], b[n];
      assert (a + b)[..|a| + n] == a + init && (a + b)[|a| + n] == last;
      ValueConcat(a, init);
      ShiftIn(ValueOf(a), Pow2(n), ValueOf(init), last);
    }
  }

  lemma ShiftIn(x: int, p: int, y: int, bit: int)
    ensures 2 * (x * p + y) + bit == x * (2 * p) + (2 * y + bit)
  {
  }

  lemma {:induction false} ValueZeros(n: nat)
    ensures ValueOf(Zeros(n)) == 0
  {
    if n > 0 {
      assert Zeros(n)[..n - 1] == Zeros(n - 1);
      ValueZeros(n - 1);
    }
  }

  /** Bytes as one number, the first byte the highest. */
  function BytesNumber(bytes: seq<Byte>): nat {
    if bytes == [] then 0 else bytes[0] * Pow2(8 * (|bytes| - 1)) + BytesNumber(bytes[1..])
  }

  /** The digit values of section 7 of RFC 4648: 0 to 9, then the letters from 10 on. */
  function DigitValue(c: char): int {
    if '0' <= c <= '9' then c as int - '0' as int else c as int - 'a' as int + 10
  }

  /** A string as one number to the base 32. */
  function Base32Number(s: string): int {
    if s == "" then 0 else DigitValue(s[0]) * Pow2(5 * (|s| - 1)) + Base32Number(s[1..])
  }

  lemma {:induction false} BitsNumber(bytes: seq<Byte>)
    ensures ValueOf(AllBits(bytes)) == BytesNumber(bytes)
  {
    if bytes != [] {
      BitsNumber(bytes[1..]);
      ValueConcat(Bits(bytes[0]), AllBits(bytes[1..]));
      assert Pow2(8) == 256;
      LowBitsValue(bytes[0], 8);
    }
  }

  function Padding(n: nat): nat {
    5 * ((n + 4) / 5) - n
  }

  lemma LetterValue(v: int)
    requires 0 <= v < 32
    ensures DigitValue(Letter(v)) == v
  {
  }

  lemma ShortGroup(bits: seq<Bit>)
    requires 0 < |bits| < 5
    ensures ValueOf(FirstGroup(bits)) == ValueOf(bits) * Pow2(5 - |bits|)
  {
    ValueConcat(bits, Zeros(5 - |bits|));
    ValueZeros(5 - |bits|);
  }

  lemma FullGroup(bits: seq<Bit>)
    requires |bits| >= 5
    ensures
      var m, rest := (|bits| + 4) / 5, bits[5..];
      ValueOf(bits) * Pow2(Padding(|bits|)) ==
        ValueOf(FirstGroup(bits)) * Pow2(5 * (m - 1)) + ValueOf(rest) * Pow2(Padding(|rest|))
  {
    var m, head, rest := (|bits| + 4) / 5, bits[..5], bits[5..];
    var pad := Padding(|bits|);
    assert bits == head + rest && Padding(|rest|) == pad;
    ValueConcat(head, rest);
    Pow2Add(|rest|, pad);
    assert |rest| + pad == 5 * (m - 1);
    Distribute(ValueOf(head), Pow2(|rest|), ValueOf(rest), Pow2(pad));
  }

  lemma Distribute(a: int, b: int, c: int, d: int)
    ensures (a * b + c) * d == a * (b * d) + c * d
  {
  }

  lemma {:induction false} GroupsNumber(bits: seq<Bit>)
    ensures Base32Number(Groups(bits)) == ValueOf(bits) * Pow2(Padding(|bits|))
    decreases |bits|
  {
    if bits != [] {
      assert Pow2(5) == 32;
      var v, rest := ValueOf(FirstGroup(bits)), if |bits| < 5 then [] else bits[5..];
      LetterValue(v);
      GroupsNumber(rest);
      var s := Groups(bits);
      assert s[0] == Letter(v) && s[1..] == Groups(rest);
      if |bits| < 5 {
        ShortGroup(bits);
        assert Padding(|bits|) == 5 - |bits|;
      } else {
        FullGroup(bits);
      }
    }
  }

  /** Base32hex writes the number the bytes stand for, filled up with zero bits on the right to a full last digit. */
  lemma Base32HexNumber(bytes: seq<Byte>)
    ensures Base32Number(Base32Hex(bytes)) == BytesNumber(bytes) * Pow2(Padding(8 * |bytes|))
  {
    BitsNumber(bytes);
    GroupsNumber(AllBits(bytes));
  }

  // ---------- Event ids ----------

  /** GenerateDeterministicEventID with the digest as a parameter. */
  function EventId(digest: string -> seq<Byte>, googleId: string, contestId: string): string {
    Base32Hex(digest(googleId + "_" + contestId))
  }

  /** What the calendar service accepts: 26 characters of 0-9 and a-v. */
  lemma EventIdShape(digest: string -> seq<Byte>, googleId: string, contestId: string)
    requires |digest(googleId + "_" + contestId)| == 16
    ensures |EventId(digest, googleId, contestId)| == 26
    ensures forall c :: c in EventId(digest, googleId, contestId) ==> '0' <= c <= '9' || 'a' <= c <= 'v'
  {
  }

  /** Event ids coincide exactly when the pairs do or the digest collides. */
  lemma EventIdCollision(digest: string -> seq<Byte>, g: string, c: string, g': string, c': string)
    requires '_' !in g && '_' !in g'
    requires |digest(g + "_" + c)| == |digest(g' + "_" + c')| == 16
    ensures EventId(digest, g, c) == EventId(digest, g', c') <==>
            (g == g' && c == c') ||
            (g + "_" + c != g' + "_" + c' && digest(g + "_" + c) == digest(g' + "_" + c'))
  {
    if EventId(digest, g, c) == EventId(digest, g', c') {
      Base32HexInjective(digest(g + "_" + c), digest(g' + "_" + c'));
    }
    if g + "_" + c == g' + "_" + c' {
      FirstUnderscore(g, c, g', c');
    }
  }

  lemma FirstUnderscore(g: string, c: string, g': string, c': string)
    requires '_' !in g && '_' !in g'
    requires g + "_" + c == g' + "_" + c'
    ensures g == g' && c == c'
  {
    var s := g + "_" + c;
    FreeOf(g, "_");
    FreeOf(g', "_");
    assert s == "" + g + "_" + c && s == "" + g' + "_" + c';
    Found(s, 0, |g|, "", g, "_", c);
    Found(s, 0, |g'|, "", g', "_", c');
  }
}
