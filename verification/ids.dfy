/** Send ids: a 48-bit millisecond timestamp and 80 random bits, in the unpadded
    "extended hex" base32 of section 7 of RFC 4648, lower-cased. */
module Ids {
  import opened Records

  // ------------------------------------------------------------- lexicographic order

  /** Strict lexicographic order, on sequences of the same length. */
  predicate Less(a: seq<int>, b: seq<int>)
    requires |a| == |b|
  {
    |a| > 0 && (a[0] < b[0] || (a[0] == b[0] && Less(a[1..], b[1..])))
  }

  lemma {:induction false} LessTotal(a: seq<int>, b: seq<int>)
    requires |a| == |b|
    ensures !(Less(a, b) && Less(b, a))
    ensures Less(a, b) || Less(b, a) || a == b
    ensures !Less(a, a)
  {
    if |a| > 0 {
      LessTotal(a[1..], b[1..]);
      if a[0] == b[0] && a[1..] == b[1..] {
        assert a == [a[0]] + a[1..] && b == [b[0]] + b[1..];
      }
    }
  }

  lemma {:induction false} LessConcat(a: seq<int>, b: seq<int>, u: seq<int>, v: seq<int>)
    requires |a| == |b| && |u| == |v|
    ensures Less(a + u, b + v) <==> Less(a, b) || (a == b && Less(u, v))
  {
    if |a| == 0 {
      assert a + u == u && b + v == v;
    } else {
      assert (a + u)[1..] == a[1..] + u && (b + v)[1..] == b[1..] + v;
      LessConcat(a[1..], b[1..], u, v);
      if a[0] == b[0] { assert a == b <==> a[1..] == b[1..] by { HeadTail(a, b); } }
    }
  }

  lemma HeadTail(a: seq<int>, b: seq<int>)
    requires |a| == |b| > 0 && a[0] == b[0]
    ensures a == b <==> a[1..] == b[1..]
  {
    assert a == [a[0]] + a[1..] && b == [b[0]] + b[1..];
  }

  // --------------------------------------------------------------------- bits

  predicate AreBits(s: seq<int>) {
    forall i :: 0 <= i < |s| ==> 0 <= s[i] < 2
  }

  function Pow2(n: nat): nat {
    if n == 0 then 1 else 2 * Pow2(n - 1)
  }

  /** The `n` low bits of `x`, most significant first. */
  function Bits(n: nat, x: int): (s: seq<int>)
    ensures |s| == n && AreBits(s)
  {
    if n == 0 then [] else Bits(n - 1, x / 2) + [x % 2]
  }

  lemma {:induction false} BitsOrder(n: nat, x: int, y: int)
    requires 0 <= x < Pow2(n) && 0 <= y < Pow2(n)
    ensures Less(Bits(n, x), Bits(n, y)) <==> x < y
    ensures Bits(n, x) == Bits(n, y) <==> x == y
  {
    if n > 0 {
      BitsOrder(n - 1, x / 2, y / 2);
      LessConcat(Bits(n - 1, x / 2), Bits(n - 1, y / 2), [x % 2], [y % 2]);
      assert Less([x % 2], [y % 2]) <==> x % 2 < y % 2;
      if Bits(n, x) == Bits(n, y) {
        assert Bits(n, x)[..n - 1] == Bits(n - 1, x / 2) && Bits(n, y)[..n - 1] == Bits(n - 1, y / 2);
        assert Bits(n, x)[n - 1] == x % 2 && Bits(n, y)[n - 1] == y % 2;
      }
    }
  }

  /** The bit string of a byte string. */
  function ByteBits(bytes: seq<byte>): (s: seq<int>)
    ensures |s| == 8 * |bytes| && AreBits(s)
  {
    if |bytes| == 0 then [] else Bits(8, bytes[0]) + ByteBits(bytes[1..])
  }

  function Ints(bytes: seq<byte>): (s: seq<int>)
    ensures |s| == |bytes|
  {
    seq(|bytes|, i requires 0 <= i < |bytes| => bytes[i])
  }

  lemma {:induction false} ByteBitsOrder(a: seq<byte>, b: seq<byte>)
    requires |a| == |b|
    ensures Less(ByteBits(a), ByteBits(b)) <==> Less(Ints(a), Ints(b))
  {
    if |a| > 0 {
      ByteBitsOrder(a[1..], b[1..]);
      assert Pow2(8) == 256 by { assert Pow2(4) == 16; }
      BitsOrder(8, a[0], b[0]);
      LessConcat(Bits(8, a[0]), Bits(8, b[0]), ByteBits(a[1..]), ByteBits(b[1..]));
      assert Ints(a)[1..] == Ints(a[1..]) && Ints(b)[1..] == Ints(b[1..]);
    }
  }

  // ------------------------------------------------------------------- base32hex

  /** The value of a bit string, most significant bit first. */
  function Val(bits: seq<int>): int {
    if |bits| == 0 then 0 else 2 * Val(bits[..|bits| - 1]) + bits[|bits| - 1]
  }

  lemma {:induction false} ValOrder(a: seq<int>, b: seq<int>)
    requires |a| == |b| && AreBits(a) && AreBits(b)
    ensures 0 <= Val(a) < Pow2(|a|)
    ensures Less(a, b) <==> Val(a) < Val(b)
    ensures a == b <==> Val(a) == Val(b)
  {
    if |a| > 0 {
      var n := |a| - 1;
      var x, y := a[..n], b[..n];
      ValOrder(x, y);
      assert a == x + [a[n]] && b == y + [b[n]];
      LessConcat(x, y, [a[n]], [b[n]]);
      assert Less([a[n]], [b[n]]) <==> a[n] < b[n];
    }
  }

  const ZEROS := [0, 0, 0, 0]

  /** Groups of five bits; the last group is filled up with zero bits, and not padded. */
  function Symbols(bits: seq<int>): (s: seq<int>)
    ensures |s| == (|bits| + 4) / 5
  {
    if |bits| == 0 then []
    else if |bits| < 5 then [Val(bits + ZEROS[..5 - |bits|])]
    else [Val(bits[..5])] + Symbols(bits[5..])
  }

  predicate AreSymbols(s: seq<int>) {
    forall i :: 0 <= i < |s| ==> 0 <= s[i] < 32
  }

  lemma {:induction false} SymbolsOrder(a: seq<int>, b: seq<int>)
    requires |a| == |b| && AreBits(a) && AreBits(b)
    ensures Less(Symbols(a), Symbols(b)) <==> Less(a, b)
    ensures AreSymbols(Symbols(a))
    decreases |a|
  {
    assert Pow2(5) == 32 by { assert Pow2(3) == 8; }
    if |a| == 0 {
    } else if |a| < 5 {
      var z := ZEROS[..5 - |a|];
      ValOrder(a + z, b + z);
      LessConcat(a, b, z, z);
      LessTotal(z, z);
    } else {
      assert a == a[..5] + a[5..] && b == b[..5] + b[5..];
      ValOrder(a[..5], b[..5]);
      LessConcat(a[..5], b[..5], a[5..], b[5..]);
      SymbolsOrder(a[5..], b[5..]);
      var x, y := Val(a[..5]), Val(b[..5]);
      assert Symbols(a)[1..] == Symbols(a[5..]) && Symbols(b)[1..] == Symbols(b[5..]);
    }
  }

  const ALPHABET := "0123456789ABCDEFGHIJKLMNOPQRSTUV"

  /** strings.ToLower on this alphabet. */
  function Lower(c: char): char {
    if 'A' <= c <= 'Z' then (c as int + 32) as char else c
  }

  /** The lower-cased digit of a symbol. */
  function Digit(v: int): (c: char)
    requires 0 <= v < 32
  {
    Lower(ALPHABET[v])
  }

  /** Digits are in the order of their values. */
  lemma DigitOrder(v: int, w: int)
    requires 0 <= v < 32 && 0 <= w < 32
    ensures v < w <==> Digit(v) as int < Digit(w) as int
    ensures Digit(v) as int == if v < 10 then '0' as int + v else 'a' as int + v - 10
    ensures Digit(v) != '/' && Digit(v) != '.'
  {
    DigitValue(v);
    DigitValue(w);
  }

  lemma DigitValue(v: int)
    requires 0 <= v < 32
    ensures Digit(v) as int == if v < 10 then '0' as int + v else 'a' as int + v - 10
  {
    if v < 10 {
      assert ALPHABET[v] as int == '0' as int + v;
    } else {
      assert ALPHABET[v] as int == 'A' as int + v - 10;
    }
  }

  lemma SymbolRange(bytes: seq<byte>)
    ensures AreSymbols(Symbols(ByteBits(bytes)))
  {
    SymbolsOrder(ByteBits(bytes), ByteBits(bytes));
  }

  function Digits(v: seq<int>): (s: string)
    requires AreSymbols(v)
    ensures |s| == |v|
  {
    seq(|v|, i requires 0 <= i < |v| => Digit(v[i]))
  }

  function Encode(bytes: seq<byte>): (s: string)
    ensures |s| == (8 * |bytes| + 4) / 5
  {
    SymbolRange(bytes);
    Digits(Symbols(ByteBits(bytes)))
  }

  /** Go compares strings byte by byte. */
  function Codes(s: string): seq<int> {
    seq(|s|, i requires 0 <= i < |s| => s[i] as int)
  }

  lemma {:induction false} DigitsOrder(a: seq<int>, b: seq<int>)
    requires |a| == |b| && AreSymbols(a) && AreSymbols(b)
    ensures Less(Codes(Digits(a)), Codes(Digits(b))) <==> Less(a, b)
  {
    if |a| > 0 {
      DigitsOrder(a[1..], b[1..]);
      DigitOrder(a[0], b[0]);
      DigitOrder(b[0], a[0]);
      assert Codes(Digits(a))[1..] == Codes(Digits(a[1..])) && Codes(Digits(b))[1..] == Codes(Digits(b[1..]));
    }
  }

  /** The encoding preserves strict lexicographic order between byte strings of the same
      length, whatever the length, and is injective on them. */
  lemma EncodePreservesOrder(a: seq<byte>, b: seq<byte>)
    requires |a| == |b|
    ensures Less(Codes(Encode(a)), Codes(Encode(b))) <==> Less(Ints(a), Ints(b))
    ensures Encode(a) == Encode(b) ==> a == b
  {
    ByteBitsOrder(a, b);
    SymbolsOrder(ByteBits(a), ByteBits(b));
    SymbolRange(a);
    SymbolRange(b);
    DigitsOrder(Symbols(ByteBits(a)), Symbols(ByteBits(b)));
    if Encode(a) == Encode(b) {
      LessTotal(Codes(Encode(a)), Codes(Encode(b)));
      LessTotal(Ints(a), Ints(b));
      EncodeReverse(a, b);
      forall i | 0 <= i < |a| ensures a[i] == b[i] { assert Ints(a)[i] == Ints(b)[i]; }
    }
  }

  lemma FiveBits(a: int, b: int, c: int, d: int, e: int)
    ensures Val([a, b, c, d, e]) == 16 * a + 8 * b + 4 * c + 2 * d + e
  {
    assert [a, b, c, d, e][..4] == [a, b, c, d] && [a, b, c, d][..3] == [a, b, c];
    assert [a, b, c][..2] == [a, b] && [a, b][..1] == [a] && [a][..0] == [];
    assert Val([a]) == a && Val([a, b]) == 2 * a + b && Val([a, b, c]) == 4 * a + 2 * b + c;
    assert Val([a, b, c, d]) == 8 * a + 4 * b + 2 * c + d;
  }

  lemma BitsStep(n: nat, x: int)
    ensures Bits(0, x) == [] && Bits(n + 1, x) == Bits(n, x / 2) + [x % 2]
  {
  }

  lemma OneByte(b: byte)
    ensures ByteBits([b]) == Bits(8, b)
  {
    hide Bits;
    assert [b][1..] == [] && ByteBits([]) == [];
  }

  lemma BitsOfF()
    ensures ByteBits([0x66]) == [0, 1, 1, 0, 0] + [1, 1, 0]
  {
    hide *;
    OneByte(0x66);
    BitsStep(0, 0);
    BitsStep(1, 1);
    BitsStep(2, 3);
    BitsStep(3, 6);
    BitsStep(4, 12);
    BitsStep(5, 25);
    BitsStep(6, 51);
    BitsStep(7, 102);
  }

  /** The test vector of section 10 of RFC 4648 for one byte, BASE32-HEX("f"), in lower case
      and without padding. */
  lemma EncodesLikeTheStandard()
    ensures Encode([0x66]) == "co"
  {
    BitsOfF();
    var high, low := [0, 1, 1, 0, 0], [1, 1, 0];
    FiveBits(0, 1, 1, 0, 0);
    FiveBits(1, 1, 0, 0, 0);
    hide Val, ByteBits;
    assert (high + low)[..5] == high && (high + low)[5..] == low && low + ZEROS[..2] == [1, 1, 0, 0, 0];
    assert Symbols(low) == [24] && Symbols(high + low) == [12, 24];
    hide Symbols;
    DigitOrder(12, 24);
    DigitOrder(24, 12);
    assert Digits([12, 24]) == [Digit(12), Digit(24)] == "co";
  }

  lemma EncodeReverse(a: seq<byte>, b: seq<byte>)
    requires |a| == |b|
    ensures Less(Codes(Encode(b)), Codes(Encode(a))) <==> Less(Ints(b), Ints(a))
  {
    ByteBitsOrder(b, a);
    SymbolsOrder(ByteBits(b), ByteBits(a));
    SymbolRange(a);
    SymbolRange(b);
    DigitsOrder(Symbols(ByteBits(b)), Symbols(ByteBits(a)));
  }

  // ------------------------------------------------------------------------ send ids

  /** The low `n` bytes of `m`, most significant first. */
  function BigEndian(n: nat, m: nat): (s: seq<byte>)
    ensures |s| == n
  {
    if n == 0 then [] else BigEndian(n - 1, m / 256) + [m % 256]
  }

  function Pow256(n: nat): nat {
    if n == 0 then 1 else 256 * Pow256(n - 1)
  }

  lemma {:induction false} BigEndianOrder(n: nat, l: nat, m: nat)
    requires l < Pow256(n) && m < Pow256(n)
    ensures Less(Ints(BigEndian(n, l)), Ints(BigEndian(n, m))) <==> l < m
    ensures BigEndian(n, l) == BigEndian(n, m) <==> l == m
  {
    if n > 0 {
      BigEndianOrder(n - 1, l / 256, m / 256);
      var x, y := BigEndian(n - 1, l / 256), BigEndian(n - 1, m / 256);
      LessConcat(Ints(x), Ints(y), [l % 256], [m % 256]);
      assert Ints(BigEndian(n, l)) == Ints(x) + [l % 256] && Ints(BigEndian(n, m)) == Ints(y) + [m % 256];
      assert Less([l % 256], [m % 256]) <==> l % 256 < m % 256;
      assert Ints(x) == Ints(y) <==> x == y by { IntsInjective(x, y); }
      if BigEndian(n, l) == BigEndian(n, m) {
        assert BigEndian(n, l)[..n - 1] == x && BigEndian(n, m)[..n - 1] == y;
        assert BigEndian(n, l)[n - 1] == l % 256 && BigEndian(n, m)[n - 1] == m % 256;
      }
    }
  }

  lemma IntsInjective(x: seq<byte>, y: seq<byte>)
    requires |x| == |y|
    ensures Ints(x) == Ints(y) <==> x == y
  {
    if Ints(x) == Ints(y) {
      forall i | 0 <= i < |x| ensures x[i] == y[i] { assert Ints(x)[i] == Ints(y)[i]; }
    }
  }

  const TWO_48 := 0x1_0000_0000_0000

  /** Whole multiples of 256^n are cut off. */
  lemma {:induction false} HighBytesDropped(n: nat, m: nat, q: nat)
    ensures m + Pow256(n) * q >= 0 && BigEndian(n, m + Pow256(n) * q) == BigEndian(n, m)
  {
    if n > 0 {
      var z := Pow256(n - 1) * q;
      assert Pow256(n) * q == 256 * z;
      HighBytesDropped(n - 1, m / 256, q);
      assert (m + 256 * z) / 256 == m / 256 + z && (m + 256 * z) % 256 == m % 256;
    }
  }

  /** The low 48 bits are the ones that are stored. */
  lemma LowBytes(m: nat)
    ensures BigEndian(6, m) == BigEndian(6, m % TWO_48) && m % TWO_48 < Pow256(6)
  {
    assert Pow256(6) == TWO_48 by { assert Pow256(3) == 0x100_0000; }
    HighBytesDropped(6, m % TWO_48, m / TWO_48);
  }

  function SendId(ms: nat, rnd: seq<byte>): string
    requires |rnd| == 10
  {
    "snd_" + Encode(BigEndian(6, ms) + rnd)
  }

  /** `ms` is the millisecond clock and `rnd` the ten random bytes. */
  method NewSendId(ms: nat, rnd: seq<byte>) returns (id: string)
    requires |rnd| == 10
    ensures id == SendId(ms, rnd)
    ensures |id| == 30 && id[..4] == "snd_"
  {
    var b := new byte[16];
    b[0] := ms / 0x100_0000_0000 % 256;
    b[1] := ms / 0x1_0000_0000 % 256;
    b[2] := ms / 0x100_0000 % 256;
    b[3] := ms / 0x1_0000 % 256;
    b[4] := ms / 0x100 % 256;
    b[5] := ms % 256;
    for i := 0 to 10
      invariant b[0] == ms / 0x100_0000_0000 % 256 && b[1] == ms / 0x1_0000_0000 % 256 && b[2] == ms / 0x100_0000 % 256
      invariant b[3] == ms / 0x1_0000 % 256 && b[4] == ms / 0x100 % 256 && b[5] == ms % 256
      invariant forall j :: 0 <= j < i ==> b[6 + j] == rnd[j]
    {
      b[6 + i] := rnd[i];
    }
    ExplicitBytes(ms);
    assert b[..] == BigEndian(6, ms) + rnd;
    id := "snd_" + Encode(b[..]);
  }

  lemma ExplicitBytes(ms: nat)
    ensures BigEndian(6, ms) ==
              [ms / 0x100_0000_0000 % 256, ms / 0x1_0000_0000 % 256, ms / 0x100_0000 % 256,
               ms / 0x1_0000 % 256, ms / 0x100 % 256, ms % 256]
  {
    var m1 := ms / 256;
    var m2 := m1 / 256;
    var m3 := m2 / 256;
    assert m2 == ms / 0x1_0000 && m3 == ms / 0x100_0000;
    assert m3 / 256 == ms / 0x1_0000_0000 && m3 / 256 / 256 == ms / 0x100_0000_0000;
    assert BigEndian(3, m3) == [m3 / 256 / 256 % 256, m3 / 256 % 256, m3 % 256] by {
      assert BigEndian(1, m3 / 256 / 256) == [m3 / 256 / 256 % 256];
      assert BigEndian(2, m3 / 256) == BigEndian(1, m3 / 256 / 256) + [m3 / 256 % 256];
    }
    assert BigEndian(4, m2) == BigEndian(3, m3) + [m2 % 256];
    assert BigEndian(5, m1) == BigEndian(4, m2) + [m1 % 256];
  }

  /** Ids sort by creation time. For clocks below 2^48 milliseconds an earlier millisecond
      gives a smaller id whatever the random bytes; in general ids compare like the pair
      of the clock's low 48 bits and the random bytes. */
  lemma IdsSortByTime(l: nat, m: nat, r: seq<byte>, s: seq<byte>)
    requires |r| == |s| == 10
    ensures Less(Codes(SendId(l, r)), Codes(SendId(m, s))) <==>
              (l % TWO_48 < m % TWO_48 || (l % TWO_48 == m % TWO_48 && Less(Ints(r), Ints(s))))
    ensures l < m < TWO_48 ==> Less(Codes(SendId(l, r)), Codes(SendId(m, s)))
  {
    hide Less, Ints, Codes, Encode, BigEndian;
    var x, y := BigEndian(6, l), BigEndian(6, m);
    EncodePreservesOrder(x + r, y + s);
    PrefixedOrder(Encode(x + r), Encode(y + s));
    StampOrder(l, m);
    IntsConcat(x, r);
    IntsConcat(y, s);
    IntsInjective(x, y);
    LessConcat(Ints(x), Ints(y), Ints(r), Ints(s));
  }

  lemma IntsConcat(x: seq<byte>, y: seq<byte>)
    ensures Ints(x + y) == Ints(x) + Ints(y)
  {
  }

  lemma StampOrder(l: nat, m: nat)
    ensures Less(Ints(BigEndian(6, l)), Ints(BigEndian(6, m))) <==> l % TWO_48 < m % TWO_48
    ensures BigEndian(6, l) == BigEndian(6, m) <==> l % TWO_48 == m % TWO_48
  {
    hide Less, Ints;
    LowBytes(l);
    LowBytes(m);
    BigEndianOrder(6, l % TWO_48, m % TWO_48);
  }

  lemma PrefixedOrder(s: string, t: string)
    requires |s| == |t|
    ensures Less(Codes("snd_" + s), Codes("snd_" + t)) <==> Less(Codes(s), Codes(t))
  {
    assert Codes("snd_" + s) == Codes("snd_") + Codes(s) && Codes("snd_" + t) == Codes("snd_") + Codes(t);
    LessConcat(Codes("snd_"), Codes("snd_"), Codes(s), Codes(t));
    LessTotal(Codes("snd_"), Codes("snd_"));
  }

  /** Send ids hold no slash and no dot, as storage keys need, and different inputs give
      different ids. */
  lemma IdsAreKeySafe(l: nat, m: nat, r: seq<byte>, s: seq<byte>)
    requires |r| == |s| == 10
    ensures NoSlash(SendId(l, r)) && '.' !in SendId(l, r)
    ensures SendId(l, r) == SendId(m, s) <==> l % TWO_48 == m % TWO_48 && r == s
  {
    var x, y := BigEndian(6, l) + r, BigEndian(6, m) + s;
    SymbolRange(x);
    var v := Symbols(ByteBits(x));
    forall i | 0 <= i < |v| ensures Encode(x)[i] != '/' && Encode(x)[i] != '.' { DigitOrder(v[i], v[i]); }
    StampOrder(l, m);
    if SendId(l, r) == SendId(m, s) {
      assert SendId(l, r)[4..] == Encode(x) && SendId(m, s)[4..] == Encode(y);
      EncodePreservesOrder(x, y);
      assert x[..6] == BigEndian(6, l) && y[..6] == BigEndian(6, m) && x[6..] == r && y[6..] == s;
    }
  }
}
