/** Bytes, little-endian fields of a buffer, and the byte-wise transform of the sample client. */
module Bytes {

  type byte = x: int | 0 <= x < 0x100

  const TWO_32: nat := 0x1_0000_0000
  const TWO_64: nat := 0x1_0000_0000_0000_0000

  function Min(a: nat, b: nat): nat {
    if a <= b then a else b
  }

  /** An unsigned number in little-endian order, as the x86-64 build stores it. */
  function FromLe(s: seq<byte>): nat {
    if s == [] then 0 else s[0] + 0x100 * FromLe(s[1..])
  }

  function ToLe(v: nat, width: nat): (s: seq<byte>)
    ensures |s| == width
  {
    if width == 0 then [] else [v % 0x100] + ToLe(v / 0x100, width - 1)
  }

  function Limit(width: nat): (n: nat)
    ensures n > 0
  {
    if width == 0 then 1 else 0x100 * Limit(width - 1)
  }

  lemma {:induction false} LeRoundTrip(v: nat, width: nat)
    requires v < Limit(width)
    ensures FromLe(ToLe(v, width)) == v
  {
    if width > 0 {
      LeRoundTrip(v / 0x100, width - 1);
      assert ToLe(v, width)[1..] == ToLe(v / 0x100, width - 1);
    }
  }

  /** What a field of four bytes stands for. */
  lemma WordIs(s: seq<byte>)
    requires |s| == 4
    ensures FromLe(s) == s[0] + 0x100 * (s[1] as int) + 0x1_0000 * (s[2] as int) + 0x100_0000 * (s[3] as int)
  {
    assert s[1..][1..] == s[2..] && s[2..][1..] == s[3..] && s[3..][1..] == [];
    assert FromLe(s[3..]) == s[3];
    assert FromLe(s[2..]) == s[2] + 0x100 * (s[3] as int);
  }

  lemma {:induction false} FromLeBound(s: seq<byte>)
    ensures FromLe(s) < Limit(|s|)
  {
    if s != [] {
      FromLeBound(s[1..]);
    }
  }

  lemma Limits()
    ensures Limit(1) == 0x100 && Limit(4) == TWO_32 && Limit(8) == TWO_64
  {
    assert Limit(2) == 0x1_0000 && Limit(3) == 0x100_0000;
    assert Limit(5) == 0x100_0000_0000 && Limit(6) == 0x1_0000_0000_0000 && Limit(7) == 0x100_0000_0000_0000;
  }

  /** The field of this width at this offset. */
  function Field(s: seq<byte>, at: nat, width: nat): nat
    requires at + width <= |s|
  {
    FromLe(s[at..at + width])
  }

  /** A field depends on no byte behind it. */
  lemma FieldOfPrefix(s: seq<byte>, n: nat, at: nat, width: nat)
    requires at + width <= n <= |s|
    ensures Field(s[..n], at, width) == Field(s, at, width)
  {
    assert s[..n][at..at + width] == s[at..at + width];
  }

  method Put(a: array<byte>, at: nat, width: nat, v: nat)
    requires at + width <= a.Length && v < Limit(width)
    modifies a
    ensures Field(a[..], at, width) == v
    ensures forall i :: 0 <= i < a.Length && !(at <= i < at + width) ==> a[i] == old(a[i])
    ensures forall at': nat, width': nat ::
      at' + width' <= a.Length && (at' + width' <= at || at + width <= at') ==>
        Field(a[..], at', width') == old(Field(a[..], at', width'))
  {
    var bytes := ToLe(v, width);
    forall i | 0 <= i < width {
      a[at + i] := bytes[i];
    }
    assert a[..][at..at + width] == bytes;
    LeRoundTrip(v, width);
    forall at': nat, width': nat | at' + width' <= a.Length && (at' + width' <= at || at + width <= at')
      ensures Field(a[..], at', width') == old(Field(a[..], at', width'))
    {
      assert a[..][at'..at' + width'] == old(a[..][at'..at' + width']);
    }
  }

  /** Bitwise exclusive or of two numbers of this many bits. */
  function Xor(a: nat, b: nat, bits: nat): nat {
    if bits == 0 then 0
    else (if a % 2 == b % 2 then 0 else 1) + 2 * Xor(a / 2, b / 2, bits - 1)
  }

  function PowerOf2(bits: nat): (n: nat)
    ensures n > 0
  {
    if bits == 0 then 1 else 2 * PowerOf2(bits - 1)
  }

  lemma {:induction false} XorBound(a: nat, b: nat, bits: nat)
    ensures Xor(a, b, bits) < PowerOf2(bits)
  {
    if bits > 0 {
      XorBound(a / 2, b / 2, bits - 1);
    }
  }

  /** A binary digit of a number. */
  function Bit(n: nat, i: nat): nat {
    if i == 0 then n % 2 else Bit(n / 2, i - 1)
  }

  /** Each digit of the result says whether the two digits differ. */
  lemma {:induction false} XorBit(a: nat, b: nat, bits: nat, i: nat)
    requires i < bits
    ensures Bit(Xor(a, b, bits), i) == if Bit(a, i) != Bit(b, i) then 1 else 0
  {
    if i > 0 {
      XorBit(a / 2, b / 2, bits - 1, i - 1);
      assert Xor(a, b, bits) / 2 == Xor(a / 2, b / 2, bits - 1);
    }
  }

  /** The transform of a byte flips the digits 0, 1 and 4 and no other. */
  lemma Xor13Flips(b: byte, i: nat)
    requires i < 8
    ensures Bit(Xor13(b), i) != Bit(b, i) <==> i in {0, 1, 4}
  {
    XorBit(b, 0x13, 8, i);
    BitIsDigit(b, i);
    DigitsOf13(i);
  }

  lemma {:induction false} BitIsDigit(n: nat, i: nat)
    ensures Bit(n, i) < 2
  {
    if i > 0 {
      BitIsDigit(n / 2, i - 1);
    }
  }

  lemma DigitsOf13(i: nat)
    requires i < 8
    ensures Bit(0x13, i) == if i in {0, 1, 4} then 1 else 0
  {
    if i > 4 {
      ZeroBit(i - 5);
      assert Bit(0x13, i) == Bit(9, i - 1) == Bit(4, i - 2) == Bit(2, i - 3) == Bit(1, i - 4) == Bit(0, i - 5);
    } else {
      assert Bit(0x13, 0) == 1 && Bit(9, 0) == 1 && Bit(4, 0) == 0 && Bit(2, 0) == 0 && Bit(1, 0) == 1;
      assert Bit(0x13, 1) == 1 && Bit(0x13, 2) == Bit(9, 1) == 0;
      assert Bit(0x13, 3) == Bit(9, 2) == Bit(4, 1) == 0;
      assert Bit(0x13, 4) == Bit(9, 3) == Bit(4, 2) == Bit(2, 1) == 1;
    }
  }

  lemma {:induction false} ZeroBit(i: nat)
    ensures Bit(0, i) == 0
  {
    if i > 0 {
      ZeroBit(i - 1);
    }
  }

  /** Its digits are all there is to a number. */
  lemma {:induction false} SameBits(a: nat, b: nat, bits: nat)
    requires a < PowerOf2(bits) && b < PowerOf2(bits) && forall i :: 0 <= i < bits ==> Bit(a, i) == Bit(b, i)
    ensures a == b
  {
    if bits > 0 {
      assert Bit(a, 0) == Bit(b, 0);
      forall i | 0 <= i < bits - 1 ensures Bit(a / 2, i) == Bit(b / 2, i) {
        assert Bit(a, i + 1) == Bit(b, i + 1);
      }
      SameBits(a / 2, b / 2, bits - 1);
    }
  }

  /** Exclusive or with the same number twice changes nothing. */
  lemma {:induction false} XorTwice(a: nat, b: nat, bits: nat)
    requires a < PowerOf2(bits)
    ensures Xor(Xor(a, b, bits), b, bits) == a
  {
    if bits > 0 {
      XorTwice(a / 2, b / 2, bits - 1);
      assert Xor(a, b, bits) / 2 == Xor(a / 2, b / 2, bits - 1);
    }
  }

  lemma EightBits()
    ensures PowerOf2(8) == 0x100
  {
    assert PowerOf2(4) == 16;
  }

  function Xor13(b: byte): byte {
    XorBound(b, 0x13, 8);
    EightBits();
    Xor(b, 0x13, 8)
  }

  function XorAll(s: seq<byte>): (r: seq<byte>)
    ensures |r| == |s|
  {
    seq(|s|, i requires 0 <= i < |s| => Xor13(s[i]))
  }

  lemma XorAllAt(s: seq<byte>, i: nat)
    requires i < |s|
    ensures |XorAll(s)| == |s| && XorAll(s)[i] == Xor13(s[i])
    ensures forall d: nat :: d < 8 ==> (Bit(XorAll(s)[i], d) != Bit(s[i], d) <==> d in {0, 1, 4})
  {
    forall d: nat | d < 8 ensures Bit(XorAll(s)[i], d) != Bit(s[i], d) <==> d in {0, 1, 4} {
      Xor13Flips(s[i], d);
    }
  }

  lemma XorAllTwice(s: seq<byte>)
    ensures XorAll(XorAll(s)) == s
  {
    forall i | 0 <= i < |s| ensures XorAll(XorAll(s))[i] == s[i] {
      EightBits();
      XorTwice(s[i], 0x13, 8);
    }
  }

  lemma XorAllAppend(s: seq<byte>, t: seq<byte>)
    ensures XorAll(s + t) == XorAll(s) + XorAll(t)
  {
  }
}
