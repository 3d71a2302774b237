/** Feature bits as little-endian bytes, src/lnd.rs. A u128 is a natural number below 2^128. */
module FeatureBits {
  import opened Common

  /** Bit `n` of `x`. */
  predicate Bit(x: nat, n: nat) {
    if n == 0 then x % 2 == 1 else Bit(x / 2, n - 1)
  }

  /** `x | (1 << n)` */
  function WithBit(x: nat, n: nat): nat {
    if n == 0 then (if x % 2 == 1 then x else x + 1) else 2 * WithBit(x / 2, n - 1) + x % 2
  }

  /** Byte `i` of `x`, counted from the least significant. */
  function Byte(x: nat, i: nat): nat {
    if i == 0 then x % 256 else Byte(x / 256, i - 1)
  }

  function LeBytes(x: nat): seq<nat> {
    seq(16, i requires 0 <= i < 16 => Byte(x, i))
  }

  /** The bits set in a string of bytes: bit `n` is bit `n % 8` of byte `n / 8`. */
  function Decode(bytes: seq<nat>): set<nat> {
    set n | 0 <= n < 8 * |bytes| && Bit(bytes[n / 8], n % 8)
  }

  /** The bits asked for that a u128 can hold. */
  function InRange(bits: seq<int>): set<nat> {
    set n: nat | n <= 127 && n in bits
  }

  /** `|` with a single bit adds its value exactly if it was clear. */
  lemma {:induction false} WithBitValue(x: nat, n: nat)
    ensures WithBit(x, n) == if Bit(x, n) then x else x + Pow2(n)
  {
    if n > 0 {
      WithBitValue(x / 2, n - 1);
    }
  }

  lemma {:induction false} WithBitBits(x: nat, n: nat, m: nat)
    ensures Bit(WithBit(x, n), m) <==> (m == n || Bit(x, m))
  {
    if n > 0 && m > 0 {
      WithBitBits(x / 2, n - 1, m - 1);
      assert WithBit(x, n) / 2 == WithBit(x / 2, n - 1);
    } else if n == 0 && m > 0 {
      assert WithBit(x, 0) / 2 == x / 2;
    }
  }

  lemma {:induction false} WithBitBound(x: nat, n: nat, width: nat)
    requires n < width && x < Pow2(width)
    ensures WithBit(x, n) < Pow2(width)
  {
    var half := Pow2(width - 1);
    assert Pow2(width) == 2 * half;
    if n > 0 {
      assert x / 2 < half;
      WithBitBound(x / 2, n - 1, width - 1);
    }
  }

  lemma {:induction false} NoBits(n: nat)
    ensures !Bit(0, n)
  {
    if n > 0 {
      NoBits(n - 1);
    }
  }

  lemma {:induction false} ByteBits(x: nat, i: nat, j: nat)
    requires j < 8
    ensures Bit(Byte(x, i), j) <==> Bit(x, 8 * i + j)
  {
    if i == 0 {
      assert Pow2(8) == 256 by { assert Pow2(6) == 64; }
      assert x == Pow2(8) * (x / 256) + x % 256;
      LowBits(x / 256, x % 256, 8, j);
    } else {
      ByteBits(x / 256, i - 1, j);
      ShiftBits(x, 8 * (i - 1) + j);
    }
  }

  /** Adding a multiple of a power of two leaves the bits below it alone. */
  lemma {:induction false} LowBits(q: nat, r: nat, width: nat, j: nat)
    requires j < width
    ensures Bit(Pow2(width) * q + r, j) <==> Bit(r, j)
  {
    var half := Pow2(width - 1) * q;
    assert Pow2(width) * q == 2 * half;
    assert (2 * half + r) / 2 == half + r / 2 && (2 * half + r) % 2 == r % 2;
    if j > 0 {
      LowBits(q, r / 2, width - 1, j - 1);
    }
  }

  lemma ShiftFour(x: nat, n: nat)
    ensures Bit(x / 16, n) <==> Bit(x, n + 4)
  {
    var x1 := x / 2;
    var x2 := x1 / 2;
    var x3 := x2 / 2;
    assert x3 / 2 == x / 16;
    assert Bit(x, n + 4) == Bit(x1, n + 3);
    assert Bit(x1, n + 3) == Bit(x2, n + 2);
    assert Bit(x2, n + 2) == Bit(x3, n + 1);
  }

  lemma ShiftBits(x: nat, n: nat)
    ensures Bit(x / 256, n) <==> Bit(x, n + 8)
  {
    ShiftFour(x, n + 4);
    ShiftFour(x / 16, n);
    assert x / 16 / 16 == x / 256;
  }

  lemma DecodeBytes(x: nat)
    ensures Decode(LeBytes(x)) == set n | 0 <= n < 128 && Bit(x, n)
  {
    forall n: nat | n < 128 ensures n in Decode(LeBytes(x)) <==> Bit(x, n) {
      ByteBits(x, n / 8, n % 8);
    }
  }

  /** Bytes of a u128 holding each bit asked for that it has room for. */
  method FeatureBitsToLeBytes(featureBits: seq<int>) returns (bytes: seq<nat>)
    ensures |bytes| == 16 && forall i :: 0 <= i < 16 ==> bytes[i] < 256
    ensures Decode(bytes) == InRange(featureBits)
  {
    var bits: nat := 0;
    forall n: nat ensures !Bit(0, n) {
      NoBits(n);
    }
    Pow2Monotone(0, 128);
    for i := 0 to |featureBits|
      invariant bits < Pow2(128)
      invariant forall n: nat :: Bit(bits, n) <==> n in InRange(featureBits[..i])
    {
      var bit := featureBits[i];
      InRangeNext(featureBits, i);
      if 0 <= bit <= 127 {
        forall n: nat ensures Bit(WithBit(bits, bit), n) <==> (n == bit || Bit(bits, n)) {
          WithBitBits(bits, bit, n);
        }
        WithBitBound(bits, bit, 128);
        bits := WithBit(bits, bit);
      }
    }
    assert featureBits[..|featureBits|] == featureBits;
    bytes := LeBytes(bits);
    DecodeBytes(bits);
    forall i | 0 <= i < 16 ensures bytes[i] < 256 {
      ByteBound(bits, i);
    }
  }

  lemma InRangeNext(bits: seq<int>, i: nat)
    requires i < |bits|
    ensures forall n: nat :: n in InRange(bits[..i + 1]) <==>
                             (n in InRange(bits[..i]) || (n == bits[i] && bits[i] <= 127))
  {
  }

  lemma {:induction false} ByteBound(x: nat, i: nat)
    ensures Byte(x, i) < 256
  {
    if i > 0 {
      ByteBound(x / 256, i - 1);
    }
  }

  lemma {:induction false} BitsDetermine(x: nat, y: nat, width: nat)
    requires x < Pow2(width) && y < Pow2(width)
    requires forall n: nat :: n < width ==> Bit(x, n) == Bit(y, n)
    ensures x == y
  {
    if width > 0 {
      assert Bit(x, 0) == Bit(y, 0);
      forall n: nat | n < width - 1 ensures Bit(x / 2, n) == Bit(y / 2, n) {
        assert Bit(x, n + 1) == Bit(y, n + 1);
      }
      BitsDetermine(x / 2, y / 2, width - 1);
    }
  }

  /** Sixteen bytes are determined by the bits in them, so neither order nor repetition in the list shows. */
  lemma DecodeInjective(a: seq<nat>, b: seq<nat>)
    requires |a| == |b| && (forall i :: 0 <= i < |a| ==> a[i] < 256 && b[i] < 256)
    requires Decode(a) == Decode(b)
    ensures a == b
  {
    forall i | 0 <= i < |a| ensures a[i] == b[i] {
      forall n: nat | n < 8 ensures Bit(a[i], n) == Bit(b[i], n) {
        assert (8 * i + n) / 8 == i && (8 * i + n) % 8 == n;
        assert 8 * i + n in Decode(a) <==> 8 * i + n in Decode(b);
      }
      assert Pow2(8) == 256 by { assert Pow2(6) == 64; }
      BitsDetermine(a[i], b[i], 8);
    }
  }
}
