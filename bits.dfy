/**
 * Machine integers and bitwise operations shared by every component.
 *
 * Bytes and 16-bit words are modelled as bounded integers. Masks by a
 * constant (`x & 0x0F`, `x >> 4`) are written as arithmetic where they are
 * used; the genuinely bitwise operators (`|`, `&`, `^` with two variable
 * operands, `1 << k`) are defined here bit by bit, with lemmas that say what
 * each does to every bit.
 */
module Bits {

  type byte = x: int | 0 <= x < 0x100
  type u16 = x: int | 0 <= x < 0x1_0000

  /** 2 to the power k. */
  function Pow2(k: nat): (r: nat)
    ensures r >= 1
  {
    if k == 0 then 1 else 2 * Pow2(k - 1)
  }

  /** Bit k of x, bit 0 being the least significant. */
  function Bit(x: nat, k: nat): (r: nat)
    ensures r < 2
  {
    if k == 0 then x % 2 else Bit(x / 2, k - 1)
  }

  /** Bitwise OR of two n-bit numbers. */
  function Or(a: nat, b: nat, n: nat): (r: nat)
    requires a < Pow2(n) && b < Pow2(n)
    ensures r < Pow2(n)
    decreases n
  {
    if n == 0 then 0
    else 2 * Or(a / 2, b / 2, n - 1) + (if a % 2 == 1 || b % 2 == 1 then 1 else 0)
  }

  /** Bitwise AND of two n-bit numbers. */
  function And(a: nat, b: nat, n: nat): (r: nat)
    requires a < Pow2(n) && b < Pow2(n)
    ensures r < Pow2(n)
    decreases n
  {
    if n == 0 then 0
    else 2 * And(a / 2, b / 2, n - 1) + (if a % 2 == 1 && b % 2 == 1 then 1 else 0)
  }

  /** Bitwise exclusive OR of two n-bit numbers. */
  function Xor(a: nat, b: nat, n: nat): (r: nat)
    requires a < Pow2(n) && b < Pow2(n)
    ensures r < Pow2(n)
    decreases n
  {
    if n == 0 then 0
    else 2 * Xor(a / 2, b / 2, n - 1) + (if a % 2 != b % 2 then 1 else 0)
  }

  lemma Pow2Byte()
    ensures Pow2(0) == 1 && Pow2(1) == 2 && Pow2(2) == 4 && Pow2(3) == 8
    ensures Pow2(4) == 16 && Pow2(5) == 32 && Pow2(6) == 64 && Pow2(7) == 128
    ensures Pow2(8) == 256 && Pow2(16) == 0x1_0000
  {
  }

  lemma {:induction false} Pow2Increasing(k: nat, n: nat)
    requires k < n
    ensures Pow2(k) < Pow2(n)
    decreases n
  {
    if k < n - 1 { Pow2Increasing(k, n - 1); }
  }

  /** Every bit of x at or above position n is 0 when x < 2^n. */
  lemma {:induction false} BitAboveWidth(x: nat, n: nat, j: nat)
    requires x < Pow2(n) && n <= j
    ensures Bit(x, j) == 0
    decreases n
  {
    if n == 0 {
      assert x == 0;
      BitOfZero(j);
    } else {
      BitAboveWidth(x / 2, n - 1, j - 1);
    }
  }

  lemma {:induction false} BitOfZero(j: nat)
    ensures Bit(0, j) == 0
  {
    if j > 0 { BitOfZero(j - 1); }
  }

  /** Two n-bit numbers with the same n low bits are equal. */
  lemma {:induction false} BitsDetermine(a: nat, b: nat, n: nat)
    requires a < Pow2(n) && b < Pow2(n)
    requires forall j :: 0 <= j < n ==> Bit(a, j) == Bit(b, j)
    ensures a == b
    decreases n
  {
    if n > 0 {
      forall j | 0 <= j < n - 1
        ensures Bit(a / 2, j) == Bit(b / 2, j)
      {
        assert Bit(a, j + 1) == Bit(b, j + 1);
      }
      BitsDetermine(a / 2, b / 2, n - 1);
      assert Bit(a, 0) == Bit(b, 0);
    }
  }

  lemma {:induction false} OrBit(a: nat, b: nat, n: nat, j: nat)
    requires a < Pow2(n) && b < Pow2(n) && j < n
    ensures Bit(Or(a, b, n), j) == if Bit(a, j) == 1 || Bit(b, j) == 1 then 1 else 0
    decreases n
  {
    if j > 0 { OrBit(a / 2, b / 2, n - 1, j - 1); }
  }

  lemma {:induction false} AndBit(a: nat, b: nat, n: nat, j: nat)
    requires a < Pow2(n) && b < Pow2(n) && j < n
    ensures Bit(And(a, b, n), j) == if Bit(a, j) == 1 && Bit(b, j) == 1 then 1 else 0
    decreases n
  {
    if j > 0 { AndBit(a / 2, b / 2, n - 1, j - 1); }
  }

  lemma {:induction false} XorBit(a: nat, b: nat, n: nat, j: nat)
    requires a < Pow2(n) && b < Pow2(n) && j < n
    ensures Bit(Xor(a, b, n), j) == if Bit(a, j) != Bit(b, j) then 1 else 0
    decreases n
  {
    if j > 0 { XorBit(a / 2, b / 2, n - 1, j - 1); }
  }

  /** `1 << k` has exactly bit k set. */
  lemma {:induction false} BitOfPow2(k: nat, j: nat)
    ensures Bit(Pow2(k), j) == if j == k then 1 else 0
  {
    if k == 0 {
      if j > 0 { BitOfZero(j - 1); }
    } else if j > 0 {
      BitOfPow2(k - 1, j - 1);
    }
  }

  /** `!x` on n bits flips every one of them. */
  lemma {:induction false} ComplementBit(x: nat, n: nat, j: nat)
    requires x < Pow2(n) && j < n
    ensures Bit(Pow2(n) - 1 - x, j) == 1 - Bit(x, j)
    decreases n
  {
    if j > 0 {
      assert (Pow2(n) - 1 - x) / 2 == Pow2(n - 1) - 1 - x / 2;
      ComplementBit(x / 2, n - 1, j - 1);
    }
  }

  lemma MulMonotone(p: nat, m: nat, n: nat)
    requires m <= n
    ensures p * m <= p * n
  {
    var d: nat := n - m;
    assert p * n == p * m + p * d;
  }

  /** Euclidean division is unique. */
  lemma DivisionUnique(a: nat, p: nat, q: nat, s: nat)
    requires p > 0 && s < p && a == p * q + s
    ensures a / p == q
  {
    var k := a / p;
    assert a == p * k + a % p;
    if k > q {
      MulMonotone(p, q + 1, k);
      assert false;
    } else if k < q {
      MulMonotone(p, k + 1, q);
      assert false;
    }
  }

  /** `(x >> 1) >> p` is `x >> (p + 1)`, as arithmetic. */
  lemma HalveThenDivide(x: nat, p: nat)
    requires p > 0
    ensures (x / 2) / p == x / (2 * p)
  {
    var q, r := x / (2 * p), x % (2 * p);
    assert x == (2 * p) * q + r;
    assert x == 2 * (p * q) + r;
    assert x / 2 == p * q + r / 2;
    DivisionUnique(x / 2, p, q, r / 2);
  }

  /** Bit k of x is `(x >> k) & 1`. */
  lemma {:induction false} BitAsDivision(x: nat, k: nat)
    ensures Bit(x, k) == (x / Pow2(k)) % 2
  {
    if k > 0 {
      BitAsDivision(x / 2, k - 1);
      HalveThenDivide(x, Pow2(k - 1));
    }
  }

  /** `value | (1 << bit)` on a byte. */
  function SetBit(x: byte, k: nat): (r: byte)
    requires k < 8
    ensures Bit(r, k) == 1
    ensures forall j :: 0 <= j < 8 && j != k ==> Bit(r, j) == Bit(x, j)
  {
    Pow2Byte();
    var r := Or(x, Pow2(k), 8);
    assert Bit(r, k) == 1 by { OrBit(x, Pow2(k), 8, k); BitOfPow2(k, k); }
    assert forall j :: 0 <= j < 8 && j != k ==> Bit(r, j) == Bit(x, j) by {
      forall j | 0 <= j < 8 && j != k
        ensures Bit(r, j) == Bit(x, j)
      {
        OrBit(x, Pow2(k), 8, j);
        BitOfPow2(k, j);
      }
    }
    r
  }

  /** `value & !(1 << bit)` on a byte. */
  function ResetBit(x: byte, k: nat): (r: byte)
    requires k < 8
    ensures Bit(r, k) == 0
    ensures forall j :: 0 <= j < 8 && j != k ==> Bit(r, j) == Bit(x, j)
  {
    Pow2Byte();
    var mask := 0xFF - Pow2(k);
    var r := And(x, mask, 8);
    assert forall j :: 0 <= j < 8 ==> Bit(mask, j) == 1 - Bit(Pow2(k), j) by {
      forall j | 0 <= j < 8
        ensures Bit(mask, j) == 1 - Bit(Pow2(k), j)
      {
        ComplementBit(Pow2(k), 8, j);
      }
    }
    assert Bit(r, k) == 0 by { AndBit(x, mask, 8, k); BitOfPow2(k, k); }
    assert forall j :: 0 <= j < 8 && j != k ==> Bit(r, j) == Bit(x, j) by {
      forall j | 0 <= j < 8 && j != k
        ensures Bit(r, j) == Bit(x, j)
      {
        AndBit(x, mask, 8, j);
        BitOfPow2(k, j);
      }
    }
    r
  }

  /** `value ^ (1 << bit)` on a byte: bit k flips, nothing else moves. */
  function FlipBit(x: byte, k: nat): (r: byte)
    requires k < 8
    ensures Bit(r, k) == 1 - Bit(x, k)
    ensures forall j :: 0 <= j < 8 && j != k ==> Bit(r, j) == Bit(x, j)
  {
    Pow2Byte();
    var r := Xor(x, Pow2(k), 8);
    assert Bit(r, k) == 1 - Bit(x, k) by { XorBit(x, Pow2(k), 8, k); BitOfPow2(k, k); }
    assert forall j :: 0 <= j < 8 && j != k ==> Bit(r, j) == Bit(x, j) by {
      forall j | 0 <= j < 8 && j != k
        ensures Bit(r, j) == Bit(x, j)
      {
        XorBit(x, Pow2(k), 8, j);
        BitOfPow2(k, j);
      }
    }
    r
  }

  /** `x ^ (1 << k)` subtracts 2^k when bit k is set and adds it otherwise. */
  lemma {:induction false} XorPow2(x: nat, k: nat, n: nat)
    requires x < Pow2(n) && k < n && Pow2(k) < Pow2(n)
    ensures Xor(x, Pow2(k), n) == if Bit(x, k) == 1 then x - Pow2(k) else x + Pow2(k)
    decreases n
  {
    if k == 0 {
      XorZero(x / 2, n - 1);
    } else {
      Pow2Increasing(k - 1, n - 1);
      XorPow2(x / 2, k - 1, n - 1);
    }
  }

  lemma {:induction false} XorZero(x: nat, n: nat)
    requires x < Pow2(n)
    ensures Xor(x, 0, n) == x
    decreases n
  {
    if n > 0 { XorZero(x / 2, n - 1); }
  }

  /** `x | (1 << k)` adds 2^k when bit k is clear and changes nothing otherwise. */
  lemma SetBitArith(x: byte, k: nat)
    requires k < 8
    ensures SetBit(x, k) == if Bit(x, k) == 1 then x else x + Pow2(k)
  {
    Pow2Byte();
    Pow2Increasing(k, 8);
    XorPow2(x, k, 8);
    var r := SetBit(x, k);
    if Bit(x, k) == 1 {
      BitsDetermine(r, x, 8);
    } else {
      BitsDetermine(r, FlipBit(x, k), 8);
    }
  }

  /** `x & !(1 << k)` subtracts 2^k when bit k is set and changes nothing otherwise. */
  lemma ResetBitArith(x: byte, k: nat)
    requires k < 8
    ensures ResetBit(x, k) == if Bit(x, k) == 1 then x - Pow2(k) else x
  {
    var r := ResetBit(x, k);
    if Bit(x, k) == 1 {
      Pow2Byte();
      Pow2Increasing(k, 8);
      XorPow2(x, k, 8);
      SameBitsAsFlip(x, k);
      BitsDetermine(r, FlipBit(x, k), 8);
    } else {
      forall j | 0 <= j < 8
        ensures Bit(r, j) == Bit(x, j)
      {
      }
      Pow2Byte();
      BitsDetermine(r, x, 8);
    }
  }

  /** With bit k set, resetting it and flipping it agree bit by bit. */
  lemma SameBitsAsFlip(x: byte, k: nat)
    requires k < 8 && Bit(x, k) == 1
    ensures forall j :: 0 <= j < 8 ==> Bit(ResetBit(x, k), j) == Bit(FlipBit(x, k), j)
  {
    forall j | 0 <= j < 8
      ensures Bit(ResetBit(x, k), j) == Bit(FlipBit(x, k), j)
    {
      if j == k {
        assert Bit(FlipBit(x, k), k) == 0;
      }
    }
  }

  /** Bitwise AND of two bytes. */
  function And8(a: byte, b: byte): (r: byte)
    ensures forall j :: 0 <= j < 8 ==> (Bit(r, j) == 1 <==> Bit(a, j) == 1 && Bit(b, j) == 1)
  {
    Pow2Byte();
    var r := And(a, b, 8);
    assert forall j :: 0 <= j < 8 ==> (Bit(r, j) == 1 <==> Bit(a, j) == 1 && Bit(b, j) == 1) by {
      forall j | 0 <= j < 8
        ensures Bit(r, j) == 1 <==> Bit(a, j) == 1 && Bit(b, j) == 1
      {
        AndBit(a, b, 8, j);
      }
    }
    r
  }

  /** Bitwise OR of two bytes. */
  function Or8(a: byte, b: byte): (r: byte)
    ensures forall j :: 0 <= j < 8 ==> (Bit(r, j) == 1 <==> Bit(a, j) == 1 || Bit(b, j) == 1)
  {
    Pow2Byte();
    var r := Or(a, b, 8);
    assert forall j :: 0 <= j < 8 ==> (Bit(r, j) == 1 <==> Bit(a, j) == 1 || Bit(b, j) == 1) by {
      forall j | 0 <= j < 8
        ensures Bit(r, j) == 1 <==> Bit(a, j) == 1 || Bit(b, j) == 1
      {
        OrBit(a, b, 8, j);
      }
    }
    r
  }

  /** Bitwise exclusive OR of two bytes. */
  function Xor8(a: byte, b: byte): (r: byte)
    ensures forall j :: 0 <= j < 8 ==> (Bit(r, j) == 1 <==> Bit(a, j) != Bit(b, j))
  {
    Pow2Byte();
    var r := Xor(a, b, 8);
    assert forall j :: 0 <= j < 8 ==> (Bit(r, j) == 1 <==> Bit(a, j) != Bit(b, j)) by {
      forall j | 0 <= j < 8
        ensures Bit(r, j) == 1 <==> Bit(a, j) != Bit(b, j)
      {
        XorBit(a, b, 8, j);
      }
    }
    r
  }

  /** OR is symmetric. */
  lemma {:induction false} OrCommutes(a: nat, b: nat, n: nat)
    requires a < Pow2(n) && b < Pow2(n)
    ensures Or(a, b, n) == Or(b, a, n)
    decreases n
  {
    if n > 0 {
      OrCommutes(a / 2, b / 2, n - 1);
    }
  }

  /**
   * When the set bits of a all lie at or above bit k and those of b below
   * it, `a | b` is `a + b`.
   */
  lemma {:induction false} OrDisjoint(a: nat, b: nat, n: nat, k: nat)
    requires a < Pow2(n) && b < Pow2(n) && b < Pow2(k) && k <= n
    requires a % Pow2(k) == 0
    ensures Or(a, b, n) == a + b
    decreases n
  {
    if n == 0 {
    } else if k == 0 {
      assert b == 0;
      OrDisjoint(a / 2, 0, n - 1, 0);
    } else {
      var t := a / Pow2(k);
      assert a == Pow2(k) * t;
      assert a == 2 * (Pow2(k - 1) * t);
      DivisionUnique(a / 2, Pow2(k - 1), t, 0);
      OrDisjoint(a / 2, b / 2, n - 1, k - 1);
    }
  }

  /** A byte is 0 exactly when all eight of its bits are. */
  lemma ZeroIffNoBits(x: byte)
    ensures x == 0 ==> forall j :: 0 <= j < 8 ==> Bit(x, j) == 0
    ensures (forall j :: 0 <= j < 8 ==> Bit(x, j) == 0) ==> x == 0
  {
    Pow2Byte();
    forall j | 0 <= j < 8 ensures Bit(0, j) == 0 { BitOfZero(j); }
    if forall j :: 0 <= j < 8 ==> Bit(x, j) == 0 {
      BitsDetermine(x, 0, 8);
    }
  }

  /** `x & (1 << k) != 0` tests bit k. */
  lemma MaskTest(x: byte, k: nat)
    requires k < 8
    ensures Pow2(k) < 0x100
    ensures And8(x, Pow2(k)) != 0 <==> Bit(x, k) == 1
  {
    Pow2Byte();
    Pow2Increasing(k, 8);
    var c := And8(x, Pow2(k));
    forall j | 0 <= j < 8
      ensures Bit(c, j) == if j == k then Bit(x, k) else 0
    {
      BitOfPow2(k, j);
    }
    ZeroIffNoBits(c);
  }

  /** The two low bits of x are x modulo 4. */
  lemma LowTwoBits(x: nat)
    ensures x % 4 == Bit(x, 0) + 2 * Bit(x, 1)
  {
    SplitLow(x, 2);
    assert Bit(x, 1) == (x / 2) % 2;
  }

  /** The remainder of a division is unique too. */
  lemma ModUnique(a: nat, p: nat, q: nat, s: nat)
    requires p > 0 && s < p && a == p * q + s
    ensures a % p == s
  {
    DivisionUnique(a, p, q, s);
  }

  /** x modulo 2p from the halved x modulo p and the dropped bit. */
  lemma SplitLow(x: nat, p: nat)
    requires p > 0
    ensures x % (2 * p) == 2 * ((x / 2) % p) + x % 2
  {
    var q, r := (x / 2) / p, (x / 2) % p;
    assert x == (2 * p) * q + (2 * r + x % 2);
    ModUnique(x, 2 * p, q, 2 * r + x % 2);
  }

  /** One step of the masking induction: the low bit, then the rest halved. */
  lemma AndLowMaskStep(x: nat, n: nat, k: nat)
    requires 0 < k <= n && x < Pow2(n)
    requires x / 2 < Pow2(n - 1) && Pow2(k - 1) - 1 < Pow2(n - 1)
    requires And(x / 2, Pow2(k - 1) - 1, n - 1) == (x / 2) % Pow2(k - 1)
    ensures Pow2(k) - 1 < Pow2(n)
    ensures And(x, Pow2(k) - 1, n) == x % Pow2(k)
  {
    var p := Pow2(k - 1);
    var m := Pow2(k) - 1;
    assert m / 2 == p - 1 && m % 2 == 1 by {
      DivisionUnique(m, 2, p - 1, 1);
      ModUnique(m, 2, p - 1, 1);
    }
    SplitLow(x, p);
  }

  /** Masking with k low ones, `x & ((1 << k) - 1)`, keeps x modulo 2^k. */
  lemma {:induction false} AndLowMask(x: nat, n: nat, k: nat)
    requires x < Pow2(n) && k <= n
    ensures Pow2(k) - 1 < Pow2(n)
    ensures And(x, Pow2(k) - 1, n) == x % Pow2(k)
    decreases n
  {
    if k == 0 {
      AndZeroMask(x, n);
    } else {
      assert x / 2 < Pow2(n - 1);
      AndLowMask(x / 2, n - 1, k - 1);
      AndLowMaskStep(x, n, k);
    }
  }

  /** Masking with zero clears everything. */
  lemma {:induction false} AndZeroMask(x: nat, n: nat)
    requires x < Pow2(n)
    ensures And(x, 0, n) == 0
    decreases n
  {
    if n > 0 {
      AndZeroMask(x / 2, n - 1);
    }
  }
}
