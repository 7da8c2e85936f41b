/**
 The white list of the SOCKS server (Project4/Part2_SocketServer/socksServer.c):
 lines of socks.conf become masks and strings, a connection is checked with `&`
 and strcmp. What is decided is membership in numeric address intervals and
 equality of numeric ports.
 */
module Firewall {
  // ---------- masks ----------

  function Pow2(n: nat): (p: nat)
    ensures p >= 1
  {
    if n == 0 then 1 else 2 * Pow2(n - 1)
  }

  const TWO32 := 0x1_0000_0000

  /** `&` of unsigned numbers, bit by bit. */
  function And(x: nat, y: nat): nat {
    if x == 0 || y == 0 then 0 else 2 * And(x / 2, y / 2) + (x % 2) * (y % 2)
  }

  /** `0xffffffff << k` on 32 bits. */
  function ShiftedOnes(k: nat): nat { (0xffff_ffff * Pow2(k)) % TWO32 }

  lemma {:induction false} AndHighBits(x: nat, n: nat, k: nat)
    requires k <= n && x < Pow2(n)
    ensures Pow2(k) <= Pow2(n)
    ensures And(x, Pow2(n) - Pow2(k)) == x - x % Pow2(k)
    decreases n
  {
    if k > 0 {
      AndHighBits(x / 2, n - 1, k - 1);
      var y := Pow2(n - 1) - Pow2(k - 1);
      assert Pow2(n) - Pow2(k) == 2 * y;
      HalfMod(x, Pow2(k - 1));
    } else {
      AndOnes(x, n);
    }
  }

  lemma {:induction false} AndOnes(x: nat, n: nat)
    requires x < Pow2(n)
    ensures And(x, Pow2(n) - 1) == x
  {
    if n > 0 && x > 0 {
      AndOnes(x / 2, n - 1);
      assert (Pow2(n) - 1) / 2 == Pow2(n - 1) - 1 && (Pow2(n) - 1) % 2 == 1;
      if x / 2 == 0 || Pow2(n - 1) - 1 == 0 {
        assert x == 1;
      }
    }
  }

  lemma HalfMod(x: nat, m: nat)
    requires m > 0
    ensures x % (2 * m) == 2 * ((x / 2) % m) + x % 2
  {
    var q, r := (x / 2) / m, (x / 2) % m;
    assert x / 2 == q * m + r;
    assert x == 2 * (q * m) + 2 * r + x % 2;
    assert x == q * (2 * m) + (2 * r + x % 2);
    DivModUnique(x, 2 * m, q, 2 * r + x % 2);
  }

  lemma DivModUnique(x: nat, m: nat, q: nat, r: nat)
    requires m > 0 && r < m && x == q * m + r
    ensures x / m == q && x % m == r
  {
    var q', r' := x / m, x % m;
    assert x == q' * m + r';
    Times(q, q', m);
    if q > q' {
      AtLeast(q - q', m);
    } else if q < q' {
      AtLeast(q' - q, m);
    }
  }

  lemma Times(a: int, b: int, m: int)
    ensures (a - b) * m == a * m - b * m && (b - a) * m == b * m - a * m
  {
  }

  lemma AtLeast(a: int, m: int)
    requires a >= 1 && m > 0
    ensures a * m >= m
  {
    assert (a - 1) * m >= 0;
    Times(a, 1, m);
  }

  lemma MaskIsHighBits(k: nat)
    requires k <= 31
    ensures Pow2(32) == TWO32 && Pow2(k) < TWO32
    ensures ShiftedOnes(k) == TWO32 - Pow2(k)
  {
    assert Pow2(32) == TWO32 by {
      assert Pow2(8) == 256;
      assert Pow2(16) == 65536;
      assert Pow2(24) == 0x100_0000;
    }
    PowLess(k, 32);
    var p := Pow2(k);
    assert 0xffff_ffff * p == (p - 1) * TWO32 + (TWO32 - p);
    DivModUnique(0xffff_ffff * p, TWO32, p - 1, TWO32 - p);
  }

  lemma {:induction false} PowLess(k: nat, n: nat)
    requires k < n
    ensures Pow2(k) < Pow2(n)
  {
    if k < n - 1 {
      PowLess(k, n - 1);
    }
  }

  /** The network a number lies in: the interval of numbers with the same high bits. */
  predicate InNet(x: nat, net: nat, prefix: nat)
    requires prefix <= 32
  {
    var size := Pow2(32 - prefix);
    net - net % size <= x < net - net % size + size
  }

  /** Comparing under the mask is membership in the numeric interval. */
  lemma MaskedEqualIffInNet(x: nat, net: nat, prefix: nat)
    requires 1 <= prefix <= 32 && x < TWO32 && net < TWO32
    ensures And(x, ShiftedOnes(32 - prefix)) == And(net, ShiftedOnes(32 - prefix)) <==> InNet(x, net, prefix)
  {
    var k := 32 - prefix;
    MaskIsHighBits(k);
    AndHighBits(x, 32, k);
    AndHighBits(net, 32, k);
    SameBlock(x, net, Pow2(k));
  }

  lemma SameBlock(x: nat, y: nat, m: nat)
    requires m > 0
    ensures x - x % m == y - y % m <==> y - y % m <= x < y - y % m + m
  {
    var q, p := x / m, y / m;
    assert x - x % m == q * m && y - y % m == p * m;
    if p * m <= x < p * m + m {
      DivModUnique(x, m, p, x - p * m);
    }
  }
}
