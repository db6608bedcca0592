/**
 Powers of two, shifts and masks on naturals, and the products they are reasoned about
 with, one multiplication at a time.
 */
module WordArithmetic {

  function Pow2(n: nat): (r: nat)
    ensures r >= 1
  {
    if n == 0 then 1 else 2 * Pow2(n - 1)
  }

  lemma {:induction false} Pow2Add(m: nat, n: nat)
    ensures Pow2(m + n) == Pow2(m) * Pow2(n)
  {
    if m != 0 {
      Pow2Add(m - 1, n);
      assert Pow2(m + n) == 2 * (Pow2(m - 1) * Pow2(n)) == (2 * Pow2(m - 1)) * Pow2(n);
    }
  }

  lemma {:induction false} Pow2Monotone(m: nat, n: nat)
    requires m <= n
    ensures Pow2(m) <= Pow2(n)
    decreases n
  {
    if m < n {
      Pow2Monotone(m, n - 1);
    }
  }

  lemma MulMonotone(a: nat, b: nat, c: nat)
    requires a <= b
    ensures a * c <= b * c
  {
  }

  lemma MulStrict(a: nat, b: nat, c: nat)
    requires a < b && c >= 1
    ensures a * c < b * c
    ensures a * c <= b * c - c
  {
    assert b * c == a * c + (b - a) * c;
    MulMonotone(1, b - a, c);
  }

  lemma MulAssoc(a: nat, b: nat, c: nat)
    ensures (a * b) * c == a * (b * c)
  {
  }

  lemma MulSucc(a: nat, c: nat)
    ensures (a + 1) * c == a * c + c
  {
  }

  /** Bits `s` and up of `m`: a right shift by `s`. */
  function Shr(m: nat, s: nat): nat {
    if s == 0 then m else Shr(m, s - 1) / 2
  }

  /** The low `s` bits of `m`: a mask of `s` ones. */
  function Low(m: nat, s: nat): nat {
    if s == 0 then 0
    else if Shr(m, s - 1) % 2 == 0 then Low(m, s - 1)
    else Low(m, s - 1) + Pow2(s - 1)
  }

  lemma {:induction false} ShrLow(m: nat, s: nat)
    ensures m == Shr(m, s) * Pow2(s) + Low(m, s) && Low(m, s) < Pow2(s)
  {
    if s != 0 {
      ShrLow(m, s - 1);
      var q, h := Shr(m, s - 1), Pow2(s - 1);
      var bit := q % 2;
      assert q == 2 * (q / 2) + bit;
      Halve(q / 2, bit, h);
    }
  }

  lemma Halve(q: nat, bit: nat, h: nat)
    requires bit < 2
    ensures (2 * q + bit) * h == q * (2 * h) + (if bit == 0 then 0 else h)
  {
    MulAssoc(q, 2, h);
    if bit == 1 {
      MulSucc(2 * q, h);
    }
  }

  lemma DivUnique(q: nat, r: nat, q': nat, r': nat, d: nat)
    requires r < d && r' < d && q * d + r == q' * d + r'
    ensures q == q' && r == r'
  {
    if q < q' {
      MulStrict(q, q', d);
    } else if q' < q {
      MulStrict(q', q, d);
    }
  }

  lemma ShrIs(m: nat, s: nat, q: nat, r: nat)
    requires m == q * Pow2(s) + r && r < Pow2(s)
    ensures Shr(m, s) == q && Low(m, s) == r
  {
    ShrLow(m, s);
    DivUnique(Shr(m, s), Low(m, s), q, r, Pow2(s));
  }

  lemma ShrBelow(m: nat, s: nat, n: nat)
    requires m < n * Pow2(s)
    ensures Shr(m, s) < n
  {
    ShrLow(m, s);
    if n <= Shr(m, s) {
      MulMonotone(n, Shr(m, s), Pow2(s));
    }
  }

  lemma MulCompares(a: nat, b: nat, c: nat)
    requires c >= 1
    ensures (a < b <==> a * c < b * c) && (a == b <==> a * c == b * c)
  {
    if a < b {
      MulStrict(a, b, c);
    } else if a > b {
      MulStrict(b, a, c);
    }
  }

  lemma SplitProduct(m: nat, q: nat, d: nat, rem: nat, u: nat)
    requires m == q * d + rem
    ensures m * u == q * (d * u) + rem * u
  {
    MulAssoc(q, d, u);
    assert (q * d + rem) * u == (q * d) * u + rem * u;
  }

  lemma Pow2Values()
    ensures Pow2(10) == 1024 && Pow2(12) == 4096 && Pow2(13) == 8192 && Pow2(14) == 16384
    ensures Pow2(23) == 0x80_0000 && Pow2(24) == 0x100_0000
  {
  }

  lemma SmallPowers()
    ensures Pow2(0) == 1 && Pow2(1) == 2 && Pow2(2) == 4 && Pow2(3) == 8 && Pow2(4) == 16 && Pow2(5) == 32
    ensures Pow2(6) == 64 && Pow2(7) == 128 && Pow2(8) == 256 && Pow2(9) == 512 && Pow2(10) == 1024
  {
  }

  lemma Pow2AddThree(a: nat, b: nat, c: nat)
    ensures Pow2(a) * (Pow2(b) * Pow2(c)) == Pow2(a + (b + c))
  {
    Pow2Add(b, c);
    Pow2Add(a, b + c);
    Product(Pow2(a), Pow2(b), Pow2(c), Pow2(b + c), Pow2(a + (b + c)));
  }

  lemma Product(x: nat, y: nat, z: nat, yz: nat, xyz: nat)
    requires yz == y * z && xyz == x * yz
    ensures x * (y * z) == xyz
  {
  }

  lemma Parity(a: nat, b: nat)
    requires a % 2 == 0
    ensures (a + b) % 2 == b % 2
  {
  }

  /** `m >> s`, and `m & (1 << s - 1)`, where `d` is `1 << s`. */
  function Shifted(m: nat, d: nat): nat
    requires d > 0
  {
    m / d
  }

  function Masked(m: nat, d: nat): nat
    requires d > 0
  {
    m % d
  }

  lemma DivMod(m: nat, d: nat)
    requires d > 0
    ensures m == Shifted(m, d) * d + Masked(m, d) && Masked(m, d) < d
  {
  }

  /** A shift is a division, and a mask of low ones a remainder, by a power of two. */
  lemma ShiftsAndMasks(m: nat, s: nat, q: nat, r: nat)
    requires q == Shifted(m, Pow2(s)) && r == Masked(m, Pow2(s))
    ensures q == Shr(m, s) && r == Low(m, s)
  {
    DivMod(m, Pow2(s));
    ShrIs(m, s, q, r);
  }

  method Shift(m: nat, s: nat) returns (q: nat, r: nat)
    ensures q == Shr(m, s) && r == Low(m, s)
  {
    var d := Pow2(s);
    q, r := Shifted(m, d), Masked(m, d);
    ShiftsAndMasks(m, s, q, r);
  }

  /** How many places the leading bit of a subnormal binary16 must move. */
  function LeadShift(p: nat): (k: nat)
    requires 1 <= p < 1024
    ensures 1 <= k <= 10 && 1024 <= p * Pow2(k) < 2048
  {
    SmallPowers();
    if p >= 512 then ShiftBy(p, 1); 1
    else if p >= 256 then ShiftBy(p, 2); 2
    else if p >= 128 then ShiftBy(p, 3); 3
    else if p >= 64 then ShiftBy(p, 4); 4
    else if p >= 32 then ShiftBy(p, 5); 5
    else if p >= 16 then ShiftBy(p, 6); 6
    else if p >= 8 then ShiftBy(p, 7); 7
    else if p >= 4 then ShiftBy(p, 8); 8
    else if p >= 2 then ShiftBy(p, 9); 9
    else ShiftBy(p, 10); 10
  }

  lemma ShiftBy(p: nat, k: nat)
    requires 1 <= k <= 10 && Pow2(10 - k) <= p < Pow2(11 - k)
    ensures 1024 <= p * Pow2(k) < 2048
  {
    Pow2Add(10 - k, k);
    Pow2Add(11 - k, k);
    MulMonotone(Pow2(10 - k), p, Pow2(k));
    MulStrict(p, Pow2(11 - k), Pow2(k));
    assert Pow2(10) == 1024 && Pow2(11) == 2048;
  }

  lemma Rescale(n: nat, k: nat)
    ensures (n * 8192) * Pow2(k) == n * Pow2(13 + k)
  {
    Pow2Values();
    Pow2Add(13, k);
    MulAssoc(n, 8192, Pow2(k));
  }
}
