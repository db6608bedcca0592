/**
 `llm/vec/vec.go`: encoding float32 as IEEE 754 binary16.

 A float32 is its 32-bit pattern, a binary16 its 16-bit pattern, both as
 naturals; the source's shifts and masks are divisions and remainders by powers
 of two. Exact magnitudes are integers: a float32's in units of 2^-149, its least
 subnormal, and a binary16's in units of 2^-24, so one binary16 unit is 2^125
 float32 units.
 */
module HalfFloat {
  import opened WordArithmetic

  function Abs(x: int): (r: int) { if x < 0 then -x else x }

  // ---------- The round/sticky step ----------

  /** Shift right by `s`, rounding with the last bit shifted out and the rest. */
  function RoundShift(m: nat, s: nat): nat
    requires s >= 1
  {
    var half := Shr(m, s);
    var roundBit := Shr(m, s - 1) % 2 != 0;
    var sticky := Low(m, s - 1) != 0;
    if roundBit && (sticky || half % 2 != 0) then half + 1 else half
  }

  /** The round and sticky bits compare the remainder with half a unit. */
  lemma RoundBits(m: nat, s: nat)
    requires s >= 1
    ensures var h := Pow2(s - 1);
      && (Shr(m, s - 1) % 2 != 0 <==> Low(m, s) >= h)
      && (Low(m, s - 1) != 0 <==> Low(m, s) != 0 && Low(m, s) != h)
  {
    ShrLow(m, s - 1);
  }

  /** The integer `r` is no further from `m / d` than `k`, and even if as far. */
  predicate NoFurther(m: int, d: int, r: nat, k: nat) {
    var dr, dk := Abs(r * d - m), Abs(k * d - m);
    dr < dk || (dr == dk && r % 2 == 0)
  }

  /** `r` is m/2^s rounded to the nearest integer, ties to even. */
  ghost predicate NearestInteger(m: nat, s: nat, r: nat) {
    forall k: nat :: k != r ==> NoFurther(m, Pow2(s), r, k)
  }

  lemma NoFurtherStep(m: nat, d: nat, q: nat, r: nat, k: nat)
    requires q * d <= m < q * d + d
    requires r == q ==> (m - q * d < q * d + d - m || (m - q * d == q * d + d - m && q % 2 == 0))
    requires r != q ==> r == q + 1 && (m - q * d > q * d + d - m || (m - q * d == q * d + d - m && r % 2 == 0))
    requires k != r
    ensures NoFurther(m, d, r, k)
  {
    MulSucc(q, d);
    if k < q {
      MulStrict(k, q, d);
    } else if k > q + 1 {
      MulStrict(q + 1, k, d);
    }
  }

  /** For every natural mantissa and every shift the step rounds to nearest, ties to even. */
  lemma RoundShiftIsNearest(m: nat, s: nat)
    requires s >= 1
    ensures NearestInteger(m, s, RoundShift(m, s))
  {
    RoundBits(m, s);
    ShrLow(m, s);
    forall k: nat | k != RoundShift(m, s)
      ensures NoFurther(m, Pow2(s), RoundShift(m, s), k)
    {
      NoFurtherStep(m, Pow2(s), Shr(m, s), RoundShift(m, s), k);
    }
  }

  // ---------- Encodings and exact values ----------

  type Float32 = b: int | 0 <= b < 0x1_0000_0000
  type Half = h: int | 0 <= h < 0x1_0000

  function Sign32(b: Float32): int { b / 0x8000_0000 }
  function Exp32(b: Float32): nat { (b / 0x80_0000) % 256 }
  function Mant32(b: Float32): nat { b % 0x80_0000 }
  predicate IsNaN32(b: Float32) { Exp32(b) == 255 && Mant32(b) != 0 }

  /** The mantissa with its implicit leading one. */
  function Full(mant: nat): nat { 0x80_0000 + mant }

  /** The magnitude of a float32's fields in units of 2^-149; infinity reads as 2^128. */
  function Magnitude(exp: nat, mant: nat): nat {
    if exp == 0 then mant else Full(mant) * Pow2(exp - 1)
  }

  function Mag32(b: Float32): nat { Magnitude(Exp32(b), Mant32(b)) }

  function Sign16(h: Half): int { h / 0x8000 }
  function Bits16(h: Half): nat { h % 0x8000 }
  predicate IsNaN16(h: Half) { Bits16(h) > INF16 }

  const INF16: nat := 0x7C00

  /**
   The magnitude of the non-NaN binary16 `p` (without its sign bit) in units of
   2^-24. Infinity reads as 2^16, the value the next exponent would have: that is
   how section 4.3.1 of IEEE 754-2019 decides between the largest finite number
   and infinity.
   */
  function Mag16(p: nat): nat {
    if p < 1024 then p else (1024 + p % 1024) * Pow2(p / 1024 - 1)
  }

  /** One binary16 unit in float32 units. */
  function Unit(): nat { Pow2(100 + 25) }

  function Scaled16(p: nat): nat { Mag16(p) * Unit() }

  /** What IEEE 754 requires of the encoding `h` of `b`: the nearest magnitude, ties to even. */
  ghost predicate Encodes(b: Float32, h: Half) {
    && Sign16(h) == Sign32(b)
    && (if IsNaN32(b) then IsNaN16(h) else Nearest16(Mag32(b), Bits16(h)))
  }

  ghost predicate Nearest16(x: nat, p: nat) { Nearest(x, p, Grid(), INF16) }

  function Grid(): nat -> nat { (p: nat) => Scaled16(p) }

  // ---------- Rounding on any increasing grid ----------

  ghost predicate Increasing(grid: nat -> nat) {
    forall p: nat, q: nat :: p < q ==> grid(p) < grid(q)
  }

  ghost predicate Closer(x: nat, p: nat, q: nat, grid: nat -> nat) {
    var dp, dq := Abs(grid(p) - x), Abs(grid(q) - x);
    dp < dq || (dp == dq && p % 2 == 0)
  }

  /** `p` is the index up to `top` whose grid value is nearest to `x`, ties to even. */
  ghost predicate Nearest(x: nat, p: nat, grid: nat -> nat, top: nat) {
    p <= top && forall q: nat :: q <= top && q != p ==> Closer(x, p, q, grid)
  }

  /** Rounding to the right end of the cell that holds `x` is rounding to nearest. */
  lemma CellNearest(x: nat, lo: nat, p: nat, grid: nat -> nat, top: nat)
    requires Increasing(grid) && lo < top && (p == lo || p == lo + 1)
    requires grid(lo) <= x <= grid(lo + 1)
    requires Closer(x, p, if p == lo then lo + 1 else lo, grid)
    ensures Nearest(x, p, grid, top)
  {
    forall q: nat | q <= top && q != p
      ensures Closer(x, p, q, grid)
    {
      if q < lo {
        assert grid(q) < grid(lo) < grid(lo + 1);
      } else if q > lo + 1 {
        assert grid(lo) < grid(lo + 1) < grid(q);
      }
    }
  }

  lemma PickEnd(x: nat, lo: nat, up: nat, above: nat, half: nat, grid: nat -> nat, top: nat)
    requires Increasing(grid) && lo < top
    requires x == grid(lo) + above && grid(lo + 1) == grid(lo) + 2 * half && above < 2 * half
    requires up == if above > half || (above == half && lo % 2 != 0) then 1 else 0
    ensures Nearest(x, lo + up, grid, top)
  {
    CellNearest(x, lo, lo + up, grid, top);
  }

  lemma NearestUnique(x: nat, p: nat, q: nat, grid: nat -> nat, top: nat)
    requires Increasing(grid) && Nearest(x, p, grid, top) && Nearest(x, q, grid, top)
    ensures p == q
  {
    if p < q {
      NotBothNearest(x, p, q, grid, top);
    } else if q < p {
      NotBothNearest(x, q, p, grid, top);
    }
  }

  lemma NotBothNearest(x: nat, lo: nat, hi: nat, grid: nat -> nat, top: nat)
    requires Increasing(grid) && lo < hi && Nearest(x, lo, grid, top)
    ensures !Nearest(x, hi, grid, top)
  {
    var mid: nat := lo + 1;
    assert grid(lo) < grid(mid);
    assert Nearest(x, hi, grid, top) ==> Closer(x, hi, lo, grid) && Closer(x, lo, hi, grid);
    if hi == mid {
      assert !Closer(x, lo, hi, grid) || !Closer(x, hi, lo, grid);
    } else {
      assert grid(mid) < grid(hi);
      assert Nearest(x, hi, grid, top) ==> Closer(x, hi, mid, grid) && Closer(x, lo, mid, grid);
    }
  }

  lemma NearestMonotone(x: nat, y: nat, p: nat, q: nat, grid: nat -> nat, top: nat)
    requires Increasing(grid) && x <= y && Nearest(x, p, grid, top) && Nearest(y, q, grid, top)
    ensures p <= q && grid(p) <= grid(q)
  {
    if p > q {
      assert grid(q) < grid(p);
      assert Closer(x, p, q, grid) && Closer(y, q, p, grid);
      NearestUnique(x, p, q, grid, top);
    }
  }

  lemma ExactIsNearest(p: nat, grid: nat -> nat, top: nat)
    requires Increasing(grid) && p <= top
    ensures Nearest(grid(p), p, grid, top)
  {
  }

  lemma BeyondTop(x: nat, grid: nat -> nat, top: nat)
    requires Increasing(grid) && x >= grid(top)
    ensures Nearest(x, top, grid, top)
  {
  }

  /**
   A mantissa `m`, shifted right by `s` with rounding, picks the nearest grid index
   when the grid near `lo` is the multiples of `2^s * u`.
   */
  lemma CellRounds(m: nat, s: nat, u: nat, lo: nat, grid: nat -> nat, top: nat)
    requires Increasing(grid) && lo < top && s >= 1 && u >= 1 && lo % 2 == Shr(m, s) % 2
    requires grid(lo) == Shr(m, s) * (Pow2(s) * u)
    requires grid(lo + 1) == (Shr(m, s) + 1) * (Pow2(s) * u)
    ensures Nearest(m * u, lo + (RoundShift(m, s) - Shr(m, s)), grid, top)
  {
    RoundBits(m, s);
    ShrLow(m, s);
    var rem, h := Low(m, s), Pow2(s - 1);
    var above, half := Position(m, Shr(m, s), rem, h, u);
    var up := RoundShift(m, s) - Shr(m, s);
    PickEnd(m * u, lo, up, above, half, grid, top);
  }

  /** Where `m * u` lies in its cell, which starts at `q * (2 * h * u)`. */
  lemma Position(m: nat, q: nat, rem: nat, h: nat, u: nat) returns (above: nat, half: nat)
    requires m == q * (2 * h) + rem && rem < 2 * h && u >= 1
    ensures m * u == q * ((2 * h) * u) + above && above < 2 * half
    ensures (q + 1) * ((2 * h) * u) == q * ((2 * h) * u) + 2 * half
    ensures (rem < h <==> above < half) && (rem == h <==> above == half)
  {
    above, half := rem * u, h * u;
    SplitProduct(m, q, 2 * h, rem, u);
    MulSucc(q, (2 * h) * u);
    MulAssoc(2, h, u);
    MulCompares(rem, 2 * h, u);
    MulCompares(rem, h, u);
  }

  // ---------- The binary16 grid ----------

  /** Neighbouring patterns are one unit in the last place apart. */
  lemma Mag16Step(p: nat)
    ensures p < 1024 ==> Mag16(p + 1) == Mag16(p) + 1
    ensures p >= 1024 ==> Mag16(p + 1) == Mag16(p) + Pow2(p / 1024 - 1)
  {
    if p >= 1024 {
      var e, j := p / 1024, p % 1024;
      assert p == 1024 * e + j;
      if j == 1023 {
        assert (p + 1) / 1024 == e + 1 && (p + 1) % 1024 == 0;
        assert Pow2(e) == 2 * Pow2(e - 1);
      } else {
        assert (p + 1) / 1024 == e && (p + 1) % 1024 == j + 1;
        MulSucc(1024 + j, Pow2(e - 1));
      }
    } else if p == 1023 {
      assert Pow2(0) == 1;
    }
  }

  lemma {:induction false} Mag16Increasing(p: nat, q: nat)
    requires p < q
    ensures Mag16(p) < Mag16(q)
    decreases q
  {
    Mag16Step(q - 1);
    if p < q - 1 {
      Mag16Increasing(p, q - 1);
    }
  }

  lemma GridIncreasing()
    ensures Increasing(Grid())
  {
    forall p: nat, q: nat | p < q
      ensures Scaled16(p) < Scaled16(q)
    {
      Mag16Increasing(p, q);
      MulStrict(Mag16(p), Mag16(q), Unit());
    }
  }

  // ---------- The encoder ----------

  /** Splitting the unit between an exponent and the rest. */
  lemma UnitSplit(m: nat, n: nat)
    requires m + n == 125
    ensures Unit() == Pow2(m) * Pow2(n)
  {
    Pow2Add(m, n);
  }

  lemma Mag16At(e: nat, j: nat)
    requires 1 <= e && j < 1024
    ensures Mag16(e * 1024 + j) == (1024 + j) * Pow2(e - 1)
    ensures Mag16(e * 1024 + j + 1) == (1024 + j + 1) * Pow2(e - 1)
  {
    var p := e * 1024 + j;
    assert p / 1024 == e && p % 1024 == j;
    Mag16Step(p);
    MulSucc(1024 + j, Pow2(e - 1));
  }

  lemma ScaledAt(e: nat, j: nat, w: nat)
    requires 1 <= e && j < 1024 && w == Pow2(e - 1) * Unit()
    ensures Scaled16(e * 1024 + j) == (1024 + j) * w
    ensures Scaled16(e * 1024 + j + 1) == (1024 + j + 1) * w
  {
    Mag16At(e, j);
    MulAssoc(1024 + j, Pow2(e - 1), Unit());
    MulAssoc(1024 + j + 1, Pow2(e - 1), Unit());
  }

  /** A unit in the last place of a normal binary16, in float32 units. */
  lemma NormalUlp(e: nat, s: nat)
    requires 1 <= e <= 30 && s == 13
    ensures Pow2(e - 1) * Unit() == Pow2(s) * Pow2(e + 111)
  {
    Pow2Add(e - 1, 100 + 25);
    Pow2Add(s, e + 111);
  }

  // The constant shifts 13 and 12 are passed as variables, so that the recursive
  // shift is not unrolled.

  lemma NormalShift(mant: nat, s: nat)
    requires mant < 0x80_0000 && s == 13
    ensures Shr(Full(mant), s) == 1024 + mant / 8192
  {
    Pow2Values();
    ShrIs(Full(mant), s, 1024 + mant / 8192, mant % 8192);
  }

  lemma NormalShiftBefore(mant: nat, s: nat)
    requires mant < 0x80_0000 && s == 12
    ensures Shr(Full(mant), s) == 2048 + mant / 4096 && Low(Full(mant), s) == mant % 4096
  {
    Pow2Values();
    ShrIs(Full(mant), s, 2048 + mant / 4096, mant % 4096);
  }

  /** The grid cell of the normal branch starts at the truncated pattern `e * 1024 + j`. */
  lemma NormalCell(e: nat, j: nat, s: nat)
    requires 1 <= e <= 30 && j < 1024 && s == 13
    ensures Grid()(e * 1024 + j) == (1024 + j) * (Pow2(s) * Pow2(e + 111))
    ensures Grid()(e * 1024 + j + 1) == (1024 + j + 1) * (Pow2(s) * Pow2(e + 111))
  {
    NormalUlp(e, s);
    ScaledAt(e, j, Pow2(s) * Pow2(e + 111));
  }

  lemma NormalPattern(e: nat, j: nat)
    requires 1 <= e <= 30 && j < 1024
    ensures e * 1024 + j < INF16 && (e * 1024 + j) % 2 == (1024 + j) % 2
  {
    Parity(e * 1024, j);
    Parity(1024, j);
  }

  /** The normal branch: truncate to `lo`, then take the rounding decision. */
  lemma NormalRounds(e: nat, mant: nat, j: nat, lo: nat, s: nat)
    requires 1 <= e <= 30 && j < 1024 && lo == e * 1024 + j && s == 13 && Shr(Full(mant), s) == 1024 + j
    ensures Nearest(Full(mant) * Pow2(e + 111), lo + (RoundShift(Full(mant), s) - Shr(Full(mant), s)), Grid(), INF16)
  {
    NormalPattern(e, j);
    NormalCell(e, j, s);
    GridIncreasing();
    CellRounds(Full(mant), s, Pow2(e + 111), lo, Grid(), INF16);
  }

  /** The rounding decision of the normal branch, taken on the stored mantissa. */
  predicate RoundsUp(half: nat, mant: nat) {
    (mant / 4096) % 2 != 0 && (mant % 4096 != 0 || half % 2 != 0)
  }

  lemma RoundShiftFrom(m: nat, s: nat, q: nat, before: nat, rest: nat)
    requires s >= 1 && Shr(m, s) == q && Shr(m, s - 1) == before && Low(m, s - 1) == rest
    ensures RoundShift(m, s) == q + if before % 2 != 0 && (rest != 0 || q % 2 != 0) then 1 else 0
  {
  }

  lemma NormalBits(e: nat, mant: nat, s: nat)
    requires mant < 0x80_0000 && s == 13
    ensures RoundShift(Full(mant), s) - Shr(Full(mant), s) == if RoundsUp(e * 1024 + mant / 8192, mant) then 1 else 0
  {
    var m, a, j, r := Full(mant), mant / 4096, mant / 8192, mant % 4096;
    NormalShiftBefore(mant, s - 1);
    NormalShift(mant, s);
    RoundShiftFrom(m, s, 1024 + j, 2048 + a, r);
    Parity(2048, a);
    Parity(1024, j);
    Parity(e * 1024, j);
  }

  lemma SubnormalStep(lo: nat, w: nat)
    requires lo < 1024 && w == Unit()
    ensures Scaled16(lo) == lo * w && Scaled16(lo + 1) == (lo + 1) * w
  {
    Mag16Step(lo);
  }

  lemma SubnormalRounds(e: int, mant: nat)
    requires -10 <= e <= 0 && mant < 0x80_0000
    ensures Shr(Full(mant), 14 - e) < 1024
    ensures Nearest16(Magnitude(e + 112, mant), RoundShift(Full(mant), 14 - e))
  {
    var m, s := Full(mant), 14 - e;
    Pow2Values();
    Pow2Monotone(14, s);
    MulMonotone(16384, Pow2(s), 1024);
    ShrBelow(m, s, 1024);
    UnitSplit(s, e + 111);
    SubnormalStep(Shr(m, s), Pow2(s) * Pow2(e + 111));
    GridIncreasing();
    CellRounds(m, s, Pow2(e + 111), Shr(m, s), Grid(), INF16);
  }

  /** Less than half a binary16 unit. */
  lemma HalfUnit(x: nat, e: nat)
    requires e <= 100 && x < Pow2(24) * Pow2(e)
    ensures 2 * x < Unit()
  {
    Pow2Add(24, e);
    Pow2Monotone(24 + e, 124);
    assert Unit() == 2 * Pow2(124);
  }

  lemma TinyMagnitude(exp: nat, mant: nat)
    requires exp < 102 && mant < 0x80_0000
    ensures 2 * Magnitude(exp, mant) < Unit()
  {
    Pow2Values();
    if exp == 0 {
      assert Pow2(0) == 1;
      HalfUnit(mant, 0);
    } else {
      MulStrict(Full(mant), Pow2(24), Pow2(exp - 1));
      HalfUnit(Magnitude(exp, mant), exp - 1);
    }
  }

  lemma NearZero(x: nat)
    requires 2 * x < Unit()
    ensures Nearest16(x, 0)
  {
    GridIncreasing();
    assert Scaled16(0) == 0 && Scaled16(1) == Unit();
    CellNearest(x, 0, 0, Grid(), INF16);
  }

  lemma InfinityMagnitude(e: nat)
    requires e == 31
    ensures Mag16(e * 1024) == 1024 * Pow2(e - 1)
  {
    assert (e * 1024) / 1024 == e && (e * 1024) % 1024 == 0;
  }

  lemma ScaledInfinity()
    ensures Scaled16(INF16) == Pow2(23) * Pow2(142)
  {
    var a, u := Pow2(30), Unit();
    InfinityMagnitude(31);
    Pow2Values();
    MulAssoc(1024, a, u);
    Pow2AddThree(10, 30, 100 + 25);
    Pow2Add(23, 142);
  }

  lemma HugeMagnitude(exp: nat, mant: nat)
    requires exp >= 143
    ensures Magnitude(exp, mant) >= Scaled16(INF16)
  {
    Pow2Values();
    Pow2Monotone(142, exp - 1);
    MulMonotone(Pow2(23), Full(mant), Pow2(exp - 1));
    MulMonotone(Pow2(142), Pow2(exp - 1), Pow2(23));
    ScaledInfinity();
  }

  lemma NearInfinity(x: nat)
    requires x >= Scaled16(INF16)
    ensures Nearest16(x, INF16)
  {
    GridIncreasing();
    BeyondTop(x, Grid(), INF16);
  }

  /** A pattern assembled from the sign bit and fifteen magnitude bits. */
  lemma Assemble(b: Float32, p: int)
    requires 0 <= p < 0x8000
    requires if IsNaN32(b) then p > INF16 else Nearest16(Mag32(b), p)
    ensures 0 <= Sign32(b) * 0x8000 + p < 0x1_0000
    ensures Encodes(b, Sign32(b) * 0x8000 + p)
  {
    var h := Sign32(b) * 0x8000 + p;
    assert Sign16(h) == Sign32(b) && Bits16(h) == p;
  }

  lemma InfinityBranch(b: Float32)
    requires Exp32(b) >= 143 && !IsNaN32(b)
    ensures 0 <= Sign32(b) * 0x8000 + 0x7C00 < 0x1_0000
    ensures Encodes(b, Sign32(b) * 0x8000 + 0x7C00)
  {
    HugeMagnitude(Exp32(b), Mant32(b));
    NearInfinity(Mag32(b));
    Assemble(b, 0x7C00);
  }

  lemma NaNBranch(b: Float32, quiet: nat)
    requires IsNaN32(b) && quiet == Mant32(b) / 8192 + (if Mant32(b) / 8192 % 2 == 0 then 1 else 0)
    ensures 0 <= Sign32(b) * 0x8000 + 0x7C00 + quiet < 0x1_0000
    ensures Encodes(b, Sign32(b) * 0x8000 + 0x7C00 + quiet)
  {
    assert 1 <= quiet < 1024;
    Assemble(b, 0x7C00 + quiet);
  }

  lemma ZeroBranch(b: Float32)
    requires Exp32(b) < 102
    ensures Encodes(b, Sign32(b) * 0x8000)
  {
    TinyMagnitude(Exp32(b), Mant32(b));
    NearZero(Mag32(b));
    Assemble(b, 0);
  }

  lemma SubnormalBranch(b: Float32, e: int)
    requires -10 <= e <= 0 && Exp32(b) == e + 112
    ensures var half := RoundShift(Full(Mant32(b)), 14 - e);
      0 <= half <= 1024 && Encodes(b, Sign32(b) * 0x8000 + half)
  {
    SubnormalRounds(e, Mant32(b));
    Assemble(b, RoundShift(Full(Mant32(b)), 14 - e));
  }

  lemma NormalNearest(e: nat, mant: nat, half: nat)
    requires 1 <= e <= 30 && mant < 0x80_0000 && half == e * 1024 + mant / 8192
    ensures Nearest16(Magnitude(e + 112, mant), half + if RoundsUp(half, mant) then 1 else 0)
  {
    NormalBits(e, mant, 13);
    NormalShift(mant, 13);
    NormalRounds(e, mant, mant / 8192, half, 13);
    assert Magnitude(e + 112, mant) == Full(mant) * Pow2(e + 111);
  }

  lemma NormalBranch(b: Float32, e: nat, half: nat)
    requires 1 <= e <= 30 && Exp32(b) == e + 112 && half == e * 1024 + Mant32(b) / 8192
    ensures var p := half + if RoundsUp(half, Mant32(b)) then 1 else 0;
      p < 0x8000 && Encodes(b, Sign32(b) * 0x8000 + p)
  {
    NormalNearest(e, Mant32(b), half);
    Assemble(b, half + if RoundsUp(half, Mant32(b)) then 1 else 0);
  }

  /** The same, with the sign bit already in place. */
  lemma NormalResult(b: Float32, sign: nat, e: nat, truncated: nat)
    requires sign == Sign32(b) * 0x8000 && 1 <= e <= 30 && Exp32(b) == e + 112
    requires truncated == e * 1024 + Mant32(b) / 8192
    ensures var half := sign + truncated;
      var h := half + if RoundsUp(half, Mant32(b)) then 1 else 0;
      0 <= half <= h < 0x1_0000 && Encodes(b, h)
  {
    SameParity(b, sign, truncated);
    NormalBranch(b, e, truncated);
  }

  lemma SameParity(b: Float32, sign: nat, truncated: nat)
    requires sign == Sign32(b) * 0x8000
    ensures RoundsUp(sign + truncated, Mant32(b)) <==> RoundsUp(truncated, Mant32(b))
  {
    Parity(sign, truncated);
    SignBit(b);
  }

  lemma SignBit(b: Float32)
    ensures 0 <= Sign32(b) <= 1 && ((b / 0x1_0000) / 0x8000 % 2) * 0x8000 == Sign32(b) * 0x8000
  {
  }

  /** The subnormal branch: `mant` in units of 2^shift, rounded to the nearest integer, ties to even. */
  method ShiftAndRound(mant: nat, shift: nat) returns (half: nat)
    requires shift >= 1
    ensures NearestInteger(mant, shift, half) && half == RoundShift(mant, shift)
  {
    var rest, above, below;
    half, rest := Shift(mant, shift);
    above, below := Shift(mant, shift - 1);
    RoundShiftIsNearest(mant, shift);
    var roundBit := above % 2 != 0;
    var sticky := below != 0;
    if roundBit && (sticky || half % 2 != 0) {
      half := half + 1;
    }
  }

  /** `float32ToFloat16Bits`, branch by branch. */
  method Float32ToFloat16Bits(b: Float32) returns (h: Half)
    ensures Encodes(b, h)
  {
    var sign := ((b / 0x1_0000) / 0x8000 % 2) * 0x8000;
    SignBit(b);
    var exp := Exp32(b) - 127 + 15;
    var mant := Mant32(b);

    if Exp32(b) == 0xFF {
      if mant == 0 {
        InfinityBranch(b);
        return sign + 0x7C00;
      }
      var payload := mant / 8192;
      var quiet := if payload % 2 == 0 then payload + 1 else payload; // payload | 1
      NaNBranch(b, quiet);
      return sign + 0x7C00 + quiet;
    } else if exp >= 31 {
      InfinityBranch(b);
      return sign + 0x7C00;
    } else if exp <= 0 {
      if exp < -10 {
        ZeroBranch(b);
        return sign;
      }
      SubnormalBranch(b, exp);
      mant := 0x80_0000 + mant; // restore the implicit leading 1
      var half := ShiftAndRound(mant, 14 - exp);
      return sign + half;
    } else {
      h := EncodeNormal(b, sign, exp, mant);
    }
  }

  /** The default branch, where the increment may carry into the exponent or into infinity. */
  method EncodeNormal(b: Float32, sign: nat, exp: nat, mant: nat) returns (h: Half)
    requires sign == Sign32(b) * 0x8000 && 1 <= exp <= 30 && Exp32(b) == exp + 112 && mant == Mant32(b)
    ensures Encodes(b, h)
  {
    var half := sign + (exp * 1024 + mant / 8192);
    NormalResult(b, sign, exp, half - sign);
    var roundBit := (mant / 4096) % 2 != 0;
    var sticky := mant % 4096 != 0;
    if roundBit && (sticky || half % 2 != 0) {
      return half + 1;
    }
    return half;
  }

  /** `Float32ToFloat16`: nil stays nil, and every element is encoded in its place. */
  method Float32ToFloat16(v: array?<Float32>) returns (out: array?<Half>)
    ensures v == null <==> out == null
    ensures v != null ==> fresh(out) && out.Length == v.Length
    ensures v != null ==> forall i :: 0 <= i < v.Length ==> Encodes(v[i], out[i])
  {
    if v == null {
      return null;
    }
    out := new Half[v.Length];
    for i := 0 to v.Length
      invariant forall j :: 0 <= j < i ==> Encodes(v[j], out[j])
    {
      out[i] := Float32ToFloat16Bits(v[i]);
    }
  }

  // ---------- Consequences ----------

  lemma Nearest16Unique(x: nat, p: nat, q: nat)
    requires Nearest16(x, p) && Nearest16(x, q)
    ensures p == q
  {
    GridIncreasing();
    NearestUnique(x, p, q, Grid(), INF16);
  }

  lemma Exact16(p: nat)
    requires p <= INF16
    ensures Nearest16(Scaled16(p), p)
  {
    GridIncreasing();
    ExactIsNearest(p, Grid(), INF16);
  }

  lemma Nearest16Monotone(x: nat, y: nat, p: nat, q: nat)
    requires x <= y && Nearest16(x, p) && Nearest16(y, q)
    ensures Scaled16(p) <= Scaled16(q)
  {
    GridIncreasing();
    NearestMonotone(x, y, p, q, Grid(), INF16);
  }

  /** The encoding of a non-NaN float32 is the only one IEEE 754 allows. */
  lemma EncodingIsUnique(b: Float32, g: Half, h: Half)
    requires !IsNaN32(b) && Encodes(b, g) && Encodes(b, h)
    ensures g == h
  {
    Nearest16Unique(Mag32(b), Bits16(g), Bits16(h));
  }

  function Signed(sign: int, magnitude: nat): int { if sign == 1 then 0 - magnitude else magnitude }
  function Value32(b: Float32): int { Signed(Sign32(b), Mag32(b)) }
  function Value16(h: Half): int { Signed(Sign16(h), Scaled16(Bits16(h))) }

  lemma ZeroEncodesAsZero(p: nat)
    requires Nearest16(0, p)
    ensures p == 0
  {
    Exact16(0);
    Nearest16Unique(0, p, 0);
  }

  /** Encoding is monotone: a float32 that is no larger is encoded no larger. */
  lemma EncodingIsMonotone(a: Float32, b: Float32, g: Half, h: Half)
    requires !IsNaN32(a) && !IsNaN32(b) && Encodes(a, g) && Encodes(b, h)
    requires Value32(a) <= Value32(b)
    ensures Value16(g) <= Value16(h)
  {
    var x, y, p, q := Mag32(a), Mag32(b), Bits16(g), Bits16(h);
    if Sign32(a) == 0 && Sign32(b) == 0 {
      Nearest16Monotone(x, y, p, q);
    } else if Sign32(a) == 1 && Sign32(b) == 1 {
      Nearest16Monotone(y, x, q, p);
    } else if Sign32(a) == 0 {
      ZeroEncodesAsZero(p);
      ZeroEncodesAsZero(q);
    }
  }

  /** The top of the grid in units of 2^k: 4094 below infinity's 4096. */
  lemma TopMagnitudes(k: nat)
    requires k == 28
    ensures Mag16(0x7BFF) == 4094 * Pow2(k) && Mag16(INF16) == 4096 * Pow2(k)
  {
    assert 0x7BFF / 1024 == 30 && 0x7BFF % 1024 == 1023;
    assert INF16 / 1024 == 31 && INF16 % 1024 == 0;
    assert Pow2(k + 1) == 2 * Pow2(k) && Pow2(k + 2) == 4 * Pow2(k);
  }

  lemma LargestFinite(k: nat, t: nat)
    requires k == 28 && t == Pow2(k) * Unit()
    ensures Grid()(0x7BFF) == 4094 * t && Grid()(INF16) == 4096 * t
  {
    TopMagnitudes(k);
    MulAssoc(4094, Pow2(k), Unit());
    MulAssoc(4096, Pow2(k), Unit());
  }

  /**
   A float32 is encoded as infinity exactly from 65520 = 2^16 - 2^4 up (section
   7.4): 65520 is 4095 times 2^4, and 2^4 is 2^28 binary16 units.
   */
  lemma OverflowThreshold(b: Float32, h: Half)
    requires !IsNaN32(b) && Encodes(b, h)
    ensures Bits16(h) == INF16 <==> Mag32(b) >= 4095 * (Pow2(28) * Unit())
  {
    var t := Pow2(28) * Unit();
    LargestFinite(28, t);
    GridIncreasing();
    LastCell(Mag32(b), Bits16(h), t, Grid());
  }

  lemma LastCell(x: nat, p: nat, t: nat, grid: nat -> nat)
    requires Increasing(grid) && Nearest(x, p, grid, INF16)
    requires grid(0x7BFF) == 4094 * t && grid(INF16) == 4096 * t
    ensures p == INF16 <==> x >= 4095 * t
  {
    if p == INF16 {
      assert Closer(x, INF16, 0x7BFF, grid);
    } else {
      assert Closer(x, p, INF16, grid);
      assert p < 0x7BFF ==> grid(p) < grid(0x7BFF);
    }
  }

  /** The float32 with exactly the value of a non-NaN binary16. */
  function Widen(h: Half): Float32
    requires !IsNaN16(h)
  {
    var p, sign := Bits16(h), Sign16(h) * 0x8000_0000;
    if p == 0 then sign
    else if p < 1024 then
      var k := LeadShift(p);
      sign + (113 - k) * 0x80_0000 + (p * Pow2(k) - 1024) * 8192
    else if p == INF16 then sign + 0x7F80_0000
    else sign + (p / 1024 + 112) * 0x80_0000 + (p % 1024) * 8192
  }

  lemma Fields32(s: int, e: nat, n: nat)
    requires 0 <= s <= 1 && e < 256 && n < 1024
    ensures var b := s * 0x8000_0000 + e * 0x80_0000 + n * 8192;
      && 0 <= b < 0x1_0000_0000
      && Sign32(b) == s && Exp32(b) == e && Mant32(b) == n * 8192 && Full(Mant32(b)) == (1024 + n) * 8192
  {
  }

  predicate Widens(b: Float32, h: Half) {
    !IsNaN32(b) && Sign32(b) == Sign16(h) && Mag32(b) == Scaled16(Bits16(h))
  }

  lemma WidenZero(h: Half)
    requires Bits16(h) == 0
    ensures Widens(Widen(h), h)
  {
    Fields32(Sign16(h), 0, 0);
  }

  lemma WidenSubnormal(h: Half)
    requires 1 <= Bits16(h) < 1024
    ensures Widens(Widen(h), h)
  {
    var p := Bits16(h);
    var k := LeadShift(p);
    var n := p * Pow2(k);
    Fields32(Sign16(h), 113 - k, n - 1024);
    Rescale(n, 112 - k);
    UnitSplit(k, 125 - k);
    MulAssoc(p, Pow2(k), Pow2(125 - k));
  }

  lemma NormalMagnitude(e: nat, j: nat, s: nat)
    requires 1 <= e <= 30 && j < 1024 && s == 13
    ensures Magnitude(e + 112, j * 8192) == Scaled16(e * 1024 + j)
  {
    NormalCell(e, j, s);
    assert Grid()(e * 1024 + j) == Scaled16(e * 1024 + j);
    Rescale(1024 + j, e + 111);
    Pow2Add(s, e + 111);
  }

  lemma WidenNormal(h: Half)
    requires 1024 <= Bits16(h) < INF16
    ensures Widens(Widen(h), h)
  {
    var p := Bits16(h);
    Fields32(Sign16(h), p / 1024 + 112, p % 1024);
    NormalMagnitude(p / 1024, p % 1024, 13);
  }

  /** The widening of a finite binary16 has its sign and exactly its magnitude. */
  lemma WidenIsExact(h: Half)
    requires !IsNaN16(h) && Bits16(h) != INF16
    ensures Widens(Widen(h), h)
  {
    if Bits16(h) == 0 {
      WidenZero(h);
    } else if Bits16(h) < 1024 {
      WidenSubnormal(h);
    } else {
      WidenNormal(h);
    }
  }

  /** Round trip: encoding the exact widening of any non-NaN binary16 returns it. */
  lemma WidenThenEncode(h: Half, g: Half)
    requires !IsNaN16(h) && Encodes(Widen(h), g)
    ensures !IsNaN32(Widen(h)) && g == h
  {
    var p := Bits16(h);
    if p == INF16 {
      Fields32(Sign16(h), 255, 0);
      HugeMagnitude(255, 0);
      NearInfinity(Mag32(Widen(h)));
      Nearest16Unique(Mag32(Widen(h)), Bits16(g), INF16);
    } else {
      WidenIsExact(h);
      Exact16(p);
      Nearest16Unique(Scaled16(p), Bits16(g), p);
    }
  }
}
