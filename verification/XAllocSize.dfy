// The block size xallocator chooses: the request plus its header and footer, rounded up
// by nexthigher's bit smearing.

module Bits {
  function Bit(n: nat, j: nat): bool
    decreases j
  {
    if j == 0 then n % 2 == 1 else Bit(n / 2, j - 1)
  }

  // n >> i.
  function Shr(n: nat, i: nat): nat
    decreases i
  {
    if i == 0 then n else Shr(n / 2, i - 1)
  }

  // a | b.
  function Or(a: nat, b: nat): nat
    decreases a + b
  {
    if a == 0 && b == 0 then 0
    else (if a % 2 == 1 || b % 2 == 1 then 1 else 0) + 2 * Or(a / 2, b / 2)
  }

  // The number of bits of n.
  function Length(n: nat): nat {
    if n == 0 then 0 else 1 + Length(n / 2)
  }

  function Pow2(m: nat): (p: nat)
    ensures p > 0
  {
    if m == 0 then 1 else 2 * Pow2(m - 1)
  }

  lemma {:induction false} ZeroBits(j: nat)
    ensures !Bit(0, j)
    decreases j
  {
    if j > 0 {
      ZeroBits(j - 1);
    }
  }

  lemma {:induction false} OrBit(a: nat, b: nat, j: nat)
    ensures Bit(Or(a, b), j) <==> Bit(a, j) || Bit(b, j)
    decreases j
  {
    OrHalves(a, b);
    hide Or;
    if j > 0 {
      OrBit(a / 2, b / 2, j - 1);
    }
  }

  lemma OrHalves(a: nat, b: nat)
    ensures Or(a, b) / 2 == Or(a / 2, b / 2)
    ensures Or(a, b) % 2 == 1 <==> a % 2 == 1 || b % 2 == 1
  {}

  lemma {:induction false} ShrBit(n: nat, i: nat, j: nat)
    ensures Bit(Shr(n, i), j) <==> Bit(n, i + j)
    decreases i
  {
    if i > 0 {
      ShrBit(n / 2, i - 1, j);
    }
  }

  // A number is determined by its bits.
  lemma {:induction false} SameBits(a: nat, b: nat)
    requires forall j: nat :: Bit(a, j) <==> Bit(b, j)
    ensures a == b
    decreases a + b
  {
    if a > 0 || b > 0 {
      assert Bit(a, 0) <==> Bit(b, 0);
      forall j: nat
        ensures Bit(a / 2, j) <==> Bit(b / 2, j)
      {
        assert Bit(a, j + 1) <==> Bit(b, j + 1);
      }
      SameBits(a / 2, b / 2);
    }
  }

  lemma {:induction false} OnesBits(m: nat, j: nat)
    ensures Bit(Pow2(m) - 1, j) <==> j < m
    decreases m
  {
    if m == 0 {
      ZeroBits(j);
    } else if j > 0 {
      OnesBits(m - 1, j - 1);
      assert (Pow2(m) - 1) / 2 == Pow2(m - 1) - 1;
    }
  }

  // n lies between the powers of two around its length.
  lemma {:induction false} LengthBounds(n: nat)
    ensures n < Pow2(Length(n))
    ensures n > 0 ==> Pow2(Length(n) - 1) <= n
  {
    if n > 0 {
      LengthBounds(n / 2);
    }
  }

  lemma {:induction false} LengthFits(n: nat, m: nat)
    requires n < Pow2(m)
    ensures Length(n) <= m
    decreases m
  {
    if n > 0 {
      LengthFits(n / 2, m - 1);
    }
  }

  lemma {:induction false} TopBit(n: nat)
    requires n > 0
    ensures Bit(n, Length(n) - 1)
  {
    if n > 1 {
      TopBit(n / 2);
    }
  }

  lemma {:induction false} NoHigherBit(n: nat, j: nat)
    requires j >= Length(n)
    ensures !Bit(n, j)
    decreases j
  {
    if n == 0 {
      ZeroBits(j);
    } else {
      NoHigherBit(n / 2, j - 1);
    }
  }

  lemma {:induction false} Pow2Grows(a: nat, b: nat)
    requires a <= b
    ensures Pow2(a) <= Pow2(b)
    decreases b
  {
    if a < b {
      Pow2Grows(a, b - 1);
    }
  }
}

module XAllocSize {
  import opened Bits

  const WIDTH: nat := 64
  const BLOCK_HEADER_SIZE: nat := 16
  const BLOCK_FOOTER_SIZE: nat := 0
  const SIZE_MAX: nat := 0xFFFF_FFFF_FFFF_FFFF
  const HALF: nat := 0x8000_0000_0000_0000

  // Whether one of the w bits of x from j up is set.
  predicate Any(x: nat, j: nat, w: nat)
    decreases w
  {
    w > 0 && (Bit(x, j + w - 1) || Any(x, j, w - 1))
  }

  lemma {:induction false} AnySplit(x: nat, j: nat, a: nat, b: nat)
    ensures Any(x, j, a + b) <==> Any(x, j, a) || Any(x, j + a, b)
    decreases b
  {
    if b > 0 {
      AnySplit(x, j, a, b - 1);
    }
  }

  lemma {:induction false} AnyHas(x: nat, j: nat, w: nat, d: nat)
    requires d < w && Bit(x, j + d)
    ensures Any(x, j, w)
    decreases w
  {
    if d < w - 1 {
      AnyHas(x, j, w - 1, d);
    }
  }

  lemma {:induction false} AnyNone(x: nat, j: nat, w: nat)
    requires j >= Length(x)
    ensures !Any(x, j, w)
    decreases w
  {
    if w > 0 {
      NoHigherBit(x, j + w - 1);
      AnyNone(x, j, w - 1);
    }
  }

  // k has a bit wherever x has one at that place or up to w - 1 places above.
  ghost predicate Smeared(x: nat, k: nat, w: nat) {
    forall j: nat :: Bit(k, j) <==> Any(x, j, w)
  }

  lemma SmearedStart(x: nat)
    ensures Smeared(x, x, 1)
  {
    forall j: nat
      ensures Bit(x, j) <==> Any(x, j, 1)
    {
      assert !Any(x, j, 0);
    }
  }

  lemma SmearedStep(x: nat, k: nat, w: nat)
    requires Smeared(x, k, w)
    ensures Smeared(x, Or(k, Shr(k, w)), 2 * w)
  {
    forall j: nat
      ensures Bit(Or(k, Shr(k, w)), j) <==> Any(x, j, 2 * w)
    {
      OrBit(k, Shr(k, w), j);
      ShrBit(k, w, j);
      AnySplit(x, j, w, w);
      assert Bit(k, j) <==> Any(x, j, w);
      assert Bit(k, w + j) <==> Any(x, w + j, w);
    }
  }

  // Smeared over its whole width, a number becomes all ones.
  lemma SmearedOnes(x: nat, k: nat, w: nat)
    requires Smeared(x, k, w) && Length(x) <= w
    ensures k == Pow2(Length(x)) - 1
  {
    var m := Length(x);
    forall j: nat
      ensures Bit(k, j) <==> Bit(Pow2(m) - 1, j)
    {
      OnesBits(m, j);
      assert Bit(k, j) <==> Any(x, j, w);
      if j < m {
        TopBit(x);
        AnyHas(x, j, w, m - 1 - j);
      } else {
        AnyNone(x, j, w);
      }
    }
    SameBits(k, Pow2(m) - 1);
  }

  lemma Pow64()
    ensures Pow2(WIDTH) == SIZE_MAX + 1 && Pow2(WIDTH - 1) == HALF
  {
    assert Pow2(64) == 2 * Pow2(63);
    Pow2Four();
    hide Pow2;
    Pow2Twice(4, 0x10);
    Pow2Twice(8, 0x100);
    Pow2Twice(16, 0x1_0000);
    Pow2Twice(32, 0x1_0000_0000);
  }

  lemma Pow2Four()
    ensures Pow2(4) == 0x10
  {
    assert Pow2(2) == 4;
  }

  lemma Pow2Twice(a: nat, x: nat)
    requires Pow2(a) == x
    ensures Pow2(a + a) == x * x
  {
    Pow2Add(a, a);
  }

  lemma {:induction false} Pow2Add(a: nat, b: nat)
    ensures Pow2(a + b) == Pow2(a) * Pow2(b)
    decreases b
  {
    if b > 0 {
      Pow2Add(a, b - 1);
      Regroup(Pow2(a), Pow2(b - 1));
    }
  }

  lemma Regroup(x: nat, y: nat)
    ensures 2 * (x * y) == x * (2 * y)
  {}

  predicate IsPow2(n: nat) {
    n > 0 && n == Pow2(Length(n) - 1)
  }

  lemma {:induction false} Pow2Length(m: nat)
    ensures Length(Pow2(m)) == m + 1
  {
    if m > 0 {
      Pow2Length(m - 1);
      assert Pow2(m) / 2 == Pow2(m - 1);
    }
  }

  // r is the least power of two that is at least n.
  ghost predicate LeastPow2(r: nat, n: nat) {
    IsPow2(r) && r >= n && forall m: nat :: Pow2(m) >= n ==> Pow2(m) >= r
  }

  // nexthigher for size_t, whose arithmetic wraps.
  function Rounded(k: nat): nat
    requires k <= SIZE_MAX
  {
    if k == 0 || k > HALF then 0 else Pow2(Length(k - 1))
  }

  method NextHigher(k0: nat) returns (r: nat)
    requires k0 <= SIZE_MAX
    ensures 0 < k0 <= HALF ==> LeastPow2(r, k0)
    ensures k0 == 0 || k0 > HALF ==> r == 0
    ensures r == Rounded(k0)
  {
    hide Smeared, Or, Shr, LeastPow2, Pow2, Length;
    var k: nat := if k0 == 0 then SIZE_MAX else k0 - 1;
    ghost var x := k;
    SmearedStart(x);
    var i: nat := 1;
    while i < 64
      invariant i in {1, 2, 4, 8, 16, 32, 64}
      invariant Smeared(x, k, i)
      decreases 64 - i
    {
      SmearedStep(x, k, i);
      k := Or(k, Shr(k, i));
      i := 2 * i;
    }
    FinishSmear(k0, x, k);
    r := if k == SIZE_MAX then 0 else k + 1;
    if 0 < k0 <= HALF {
      RoundedIsLeast(k0);
    }
  }

  lemma FinishSmear(k0: nat, x: nat, k: nat)
    requires k0 <= SIZE_MAX && x == (if k0 == 0 then SIZE_MAX else k0 - 1) && Smeared(x, k, 64)
    ensures Rounded(k0) == if k == SIZE_MAX then 0 else k + 1
  {
    hide Smeared, Length, Pow2;
    Pow64();
    LengthFits(x, 64);
    SmearedOnes(x, k, 64);
    LengthBounds(x);
    if x < HALF {
      LengthFits(x, 63);
      Pow2Grows(Length(x), 63);
    } else if Length(x) < 64 {
      Pow2Grows(Length(x), 63);
    }
  }

  // Within the range of size_t's powers of two, the result is the least one.
  lemma RoundedIsLeast(k: nat)
    requires 0 < k <= HALF
    ensures LeastPow2(Rounded(k), k)
  {
    var x := k - 1;
    var r := Rounded(k);
    LengthBounds(x);
    Pow2Length(Length(x));
    forall m: nat | Pow2(m) >= k
      ensures Pow2(m) >= r
    {
      LengthFits(x, m);
      Pow2Grows(Length(x), m);
    }
  }

  // The block size for a request, computed in size_t.
  function BlockSizeFor(size: nat): nat
    requires size <= SIZE_MAX
  {
    Rounded((size + BLOCK_HEADER_SIZE + BLOCK_FOOTER_SIZE) % (SIZE_MAX + 1))
  }

  // It is the least power of two that holds the request with its header and footer,
  // exactly as long as that sum is no more than size_t's largest power of two.
  lemma BlockSizeLeastIff(size: nat)
    requires size <= SIZE_MAX
    ensures LeastPow2(BlockSizeFor(size), size + BLOCK_HEADER_SIZE + BLOCK_FOOTER_SIZE)
       <==> size + BLOCK_HEADER_SIZE + BLOCK_FOOTER_SIZE <= HALF
  {
    var total := size + BLOCK_HEADER_SIZE + BLOCK_FOOTER_SIZE;
    hide LeastPow2, Rounded;
    if total <= HALF {
      RoundedIsLeast(total);
    } else {
      RoundedSmall(total % (SIZE_MAX + 1));
      NotLeast(BlockSizeFor(size), total);
    }
  }

  lemma NotLeast(r: nat, n: nat)
    requires r < n
    ensures !LeastPow2(r, n)
  {}

  lemma RoundedSmall(k: nat)
    requires k <= SIZE_MAX
    ensures Rounded(k) <= HALF
  {
    if 0 < k <= HALF {
      hide Pow2, Length;
      Pow64();
      LengthFits(k - 1, 63);
      Pow2Grows(Length(k - 1), 63);
    }
  }
}
