/** Mip-chain arithmetic shared by the host and the shaders: the integer
    logarithm, the number of levels of a full chain, the size of a level and
    the compute dispatch grid (8x8 work groups) that covers a level. */
module Mips {

  function Max(a: int, b: int): int { if a < b then b else a }

  function Pow2(k: nat): (p: nat)
    ensures p >= 1
  {
    if k == 0 then 1 else 2 * Pow2(k - 1)
  }

  /** floor(log2(n)) for n >= 1: floating-point log2 is taken to be exact on integers. */
  function FloorLog2(n: nat): nat
    requires n >= 1
  {
    if n == 1 then 0 else 1 + FloorLog2(n / 2)
  }

  lemma {:induction false} FloorLog2Bounds(n: nat)
    requires n >= 1
    ensures Pow2(FloorLog2(n)) <= n < Pow2(FloorLog2(n) + 1)
  {
    if n > 1 {
      FloorLog2Bounds(n / 2);
    }
  }

  /** floor(log2(n)) is the unique k with 2^k <= n < 2^(k+1). */
  lemma {:induction false} FloorLog2Unique(n: nat, k: nat)
    requires n >= 1
    requires Pow2(k) <= n < Pow2(k + 1)
    ensures FloorLog2(n) == k
  {
    if k > 0 {
      assert n > 1;
      FloorLog2Unique(n / 2, k - 1);
    } else {
      assert n == 1;
    }
  }

  lemma {:induction false} Pow2Monotone(a: nat, b: nat)
    requires a <= b
    ensures Pow2(a) <= Pow2(b)
  {
    if a < b {
      Pow2Monotone(a, b - 1);
    }
  }

  /** `n >> i` for a non-negative n. */
  function Shr(n: nat, i: nat): nat
  {
    var p := Pow2(i);
    assert n / p >= 0 by { DivNonNegative(n, p); }
    n / p
  }

  lemma DivNonNegative(n: nat, p: int)
    requires p >= 1
    ensures n / p >= 0
  {
  }

  /** The size of mip level `i` of an extent `n`: max(n >> i, 1). */
  function LevelSize(n: nat, i: nat): (s: nat)
    ensures s >= 1
  {
    Max(Shr(n, i), 1)
  }

  /** countMips in the shaders: floor(log2(max(x, y))) + 1, the number of
      levels of a full chain, so that 2^(r-1) <= max(x, y) < 2^r. */
  function CountMips(x: int, y: int): (r: nat)
    requires Max(x, y) >= 1
    ensures r >= 1
    ensures Pow2(r - 1) <= Max(x, y) < Pow2(r)
  {
    FloorLog2Bounds(Max(x, y));
    FloorLog2(Max(x, y)) + 1
  }

  /** The host's numMips for a decoded texture: the same formula in double
      precision, truncated to u8. For i32 extents it never wraps, and it
      agrees with the shaders' countMips. */
  function HostMipCount(width: int, height: int): (r: nat)
    requires 1 <= Max(width, height) < 0x8000_0000
    ensures r == CountMips(width, height) && r <= 32
  {
    FloorLog2Below31(Max(width, height));
    (FloorLog2(Max(width, height)) + 1) % 256
  }

  lemma FloorLog2Below31(n: nat)
    requires 1 <= n < 0x8000_0000
    ensures FloorLog2(n) < 31
  {
    FloorLog2Bounds(n);
    if FloorLog2(n) >= 31 {
      Pow2Monotone(31, FloorLog2(n));
      Pow2Of31();
    }
  }

  lemma Pow2Of31()
    ensures Pow2(31) == 0x8000_0000
  {
    assert Pow2(8) == 0x100;
    assert Pow2(16) == 0x1_0000;
    assert Pow2(24) == 0x100_0000;
  }

  /** The last level of a full chain is one texel wide in the larger
      dimension, and the chain has no further level. */
  lemma {:induction false} LastLevelIsOneTexel(x: int, y: int)
    requires Max(x, y) >= 1
    ensures Shr(Max(x, y), CountMips(x, y) - 1) == 1
    ensures Shr(Max(x, y), CountMips(x, y)) == 0
  {
    var n, r := Max(x, y), CountMips(x, y);
    var p := Pow2(r - 1);
    assert Pow2(r) == 2 * p;
    DivBetween(n, p);
    DivBelow(n, Pow2(r));
  }

  lemma DivBelow(n: nat, p: nat)
    requires p >= 1 && n < p
    ensures n / p == 0
  {
  }

  lemma DivBetween(n: nat, p: nat)
    requires p >= 1 && p <= n < 2 * p
    ensures n / p == 1
  {
  }

  /** (max(n >> i, 1) + 7) / 8: the number of 8-wide work groups along one axis of level i. */
  function DispatchGroups(n: nat, i: nat): (g: nat)
    ensures g >= 1
    ensures 8 * (g - 1) < LevelSize(n, i) <= 8 * g
  {
    (LevelSize(n, i) + 7) / 8
  }

  /** A dispatch covers a level exactly to the next multiple of 8: it is
      ceil(size / 8), the least number of groups that reaches every texel. */
  lemma DispatchGroupsIsLeast(n: nat, i: nat, g: nat)
    requires 8 * g >= LevelSize(n, i)
    ensures DispatchGroups(n, i) <= g
  {
  }

  /** cubeSize = height / 2 for the equirectangular source (i32 division). */
  function CubeSize(height: nat): nat
  {
    height / 2
  }

  /** cubeMips = u8(log2(cubeSize) + 1): truncating the double to u8 floors the
      logarithm, so the cube chain has the full-chain count of a cubeSize square. */
  function CubeMips(cubeSize: nat): (r: nat)
    requires 1 <= cubeSize < 0x8000_0000
    ensures r == CountMips(cubeSize, cubeSize)
  {
    HostMipCount(cubeSize, cubeSize)
  }
}
