/** The number of hashes a Merkle root is charged for (libraries/chain/system_calls.cpp). */
module MerkleCost {
  import opened Int64

  /** Bitwise conjunction of naturals. */
  function And(x: nat, y: nat): nat {
    if x == 0 || y == 0 then 0 else 2 * And(x / 2, y / 2) + (x % 2) * (y % 2)
  }

  /**
    hashes_per_leaves in uint64_t arithmetic: leaves are rounded up to an even number,
    and once that is a power of two the rest of the recursion is short-circuited.
  */
  function HashesPerLeaves(leaves: u64): u64
    decreases leaves
  {
    if leaves <= 2 then 1 else
    var even := ToU64(ToU64(leaves + 1) / 2 * 2);
    if And(even, ToU64(even - 1)) == 0 then ToU64(even - 1)
    else ToU64(even / 2 + HashesPerLeaves(even / 2))
  }

  /** Level by level: ceil(n/2) hashes make the next level, down to one node. */
  function Levels(n: nat): nat {
    if n <= 1 then 0 else (n + 1) / 2 + Levels((n + 1) / 2)
  }

  predicate IsPow2(n: nat) {
    n == 1 || (n > 1 && n % 2 == 0 && IsPow2(n / 2))
  }

  function Log2Ceil(n: nat): nat {
    if n <= 1 then 0 else 1 + Log2Ceil((n + 1) / 2)
  }

  /** The bit trick: n & (n - 1) is zero exactly for powers of two. */
  lemma {:induction false} AndPredecessor(n: nat)
    requires n >= 1
    ensures And(n, n - 1) == 0 <==> IsPow2(n)
  {
    if n % 2 == 1 {
      if n > 1 {
        assert (n - 1) / 2 == n / 2;
        AndSelf(n / 2);
      }
    } else {
      assert (n - 1) / 2 == n / 2 - 1 && (n - 1) % 2 == 1;
      AndPredecessor(n / 2);
    }
  }

  lemma {:induction false} AndSelf(n: nat)
    ensures And(n, n) == n
  {
    if n > 0 {
      AndSelf(n / 2);
      BitSquare(n % 2);
    }
  }

  lemma BitSquare(b: nat)
    requires b < 2
    ensures b * b == b
  {
  }

  /** A full tree of n leaves has n - 1 inner nodes. */
  lemma {:induction false} LevelsOfPow2(n: nat)
    requires IsPow2(n)
    ensures Levels(n) == n - 1
  {
    if n > 1 {
      LevelsOfPow2(n / 2);
    }
  }

  /** One leaf more or less of an even number changes nothing above the leaves. */
  lemma {:induction false} LevelsOfEven(n: nat)
    requires n >= 2
    ensures Levels(n) == Levels((n + 1) / 2 * 2)
  {
    var half := (n + 1) / 2;
    assert (2 * half + 1) / 2 == half;
  }

  lemma {:induction false} LevelsBounds(n: nat)
    requires n >= 1
    ensures n - 1 <= Levels(n) <= n - 1 + Log2Ceil(n)
  {
    if n > 1 {
      LevelsBounds((n + 1) / 2);
    }
  }

  /** The count stays below any power of two the leaves stay within. */
  lemma {:induction false} LevelsFit(n: nat, p: nat)
    requires IsPow2(p) && n <= p
    ensures Levels(n) <= p - 1
    decreases p
  {
    if n > 1 {
      LevelsFit((n + 1) / 2, p / 2);
    }
  }

  lemma {:induction false} Pow2Size(k: nat, n: nat)
    requires IsPow2(n)
    ensures IsPow2(n * Power(k))
  {
    if k > 0 {
      Pow2Size(k - 1, n);
      DoublePow2(n * Power(k - 1));
      Regroup(n, Power(k - 1));
    }
  }

  lemma DoublePow2(n: nat)
    requires IsPow2(n)
    ensures IsPow2(2 * n)
  {
    assert (2 * n) / 2 == n;
  }

  lemma Regroup(a: nat, b: nat)
    ensures a * (2 * b) == 2 * (a * b) == (2 * b) * a
  {
  }

  function Power(k: nat): nat {
    if k == 0 then 1 else 2 * Power(k - 1)
  }

  lemma U64SizeIsPow2() returns (p: nat)
    ensures p == U64_SIZE && IsPow2(p)
  {
    p := 1 * Power(64);
    Pow2Size(64, 1);
    PowerDoubles(2, 4);
    PowerDoubles(4, 16);
    PowerDoubles(8, 0x100);
    PowerDoubles(16, 0x1_0000);
    PowerDoubles(32, 0x1_0000_0000);
  }

  lemma PowerDoubles(k: nat, v: nat)
    ensures Power(2) == 4
    ensures Power(k) == v ==> Power(2 * k) == v * v
  {
    PowerAdd(k, k);
  }

  lemma {:induction false} PowerAdd(a: nat, b: nat)
    ensures Power(a + b) == Power(a) * Power(b)
  {
    if a > 0 {
      PowerAdd(a - 1, b);
      Regroup(Power(b), Power(a - 1));
    }
  }

  /**
    For every uint64_t number of leaves the short-circuited count is the level-by-level
    sum, and no intermediate result wraps except leaves + 1 at the very top, where the
    wrapped zero leads to the right answer.
  */
  lemma {:induction false} CountIsLevels(leaves: u64)
    ensures leaves <= 1 ==> HashesPerLeaves(leaves) == 1
    ensures leaves >= 2 ==> HashesPerLeaves(leaves) == Levels(leaves)
    ensures leaves >= 2 ==> leaves - 1 <= HashesPerLeaves(leaves) <= leaves - 1 + Log2Ceil(leaves)
    decreases leaves
  {
    hide HashesPerLeaves, And, IsPow2, Levels, Log2Ceil, Power;
    if leaves >= 2 {
      LevelsBounds(leaves);
    }
    if leaves <= 2 {
      FewLeaves(leaves);
    } else {
      var p := U64SizeIsPow2();
      LevelsOfEven(leaves);
      Rounded(leaves);
      if leaves == p - 1 {
        LevelsOfPow2(p);
        TopCase(leaves);
      } else {
        LevelsFit(leaves, p);
        var even := (leaves + 1) / 2 * 2;
        AndPredecessor(even);
        if IsPow2(even) {
          LevelsOfPow2(even);
          Unfold(leaves, even);
        } else {
          CountIsLevels(even / 2);
          HalfStep(even);
          Unfold(leaves, even);
        }
      }
    }
  }

  lemma FewLeaves(leaves: u64)
    requires leaves <= 2
    ensures HashesPerLeaves(leaves) == 1 && Levels(2) == 1
  {
  }

  /** At 2^64 - 1 the rounding wraps to zero, and zero minus one wraps back. */
  lemma {:induction false} TopCase(leaves: u64)
    requires leaves == U64_SIZE - 1
    ensures HashesPerLeaves(leaves) == leaves
  {
    Rounded(leaves);
  }

  lemma {:induction false} Unfold(leaves: u64, even: u64)
    requires 2 < leaves < U64_SIZE - 1 && even == (leaves + 1) / 2 * 2
    ensures HashesPerLeaves(leaves)
         == if And(even, even - 1) == 0 then even - 1 else ToU64(even / 2 + HashesPerLeaves(even / 2))
  {
    hide And, ToU64;
    Rounded(leaves);
    InU64(even - 1);
  }

  lemma InU64(x: u64)
    ensures ToU64(x) == x
  {
  }

  lemma Rounded(leaves: u64)
    ensures ToU64(ToU64(leaves + 1) / 2 * 2) == if leaves == U64_SIZE - 1 then 0 else (leaves + 1) / 2 * 2
    ensures leaves < U64_SIZE - 1 ==> (leaves + 1) / 2 * 2 < U64_SIZE
  {
  }

  lemma {:induction false} HalfStep(even: nat)
    requires even >= 2 && even % 2 == 0
    ensures Levels(even) == even / 2 + Levels(even / 2)
  {
    assert (even + 1) / 2 == even / 2;
  }
}
