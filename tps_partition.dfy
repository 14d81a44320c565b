/** How `TpsTrxGensConfig` splits a target rate of transactions per second
    (TPS) across transaction generator processes, each of which may be
    asked for at most `tpsLimitPerGenerator`.

    The specification is `Partition`: as many generators as the limit forces,
    every one of them given the floor of the average, and the remainder
    handed out one unit each to the LAST generators. The class below builds
    its list the way the harness does, one entry per loop iteration with a
    running value that is bumped once, and is proved to produce `Partition`. */
module TpsPartition {

  /** ceil(targetTps / tpsLimitPerGenerator) in exact integer arithmetic:
      the fewest generators that can carry the target without one of them
      exceeding the limit. */
  function NumGenerators(targetTps: nat, tpsLimitPerGenerator: nat): (n: nat)
    requires tpsLimitPerGenerator > 0
    ensures n * tpsLimitPerGenerator >= targetTps
    ensures n > 0 ==> (n - 1) * tpsLimitPerGenerator < targetTps
  {
    var L := tpsLimitPerGenerator;
    var n := (targetTps + L - 1) / L;
    assert n * L + (targetTps + L - 1) % L == targetTps + L - 1;
    assert (n - 1) * L == n * L - L;
    n
  }

  /** A positive target needs at least one generator and never more
      generators than transactions per second. */
  lemma NumGeneratorsBounds(targetTps: nat, tpsLimitPerGenerator: nat)
    requires targetTps > 0 && tpsLimitPerGenerator > 0
    ensures 0 < NumGenerators(targetTps, tpsLimitPerGenerator) <= targetTps
  {
    var n := NumGenerators(targetTps, tpsLimitPerGenerator);
    assert n > 0;
    MulAtLeastLeft(n - 1, tpsLimitPerGenerator);
  }

  lemma MulAtLeastLeft(a: nat, b: nat)
    requires b >= 1
    ensures a * b >= a
  {
    assert a * b == a * (b - 1) + a;
  }

  /** The rate every generator gets at least: floor(targetTps / numGenerators). */
  function BaseTps(targetTps: nat, tpsLimitPerGenerator: nat): nat
    requires targetTps > 0 && tpsLimitPerGenerator > 0
  {
    NumGeneratorsBounds(targetTps, tpsLimitPerGenerator);
    targetTps / NumGenerators(targetTps, tpsLimitPerGenerator)
  }

  /** How many generators get one unit more than `BaseTps`: targetTps mod numGenerators. */
  function ExtraTps(targetTps: nat, tpsLimitPerGenerator: nat): nat
    requires targetTps > 0 && tpsLimitPerGenerator > 0
  {
    NumGeneratorsBounds(targetTps, tpsLimitPerGenerator);
    targetTps % NumGenerators(targetTps, tpsLimitPerGenerator)
  }

  /** The 1-based position from which on every generator gets the extra unit. */
  function IncrementPoint(targetTps: nat, tpsLimitPerGenerator: nat): nat
    requires targetTps > 0 && tpsLimitPerGenerator > 0
  {
    NumGeneratorsBounds(targetTps, tpsLimitPerGenerator);
    NumGenerators(targetTps, tpsLimitPerGenerator) + 1 - ExtraTps(targetTps, tpsLimitPerGenerator)
  }

  function Repeat(v: nat, k: nat): (r: seq<nat>)
    ensures |r| == k && forall i :: 0 <= i < k ==> r[i] == v
  {
    seq(k, _ => v)
  }

  /** The partition: `BaseTps` for the leading generators, one more for the
      last `ExtraTps` of them. */
  function Partition(targetTps: nat, tpsLimitPerGenerator: nat): (r: seq<nat>)
    requires targetTps > 0 && tpsLimitPerGenerator > 0
    ensures |r| == NumGenerators(targetTps, tpsLimitPerGenerator)
  {
    NumGeneratorsBounds(targetTps, tpsLimitPerGenerator);
    var n := NumGenerators(targetTps, tpsLimitPerGenerator);
    var base := BaseTps(targetTps, tpsLimitPerGenerator);
    var extra := ExtraTps(targetTps, tpsLimitPerGenerator);
    Repeat(base, n - extra) + Repeat(base + 1, extra)
  }

  function Sum(s: seq<nat>): nat
  {
    if s == [] then 0 else s[0] + Sum(s[1..])
  }

  lemma {:induction false} SumConcat(a: seq<nat>, b: seq<nat>)
    ensures Sum(a + b) == Sum(a) + Sum(b)
    decreases |a|
  {
    if a != [] {
      assert (a + b)[1..] == a[1..] + b;
      SumConcat(a[1..], b);
    } else {
      assert a + b == b;
    }
  }

  lemma {:induction false} SumRepeat(v: nat, k: nat)
    ensures Sum(Repeat(v, k)) == v * k
    decreases k
  {
    if k > 0 {
      assert Repeat(v, k)[1..] == Repeat(v, k - 1);
      SumRepeat(v, k - 1);
    }
  }

  /** The generators' rates add up to exactly the target. */
  lemma PartitionSum(targetTps: nat, tpsLimitPerGenerator: nat)
    requires targetTps > 0 && tpsLimitPerGenerator > 0
    ensures Sum(Partition(targetTps, tpsLimitPerGenerator)) == targetTps
  {
    NumGeneratorsBounds(targetTps, tpsLimitPerGenerator);
    var n := NumGenerators(targetTps, tpsLimitPerGenerator);
    var base := BaseTps(targetTps, tpsLimitPerGenerator);
    var extra := ExtraTps(targetTps, tpsLimitPerGenerator);
    assert Partition(targetTps, tpsLimitPerGenerator) == Repeat(base, n - extra) + Repeat(base + 1, extra);
    assert Sum(Repeat(base, n - extra) + Repeat(base + 1, extra)) == base * n + extra by {
      SumConcat(Repeat(base, n - extra), Repeat(base + 1, extra));
      SumRepeat(base, n - extra);
      SumRepeat(base + 1, extra);
      SplitProduct(base, n, extra);
    }
    assert base * n + extra == targetTps;
  }

  lemma SplitProduct(b: nat, n: nat, e: nat)
    requires e <= n
    ensures b * (n - e) + (b + 1) * e == b * n + e
  {
    assert b * (n - e) == b * n - b * e;
    assert (b + 1) * e == b * e + e;
  }

  /** Every entry is the base rate or one more; the entry at 1-based
      position `num` carries the extra unit exactly when the target does
      not divide evenly and `num` has reached `IncrementPoint`; so an evenly
      divisible target gives every generator the same rate. */
  lemma PartitionEntries(targetTps: nat, tpsLimitPerGenerator: nat)
    requires targetTps > 0 && tpsLimitPerGenerator > 0
    ensures forall i :: 0 <= i < |Partition(targetTps, tpsLimitPerGenerator)| ==>
      var base := BaseTps(targetTps, tpsLimitPerGenerator);
      var cleanlyDivisible := ExtraTps(targetTps, tpsLimitPerGenerator) == 0;
      Partition(targetTps, tpsLimitPerGenerator)[i] ==
        if !cleanlyDivisible && i + 1 >= IncrementPoint(targetTps, tpsLimitPerGenerator) then base + 1 else base
  {
  }

  /** The list is non-decreasing and no two generators differ by more than one. */
  lemma PartitionBalanced(targetTps: nat, tpsLimitPerGenerator: nat)
    requires targetTps > 0 && tpsLimitPerGenerator > 0
    ensures var r := Partition(targetTps, tpsLimitPerGenerator);
      forall i, j :: 0 <= i <= j < |r| ==> r[i] <= r[j] <= r[i] + 1
  {
  }

  /** Every generator is asked for at least one and at most the limit. */
  lemma PartitionWithinLimit(targetTps: nat, tpsLimitPerGenerator: nat)
    requires targetTps > 0 && tpsLimitPerGenerator > 0
    ensures var r := Partition(targetTps, tpsLimitPerGenerator);
      forall i :: 0 <= i < |r| ==> 1 <= r[i] <= tpsLimitPerGenerator
  {
    NumGeneratorsBounds(targetTps, tpsLimitPerGenerator);
    var L := tpsLimitPerGenerator;
    var n := NumGenerators(targetTps, L);
    QuotientWithinLimit(targetTps, n, L, BaseTps(targetTps, L), ExtraTps(targetTps, L));
  }

  /** For t == b * n + e with 0 <= e < n <= t <= n * L: the quotient b is
      at least one, at most L, and below L when there is a remainder. */
  lemma QuotientWithinLimit(t: nat, n: nat, L: nat, b: nat, e: nat)
    requires 0 < n <= t <= n * L
    requires t == b * n + e && e < n
    ensures 1 <= b <= L
    ensures e > 0 ==> b < L
  {
    if b > L {
      MulMonotone(L + 1, b, n);
    }
  }

  lemma MulMonotone(a: nat, b: nat, n: nat)
    requires a <= b
    ensures a * n <= b * n
  {
  }

  /** `Partition` is the only way to give `NumGenerators` generators a
      non-decreasing list of rates, no two more than one apart, that adds
      up to the target: whatever meets those demands puts the extra units
      on the trailing generators exactly as the harness does. */
  lemma PartitionUnique(targetTps: nat, tpsLimitPerGenerator: nat, s: seq<nat>)
    requires targetTps > 0 && tpsLimitPerGenerator > 0
    requires |s| == NumGenerators(targetTps, tpsLimitPerGenerator)
    requires Sum(s) == targetTps
    requires forall i, j :: 0 <= i <= j < |s| ==> s[i] <= s[j] <= s[i] + 1
    ensures s == Partition(targetTps, tpsLimitPerGenerator)
  {
    NumGeneratorsBounds(targetTps, tpsLimitPerGenerator);
    var n := |s|;
    var m := s[0];
    var j := 1;
    while j < n && s[j] == m
      invariant 1 <= j <= n
      invariant forall i :: 0 <= i < j ==> s[i] == m
    {
      j := j + 1;
    }
    assert s == Repeat(m, j) + Repeat(m + 1, n - j);
    assert targetTps == m * n + (n - j) by {
      SumConcat(Repeat(m, j), Repeat(m + 1, n - j));
      SumRepeat(m, j);
      SumRepeat(m + 1, n - j);
      SplitProduct(m, n, n - j);
    }
    DivUnique(targetTps, n, m, n - j);
  }

  /** Euclidean division has one quotient and one remainder. */
  lemma DivUnique(t: nat, n: nat, q: nat, r: nat)
    requires n > 0 && t == q * n + r && r < n
    ensures q == t / n && r == t % n
  {
    var q', r' := t / n, t % n;
    assert t == q' * n + r';
    if q < q' {
      MulMonotone(q + 1, q', n);
    } else if q' < q {
      MulMonotone(q' + 1, q, n);
    }
  }

  /** Concrete cases of the harness's arithmetic. */
  lemma PartitionExamples()
    ensures Partition(10000, 4000) == [3333, 3333, 3334]
    ensures Partition(12000, 4000) == [4000, 4000, 4000]
    ensures Partition(1, 4000) == [1]
    ensures Partition(4001, 4000) == [2000, 2001]
  {
    assert NumGenerators(10000, 4000) == 3;
    assert Partition(10000, 4000) == Repeat(3333, 2) + Repeat(3334, 1);
    assert NumGenerators(12000, 4000) == 3;
    assert Partition(12000, 4000) == Repeat(4000, 3) + Repeat(4001, 0);
    assert NumGenerators(1, 4000) == 1;
    assert Partition(1, 4000) == Repeat(1, 1) + Repeat(2, 0);
    assert NumGenerators(4001, 4000) == 2;
    assert Partition(4001, 4000) == Repeat(2000, 1) + Repeat(2001, 1);
  }

  /** The per-generator rates of one run of the harness. The scalar fields
      are fixed by the constructor; the list is grown by its loop. */
  class TpsTrxGensConfig {
    const targetTps: nat
    const tpsLimitPerGenerator: nat
    const numGenerators: nat
    const initialTpsPerGenerator: nat
    const modTps: nat
    const cleanlyDivisible: bool
    const incrementPoint: nat
    var targetTpsPerGenList: seq<nat>

    /** The fields agree with the arithmetic above and the list is the partition. */
    ghost predicate Valid()
      reads this
    {
      && targetTps > 0 && tpsLimitPerGenerator > 0
      && numGenerators == NumGenerators(targetTps, tpsLimitPerGenerator)
      && initialTpsPerGenerator == BaseTps(targetTps, tpsLimitPerGenerator)
      && modTps == ExtraTps(targetTps, tpsLimitPerGenerator)
      && cleanlyDivisible == (modTps == 0)
      && incrementPoint == IncrementPoint(targetTps, tpsLimitPerGenerator)
      && targetTpsPerGenList == Partition(targetTps, tpsLimitPerGenerator)
    }

    constructor (targetTps: nat, tpsLimitPerGenerator: nat)
      requires targetTps > 0 && tpsLimitPerGenerator > 0
      ensures this.targetTps == targetTps && this.tpsLimitPerGenerator == tpsLimitPerGenerator
      ensures Valid()
    {
      this.targetTps := targetTps;
      this.tpsLimitPerGenerator := tpsLimitPerGenerator;
      var n := NumGenerators(targetTps, tpsLimitPerGenerator);
      NumGeneratorsBounds(targetTps, tpsLimitPerGenerator);
      var modTps := targetTps % n;
      var cleanlyDivisible := modTps == 0;
      numGenerators := n;
      initialTpsPerGenerator := targetTps / n;
      this.modTps := modTps;
      this.cleanlyDivisible := cleanlyDivisible;
      incrementPoint := n + 1 - modTps;
      targetTpsPerGenList := [];
      new;
      var curTps := initialTpsPerGenerator;
      for num := 1 to numGenerators + 1
        invariant targetTpsPerGenList == Partition(targetTps, tpsLimitPerGenerator)[..num - 1]
        invariant curTps == if !cleanlyDivisible && num - 1 >= incrementPoint
                            then initialTpsPerGenerator + 1 else initialTpsPerGenerator
      {
        if !cleanlyDivisible && num == incrementPoint {
          curTps := curTps + 1;
        }
        targetTpsPerGenList := targetTpsPerGenList + [curTps];
      }
    }
  }
}
