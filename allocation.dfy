/** Proportional allocation of a fixed pool with floor rounding: the arithmetic
    core of `distributeIncentives`. A charity with combined score `c` out of a
    total `T` receives `floor(pool * c / T)`; the remainder is not handed out. */
module Allocation {
  import opened Common

  /** The size of the incentive pool shared out on every round. */
  const IncentivePool: nat := 1000000

  /** The combined score of a charity: impact score times transparency score. */
  function Combined(impact: nat, transparency: nat): nat
  {
    impact * transparency
  }

  /** One charity's share: `pool * combined / total`, rounded down. */
  function Share(pool: nat, combined: nat, total: nat): nat
    requires total > 0
  {
    pool * combined / total
  }

  /** The share is the greatest `r` with `r * total <= pool * combined`. */
  lemma ShareBounds(pool: nat, combined: nat, total: nat)
    requires total > 0
    ensures Share(pool, combined, total) * total <= pool * combined
    ensures pool * combined < (Share(pool, combined, total) + 1) * total
  {
    FloorBounds(pool * combined, total);
  }

  /** The shares of every score in `scores` against a fixed `total`. */
  function SharesOver(pool: nat, scores: seq<nat>, total: nat): seq<nat>
    requires total > 0
  {
    seq(|scores|, i requires 0 <= i < |scores| => Share(pool, scores[i], total))
  }

  /** The allocation of a round: each score's share of the pool against the sum
      of all scores. */
  function Shares(pool: nat, scores: seq<nat>): seq<nat>
    requires Sum(scores) > 0
  {
    SharesOver(pool, scores, Sum(scores))
  }

  // Small facts of integer arithmetic, stated once so that the proofs below
  // never hand the solver more than one product at a time.

  lemma FloorBounds(x: nat, t: nat)
    requires t > 0
    ensures (x / t) * t <= x < (x / t + 1) * t
  {
  }

  lemma CancelPositive(a: int, b: int, t: int)
    requires t > 0 && a * t <= b * t
    ensures a <= b
  {
  }

  lemma CancelStrict(a: int, b: int, t: int)
    requires t > 0 && a * t < b * t
    ensures a < b
  {
  }

  lemma ScaleMonotone(a: nat, b: nat, k: nat)
    requires a <= b
    ensures k * a <= k * b
  {
  }

  lemma Distribute(a: int, b: int, k: int)
    ensures (a + b) * k == a * k + b * k
  {
  }

  /** A score that is part of the total never earns more than the pool. */
  lemma ShareAtMostPool(pool: nat, combined: nat, total: nat)
    requires 0 < total && combined <= total
    ensures Share(pool, combined, total) <= pool
  {
    var r := Share(pool, combined, total);
    ShareBounds(pool, combined, total);
    ScaleMonotone(combined, total, pool);
    assert r * total <= pool * total;
    CancelPositive(r, pool, total);
  }

  /** A larger combined score never earns a smaller share. */
  lemma ShareMonotone(pool: nat, c1: nat, c2: nat, total: nat)
    requires total > 0 && c1 <= c2
    ensures Share(pool, c1, total) <= Share(pool, c2, total)
  {
    var r1, r2 := Share(pool, c1, total), Share(pool, c2, total);
    ShareBounds(pool, c1, total);
    ShareBounds(pool, c2, total);
    ScaleMonotone(c1, c2, pool);
    assert r1 * total < (r2 + 1) * total;
    CancelStrict(r1, r2 + 1, total);
  }

  /** Summing the shares loses, against the exact quotient, at most `total - 1`
      per score and never gains. */
  lemma {:induction false} SharesOverSum(pool: nat, scores: seq<nat>, total: nat)
    requires total > 0
    ensures Sum(SharesOver(pool, scores, total)) * total <= pool * Sum(scores)
    ensures pool * Sum(scores) <= Sum(SharesOver(pool, scores, total)) * total + |scores| * (total - 1)
  {
    if scores != [] {
      var n := |scores|;
      var init := scores[..n - 1];
      var x := scores[n - 1];
      SharesOverSum(pool, init, total);
      var prefix := SharesOver(pool, init, total);
      var a := Share(pool, x, total);
      assert SharesOver(pool, scores, total) == prefix + [a];
      SumAppend(prefix, a);
      ShareBounds(pool, x, total);
      SumStep(pool, total, n, Sum(init), x, Sum(prefix), a);
    }
  }

  /** The induction step of `SharesOverSum`, on plain numbers: adding one score
      `x` and its share `a` to sums that satisfy the bounds keeps them. */
  lemma SumStep(pool: nat, total: nat, n: nat, sumInit: nat, x: nat, s0: nat, a: nat)
    requires total > 0 && n > 0
    requires s0 * total <= pool * sumInit
    requires pool * sumInit <= s0 * total + (n - 1) * (total - 1)
    requires a * total <= pool * x < (a + 1) * total
    ensures (s0 + a) * total <= pool * (sumInit + x)
    ensures pool * (sumInit + x) <= (s0 + a) * total + n * (total - 1)
  {
    Distribute(s0, a, total);
    Distribute(sumInit, x, pool);
    Distribute(n - 1, 1, total - 1);
  }

  /** Each charity's share of a round is at most the pool. */
  lemma EachShareAtMostPool(pool: nat, scores: seq<nat>, i: nat)
    requires Sum(scores) > 0 && i < |scores|
    ensures Shares(pool, scores)[i] <= pool
  {
    ElementAtMostSum(scores, i);
    ShareAtMostPool(pool, scores[i], Sum(scores));
  }

  /** The shares of a round add up to at most the pool. */
  lemma SharesSumAtMostPool(pool: nat, scores: seq<nat>)
    requires Sum(scores) > 0
    ensures Sum(Shares(pool, scores)) <= pool
  {
    SharesOverSum(pool, scores, Sum(scores));
    CancelPositive(Sum(Shares(pool, scores)), pool, Sum(scores));
  }

  /** Floor rounding leaves strictly less than one unit per charity undistributed. */
  lemma RoundingLossBelowCount(pool: nat, scores: seq<nat>)
    requires Sum(scores) > 0
    ensures pool < Sum(Shares(pool, scores)) + |scores|
  {
    SharesOverSum(pool, scores, Sum(scores));
    LossBound(pool, Sum(Shares(pool, scores)), |scores|, Sum(scores));
  }

  lemma LossBound(pool: nat, s: nat, n: nat, t: nat)
    requires t > 0 && n > 0
    requires pool * t <= s * t + n * (t - 1)
    ensures pool < s + n
  {
    assert n * (t - 1) == n * t - n;
    assert (s + n) * t == s * t + n * t;
    CancelStrict(pool, s + n, t);
  }

  /** The order of the shares follows the order of the scores, in both directions:
      a larger score never earns less, and a strictly larger share comes only
      from a strictly larger score. */
  lemma SharesFollowScores(pool: nat, scores: seq<nat>, i: nat, j: nat)
    requires Sum(scores) > 0 && i < |scores| && j < |scores|
    ensures scores[i] <= scores[j] ==> Shares(pool, scores)[i] <= Shares(pool, scores)[j]
    ensures Shares(pool, scores)[i] < Shares(pool, scores)[j] ==> scores[i] < scores[j]
  {
    if scores[i] <= scores[j] {
      ShareMonotone(pool, scores[i], scores[j], Sum(scores));
    } else {
      ShareMonotone(pool, scores[j], scores[i], Sum(scores));
    }
  }

  /** A charity whose combined score is the only positive one takes the whole pool. */
  lemma SoleScorerTakesPool(pool: nat, scores: seq<nat>, i: nat)
    requires i < |scores| && scores[i] > 0
    requires forall j :: 0 <= j < |scores| && j != i ==> scores[j] == 0
    ensures Sum(scores) > 0 && Shares(pool, scores)[i] == pool
  {
    SumOfSingleSupport(scores, i);
    var r := Share(pool, scores[i], scores[i]);
    ShareBounds(pool, scores[i], scores[i]);
    assert r * scores[i] <= pool * scores[i] < (r + 1) * scores[i];
    CancelPositive(r, pool, scores[i]);
    CancelStrict(pool, r + 1, scores[i]);
  }

  /** Impact scores 80 and 60 at transparency 100 split a pool of 1000000 as
      571428 and 428571. */
  lemma TwoCharitySplit()
    ensures Sum([Combined(80, 100), Combined(60, 100)]) == 14000
    ensures Shares(IncentivePool, [Combined(80, 100), Combined(60, 100)]) == [571428, 428571]
  {
    var s := [Combined(80, 100), Combined(60, 100)];
    assert s[..1] == [8000];
    assert [8000][..0] == [];
    assert Sum(s) == 14000;
  }
}
