/**
 The extreme-outlier injection on Annual_Income (app.py:39-41): eight distinct respondents,
 chosen without replacement, have their income multiplied in place by a factor drawn from
 `randint(2, 6)`, that is 2, 3, 4 or 5.
 */
module Income {
  import opened Sampling

  const OutlierCount: nat := 8
  const FactorLow: int := 2
  const FactorHigh: int := 5

  /** numpy's `a[idx] = a[idx] * f`: every right-hand value is read from the old array before
      anything is written, and a repeated index keeps its last write. */
  function Scaled(s: seq<int>, idx: seq<nat>, f: seq<int>): (r: seq<int>)
    requires |idx| == |f|
    requires forall k :: 0 <= k < |idx| ==> idx[k] < |s|
    ensures |r| == |s|
    decreases |idx|
  {
    if idx == [] then s
    else
      var n := |idx| - 1;
      Scaled(s, idx[..n], f[..n])[idx[n] := s[idx[n]] * f[n]]
  }

  /** With distinct indices, each chosen income is its old value times its own factor, and
      every other income is unchanged. */
  lemma {:induction false} ScaledAt(s: seq<int>, idx: seq<nat>, f: seq<int>)
    requires |idx| == |f| && Distinct(idx)
    requires forall k :: 0 <= k < |idx| ==> idx[k] < |s|
    ensures forall k :: 0 <= k < |idx| ==> Scaled(s, idx, f)[idx[k]] == s[idx[k]] * f[k]
    ensures forall j :: 0 <= j < |s| && j !in idx ==> Scaled(s, idx, f)[j] == s[j]
    decreases |idx|
  {
    if idx != [] {
      var n := |idx| - 1;
      var front, ff := idx[..n], f[..n];
      assert Distinct(front) by {
        forall a, b | 0 <= a < b < |front| ensures front[a] != front[b] {
          assert front[a] == idx[a] && front[b] == idx[b];
        }
      }
      ScaledAt(s, front, ff);
      var r := Scaled(s, idx, f);
      forall k | 0 <= k < |idx| ensures r[idx[k]] == s[idx[k]] * f[k] {
        if k < n {
          assert front[k] == idx[k] && ff[k] == f[k] && idx[k] != idx[n];
        }
      }
      forall j | 0 <= j < |s| && j !in idx ensures r[j] == s[j] {
        assert j != idx[n];
      }
    }
  }

  /** When every income is positive and every factor is at least 2, exactly the chosen
      indices change, and each changed income lies between 2 and 5 times its old value. */
  lemma ExactlyTheChosenChange(s: seq<int>, idx: seq<nat>, f: seq<int>)
    requires |idx| == |f| && Distinct(idx)
    requires forall k :: 0 <= k < |idx| ==> idx[k] < |s|
    requires forall j :: 0 <= j < |s| ==> s[j] > 0
    requires forall k :: 0 <= k < |f| ==> FactorLow <= f[k] <= FactorHigh
    ensures forall j :: 0 <= j < |s| ==> (Scaled(s, idx, f)[j] != s[j] <==> j in idx)
    ensures forall k :: 0 <= k < |idx| ==>
      2 * s[idx[k]] <= Scaled(s, idx, f)[idx[k]] <= 5 * s[idx[k]]
  {
    ScaledAt(s, idx, f);
    var r := Scaled(s, idx, f);
    forall k | 0 <= k < |idx| ensures 2 * s[idx[k]] <= r[idx[k]] <= 5 * s[idx[k]] && r[idx[k]] != s[idx[k]] {
      ScaleByFactor(s[idx[k]], f[k]);
    }
    forall j | 0 <= j < |s| && j in idx ensures r[j] != s[j] {
      var k :| 0 <= k < |idx| && idx[k] == j;
    }
  }

  lemma ScaleByFactor(v: int, m: int)
    requires v > 0 && FactorLow <= m <= FactorHigh
    ensures 2 * v <= v * m <= 5 * v && v * m != v
  {
    assert m == 2 || m == 3 || m == 4 || m == 5;
  }

  /** Every choice of 8 distinct respondents is the outlier choice of some picks. */
  lemma AnyOutliers(n: nat, t: seq<nat>)
    requires |t| == OutlierCount && Distinct(t)
    requires forall k :: 0 <= k < |t| ==> t[k] < n
    ensures Choice(n, OutlierCount, Uniform, Stream(PicksFor(Pool(Uniform, n), t))) == Ok(t)
  {
    ChoiceReaches(n, Uniform, t);
  }

  /** The indices chosen and the factors drawn by one injection. */
  datatype Injection = Injection(indices: seq<nat>, factors: seq<int>)

  /** `randint(2, 6, size=8)` from the factor draws. */
  function Factors(factorDraws: nat -> nat): (f: seq<int>)
    ensures |f| == OutlierCount
    ensures forall k :: 0 <= k < |f| ==> FactorLow <= f[k] <= FactorHigh
  {
    var f := seq(OutlierCount, k requires 0 <= k => Count(FactorLow, FactorHigh, factorDraws(k)));
    assert forall k :: 0 <= k < |f| ==> f[k] == Count(FactorLow, FactorHigh, factorDraws(k));
    f
  }

  /** Lines 40-41: choose 8 distinct respondents (numpy raises when there are fewer than 8)
      and scale their incomes in place. */
  method InjectOutliers(incomes: array<int>, picks: nat -> nat, factorDraws: nat -> nat)
    returns (outcome: Result<Injection>)
    modifies incomes
    ensures outcome.Err? <==> incomes.Length < OutlierCount
    ensures outcome.Err? ==> incomes[..] == old(incomes[..])
    ensures outcome.Ok? ==>
      var inj := outcome.value;
      && |inj.indices| == OutlierCount && Distinct(inj.indices)
      && (forall k :: 0 <= k < OutlierCount ==> inj.indices[k] < incomes.Length)
      && inj.indices == Choice(incomes.Length, OutlierCount, Uniform, picks).value
      && inj.factors == Factors(factorDraws)
      && incomes[..] == Scaled(old(incomes[..]), inj.indices, inj.factors)
  {
    var chosen := Choice(incomes.Length, OutlierCount, Uniform, picks);
    if chosen.Err? {
      return Err(chosen.error);
    }
    var idx := chosen.value;
    var f := Factors(factorDraws);
    ScaleInPlace(incomes, idx, f);
    outcome := Ok(Injection(idx, f));
  }

  /** The assignment `a[idx] = a[idx] * f` of line 41 on an array. */
  method ScaleInPlace(incomes: array<int>, idx: seq<nat>, f: seq<int>)
    requires |idx| == |f|
    requires forall k :: 0 <= k < |idx| ==> idx[k] < incomes.Length
    modifies incomes
    ensures incomes[..] == Scaled(old(incomes[..]), idx, f)
  {
    var before := incomes[..];
    // the right-hand side `incomes[outlier_indices] * factors`, gathered before any write
    var scaled := seq(|idx|, k requires 0 <= k < |idx| => before[idx[k]] * f[k]);
    for k := 0 to |idx|
      invariant incomes[..] == Scaled(before, idx[..k], f[..k])
    {
      assert idx[..k + 1][..k] == idx[..k] && f[..k + 1][..k] == f[..k];
      incomes[idx[k]] := scaled[k];
    }
    assert idx[..|idx|] == idx && f[..|f|] == f;
  }

  /** Lines 37-41 on a column of incomes: the column goes into a fresh array, which the
      injection updates in place. */
  method WithOutliers(base: seq<int>, picks: nat -> nat, factorDraws: nat -> nat)
    returns (outcome: Result<Injection>, incomes: seq<int>)
    ensures outcome.Err? <==> |base| < OutlierCount
    ensures outcome.Err? ==> incomes == base
    ensures outcome.Ok? ==>
      var inj := outcome.value;
      && |inj.indices| == OutlierCount && Distinct(inj.indices)
      && (forall k :: 0 <= k < OutlierCount ==> inj.indices[k] < |base|)
      && inj.indices == Choice(|base|, OutlierCount, Uniform, picks).value
      && inj.factors == Factors(factorDraws)
      && incomes == Scaled(base, inj.indices, inj.factors)
  {
    var column := new int[|base|](i requires 0 <= i < |base| => base[i]);
    assert column[..] == base;
    outcome := InjectOutliers(column, picks, factorDraws);
    incomes := column[..];
  }
}
