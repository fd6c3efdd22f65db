/**
 The sampling calls whose outcome the generator depends on, with their random draws made
 explicit: numpy's `choice` without replacement (uniform or weighted), its error checks,
 `randint` for the item count, a single weighted `choice`, and the `multi_select` helper that
 combines them into one delimited cell (app.py:12-21).

 A draw is an arbitrary natural number. `randint(lo, hi)` yields `lo + draw % (hi - lo)`;
 choosing without replacement takes, for each pick draw d, the element at `d % |remaining|`
 of the pool that is still left. The lemmas below show that these outcomes are exactly the
 outcomes numpy can produce: every result is a sequence of distinct eligible indices of the
 requested length, and every such sequence is the result of some draw.
 */
module Sampling {
  import opened Strings

  datatype Option<T> = None | Some(value: T)

  /** The `ValueError`s of numpy's `randint` and `choice` that `multi_select` can reach,
      plus the one error of relative weights (nothing to normalise by). */
  datatype SampleError =
    | LowNotBelowHigh            // randint(low, high) with low >= high
    | EmptyPopulation            // samples requested from an empty population
    | SizeMismatch               // `a` and `p` differ in size
    | NegativeProbability        // some entry of `p` is negative
    | ProbabilitiesDoNotSumToOne // `p` does not sum to 1
    | LargerThanPopulation       // replace=False and more samples than the population
    | NegativeSize               // a negative number of samples
    | FewerNonZeroThanSize       // replace=False and fewer non-zero entries of `p` than samples
    | ZeroTotalWeight            // relative weights that sum to zero

  datatype Result<T> = Ok(value: T) | Err(error: SampleError)

  /** How the population is weighted: uniformly (`p=None`), by probabilities in hundredths
      that must sum to 100, or by relative weights that are normalised by their total. */
  datatype Weights = Uniform | Probabilities(p: seq<int>) | Relative(w: seq<int>)

  predicate Distinct<T(==)>(s: seq<T>) {
    forall i, j :: 0 <= i < j < |s| ==> s[i] != s[j]
  }

  function Sum(w: seq<int>): (total: int) {
    if w == [] then 0 else w[0] + Sum(w[1..])
  }

  predicate NonNegative(w: seq<int>) {
    forall i :: 0 <= i < |w| ==> w[i] >= 0
  }

  /** The population `0, 1, ..., n-1` of `choice(n)`. */
  function Range(n: nat): (r: seq<nat>)
    ensures |r| == n
    ensures forall i :: 0 <= i < n ==> r[i] == i
  {
    seq(n, i requires 0 <= i => i)
  }

  lemma RangeHas(n: nat)
    ensures forall i :: 0 <= i < n ==> i in Range(n)
  {
    forall i | 0 <= i < n ensures i in Range(n) {
      assert Range(n)[i] == i;
    }
  }

  /** The indices of the positive weights, in increasing order. */
  function Positive(w: seq<int>): (r: seq<nat>)
    ensures |r| <= |w|
    ensures forall k :: 0 <= k < |r| ==> r[k] < |w| && w[r[k]] > 0
    ensures forall j, k :: 0 <= j < k < |r| ==> r[j] < r[k]
  {
    if w == [] then []
    else
      var front := Positive(w[..|w| - 1]);
      front + (if w[|w| - 1] > 0 then [|w| - 1] else [])
  }

  /** Every index of positive weight is among `Positive(w)`. */
  lemma {:induction false} PositiveHas(w: seq<int>, i: nat)
    requires i < |w| && w[i] > 0
    ensures i in Positive(w)
    decreases |w|
  {
    var front := w[..|w| - 1];
    if i < |w| - 1 {
      assert front[i] == w[i];
      PositiveHas(front, i);
      assert Positive(w)[..|Positive(front)|] == Positive(front);
    } else {
      var r := Positive(w);
      assert r[|r| - 1] == i;
    }
  }

  /** When every weight is positive, every index is drawn from. */
  lemma {:induction false} PositiveAll(w: seq<int>)
    requires forall i :: 0 <= i < |w| ==> w[i] > 0
    ensures Positive(w) == Range(|w|)
    decreases |w|
  {
    if w != [] {
      var front := w[..|w| - 1];
      assert forall i :: 0 <= i < |front| ==> front[i] == w[i];
      PositiveAll(front);
      var n := |w|;
      assert Positive(w) == Positive(front) + [n - 1];
      var r := Range(n - 1) + [n - 1];
      assert |r| == n;
      assert forall i :: 0 <= i < n ==> r[i] == Range(n)[i];
      assert r == Range(n);
    }
  }

  /** The first configuration error numpy reports for these weights, if any. */
  function WeightsCheck(weights: Weights, popSize: nat): (e: Option<SampleError>) {
    match weights
    case Uniform => None
    case Probabilities(p) =>
      if |p| != popSize then Some(SizeMismatch)
      else if !NonNegative(p) then Some(NegativeProbability)
      else if Sum(p) != 100 then Some(ProbabilitiesDoNotSumToOne)
      else None
    case Relative(w) =>
      if |w| != popSize then Some(SizeMismatch)
      else if !NonNegative(w) then Some(NegativeProbability)
      else if Sum(w) == 0 then Some(ZeroTotalWeight)
      else None
  }

  predicate Accepted(weights: Weights, popSize: nat) {
    WeightsCheck(weights, popSize) == None
  }

  /** Index `i` has a chance of being drawn: every index does when sampling uniformly, only
      those of positive weight otherwise. */
  predicate Possible(weights: Weights, i: nat) {
    match weights
    case Uniform => true
    case Probabilities(p) => i < |p| && p[i] > 0
    case Relative(w) => i < |w| && w[i] > 0
  }

  /** The indices a draw without replacement chooses from. */
  function Pool(weights: Weights, popSize: nat): (r: seq<nat>)
    ensures Distinct(r)
    ensures Accepted(weights, popSize) ==>
      |r| <= popSize &&
      (forall k :: 0 <= k < |r| ==> r[k] < popSize && Possible(weights, r[k])) &&
      (forall i :: 0 <= i < popSize && Possible(weights, i) ==> i in r)
  {
    match weights
    case Uniform => RangeHas(popSize); Range(popSize)
    case Probabilities(p) => PositiveFacts(p); Positive(p)
    case Relative(w) => PositiveFacts(w); Positive(w)
  }

  lemma PositiveFacts(w: seq<int>)
    ensures Distinct(Positive(w))
    ensures forall i :: 0 <= i < |w| && w[i] > 0 ==> i in Positive(w)
  {
    forall i | 0 <= i < |w| && w[i] > 0 ensures i in Positive(w) {
      PositiveHas(w, i);
    }
  }

  function RemoveAt(s: seq<nat>, k: nat): (rest: seq<nat>)
    requires k < |s|
  {
    s[..k] + s[k + 1..]
  }

  lemma RemoveAtFacts(s: seq<nat>, k: nat)
    requires k < |s| && Distinct(s)
    ensures |RemoveAt(s, k)| == |s| - 1
    ensures Distinct(RemoveAt(s, k))
    ensures forall i :: 0 <= i < |RemoveAt(s, k)| ==> RemoveAt(s, k)[i] in s && RemoveAt(s, k)[i] != s[k]
  {
    var r := RemoveAt(s, k);
    assert forall i :: 0 <= i < |r| ==> r[i] == if i < k then s[i] else s[i + 1];
  }

  /** What is left after removing `s[k]` still holds every other element of `s`. */
  lemma RemoveAtKeeps(s: seq<nat>, k: nat, x: nat)
    requires k < |s| && x in s && x != s[k]
    ensures x in RemoveAt(s, k)
  {
    var r := RemoveAt(s, k);
    var i :| 0 <= i < |s| && s[i] == x;
    if i < k { assert r[i] == x; } else { assert r[i - 1] == x; }
  }

  /** Draws one element per pick without replacement: each pick chooses among what is left. */
  function DrawDistinct(pool: seq<nat>, picks: seq<nat>): (picked: seq<nat>)
    requires Distinct(pool) && |picks| <= |pool|
    ensures |picked| == |picks|
    ensures Distinct(picked)
    ensures forall k :: 0 <= k < |picked| ==> picked[k] in pool
    decreases |picks|
  {
    if picks == [] then []
    else
      var k := picks[0] % |pool|;
      RemoveAtFacts(pool, k);
      [pool[k]] + DrawDistinct(RemoveAt(pool, k), picks[1..])
  }

  function IndexOf(s: seq<nat>, x: nat): (i: nat)
    requires x in s
    ensures i < |s| && s[i] == x
  {
    if s[0] == x then 0 else 1 + IndexOf(s[1..], x)
  }

  /** The picks that make `DrawDistinct` choose `t`. */
  function PicksFor(pool: seq<nat>, t: seq<nat>): (picks: seq<nat>)
    requires Distinct(pool) && Distinct(t)
    requires forall k :: 0 <= k < |t| ==> t[k] in pool
    ensures |picks| == |t|
    decreases |t|
  {
    if t == [] then []
    else
      var k := IndexOf(pool, t[0]);
      RemoveAtFacts(pool, k);
      assert forall j :: 0 <= j < |t| - 1 ==> t[1..][j] == t[j + 1] && t[j + 1] != pool[k];
      forall j | 0 <= j < |t| - 1 ensures t[1..][j] in RemoveAt(pool, k) {
        RemoveAtKeeps(pool, k, t[j + 1]);
      }
      [k] + PicksFor(RemoveAt(pool, k), t[1..])
  }

  /** Every sequence of distinct pool elements is the outcome of some picks. */
  lemma {:induction false} DrawDistinctReaches(pool: seq<nat>, t: seq<nat>)
    requires Distinct(pool) && Distinct(t)
    requires forall k :: 0 <= k < |t| ==> t[k] in pool
    ensures |t| <= |pool|
    ensures DrawDistinct(pool, PicksFor(pool, t)) == t
    decreases |t|
  {
    if t != [] {
      var k := IndexOf(pool, t[0]);
      RestOfDraw(pool, t);
      PicksForStep(pool, t);
      var rest := RemoveAt(pool, k);
      DrawDistinctReaches(rest, t[1..]);
      var tailPicks := PicksFor(rest, t[1..]);
      DrawDistinctStep(pool, k, tailPicks);
      assert DrawDistinct(pool, PicksFor(pool, t)) == [t[0]] + t[1..];
      assert [t[0]] + t[1..] == t;
    }
  }

  /** The picks for `t` start with the position of its first element. */
  lemma PicksForStep(pool: seq<nat>, t: seq<nat>)
    requires Distinct(pool) && Distinct(t) && t != []
    requires forall k :: 0 <= k < |t| ==> t[k] in pool
    requires Distinct(t[1..])
    requires forall j :: 0 <= j < |t[1..]| ==> t[1..][j] in RemoveAt(pool, IndexOf(pool, t[0]))
    ensures Distinct(RemoveAt(pool, IndexOf(pool, t[0])))
    ensures PicksFor(pool, t) == [IndexOf(pool, t[0])] + PicksFor(RemoveAt(pool, IndexOf(pool, t[0])), t[1..])
  {
    RemoveAtFacts(pool, IndexOf(pool, t[0]));
  }

  /** One step of `DrawDistinct`: a first pick below the pool size chooses the item at that
      position, and the rest of the picks draw from what is left. */
  lemma DrawDistinctStep(pool: seq<nat>, k: nat, tail: seq<nat>)
    requires Distinct(pool) && k < |pool| && |tail| < |pool|
    ensures Distinct(RemoveAt(pool, k)) && |RemoveAt(pool, k)| == |pool| - 1
    ensures DrawDistinct(pool, [k] + tail) == [pool[k]] + DrawDistinct(RemoveAt(pool, k), tail)
  {
    RemoveAtFacts(pool, k);
    ModOfSmaller(k, |pool|);
    assert ([k] + tail)[0] == k && ([k] + tail)[1..] == tail;
  }

  /** Once the first element of `t` is drawn, the rest of `t` is distinct and still in the
      pool that is left. */
  lemma RestOfDraw(pool: seq<nat>, t: seq<nat>)
    requires Distinct(pool) && Distinct(t) && t != []
    requires forall k :: 0 <= k < |t| ==> t[k] in pool
    ensures Distinct(t[1..])
    ensures forall j :: 0 <= j < |t[1..]| ==> t[1..][j] in RemoveAt(pool, IndexOf(pool, t[0]))
  {
    var k := IndexOf(pool, t[0]);
    forall j | 0 <= j < |t[1..]| ensures t[1..][j] in RemoveAt(pool, k) {
      assert t[1..][j] == t[j + 1] && t[j + 1] != t[0];
      RemoveAtKeeps(pool, k, t[j + 1]);
    }
    forall i, j | 0 <= i < j < |t[1..]| ensures t[1..][i] != t[1..][j] {
      assert t[1..][i] == t[i + 1] && t[1..][j] == t[j + 1];
    }
  }

  lemma ModOfSmaller(k: nat, n: nat)
    requires k < n
    ensures k % n == k
  {
  }

  /** A finite list of draws continued by zeros. */
  function Stream(s: seq<nat>): (draws: nat -> nat) {
    (i: nat) => if i < |s| then s[i] else 0
  }

  /** `np.random.choice(popSize, size, replace=False, p)`: the indices drawn, or the error
      numpy raises, checked in numpy's order. */
  function Choice(popSize: nat, size: int, weights: Weights, picks: nat -> nat): (r: Result<seq<nat>>)
    ensures r.Ok? <==> Accepted(weights, popSize) && 0 <= size <= |Pool(weights, popSize)|
    ensures r.Ok? ==>
      |r.value| == size && Distinct(r.value) &&
      forall k :: 0 <= k < |r.value| ==> r.value[k] < popSize && Possible(weights, r.value[k])
  {
    if popSize == 0 && size != 0 then Err(EmptyPopulation)
    else match WeightsCheck(weights, popSize)
      case Some(e) => Err(e)
      case None =>
        if size > popSize then Err(LargerThanPopulation)
        else if size < 0 then Err(NegativeSize)
        else if |Pool(weights, popSize)| < size then Err(FewerNonZeroThanSize)
        else
          var pool := Pool(weights, popSize);
          var picked := DrawDistinct(pool, seq(size, i requires 0 <= i => picks(i)));
          assert forall k :: 0 <= k < |picked| ==> picked[k] in pool;
          Ok(picked)
  }

  /** The error `Choice` reports is the first that numpy checks for. */
  lemma ChoiceErrors(popSize: nat, size: int, weights: Weights, picks: nat -> nat)
    ensures popSize == 0 && size != 0 ==> Choice(popSize, size, weights, picks) == Err(EmptyPopulation)
    ensures (popSize > 0 || size == 0) && WeightsCheck(weights, popSize).Some? ==>
      Choice(popSize, size, weights, picks) == Err(WeightsCheck(weights, popSize).value)
    ensures (popSize > 0 || size == 0) && Accepted(weights, popSize) && size > popSize ==>
      Choice(popSize, size, weights, picks) == Err(LargerThanPopulation)
    ensures popSize > 0 && Accepted(weights, popSize) && size < 0 ==>
      Choice(popSize, size, weights, picks) == Err(NegativeSize)
    ensures Accepted(weights, popSize) && |Pool(weights, popSize)| < size <= popSize ==>
      Choice(popSize, size, weights, picks) == Err(FewerNonZeroThanSize)
  {
  }

  /** When the weights are accepted and the pool is large enough, `Choice` draws from the pool. */
  lemma ChoiceDraws(popSize: nat, size: nat, weights: Weights, picks: nat -> nat)
    requires Accepted(weights, popSize) && size <= |Pool(weights, popSize)|
    ensures Choice(popSize, size, weights, picks)
         == Ok(DrawDistinct(Pool(weights, popSize), seq(size, i requires 0 <= i => picks(i))))
  {
  }

  lemma StreamPrefix(ps: seq<nat>)
    ensures seq(|ps|, i requires 0 <= i => Stream(ps)(i)) == ps
  {
    var drawn := seq(|ps|, i requires 0 <= i => Stream(ps)(i));
    forall i | 0 <= i < |ps| ensures drawn[i] == ps[i] {
      assert Stream(ps)(i) == ps[i];
    }
  }

  /** Every sequence of distinct indices that each have a chance is an outcome of `Choice`. */
  lemma ChoiceReaches(popSize: nat, weights: Weights, t: seq<nat>)
    requires Accepted(weights, popSize) && Distinct(t)
    requires forall k :: 0 <= k < |t| ==> t[k] < popSize && Possible(weights, t[k])
    ensures Choice(popSize, |t|, weights, Stream(PicksFor(Pool(weights, popSize), t))) == Ok(t)
  {
    var pool := Pool(weights, popSize);
    assert forall k :: 0 <= k < |t| ==> t[k] in pool;
    DrawDistinctReaches(pool, t);
    var ps := PicksFor(pool, t);
    StreamPrefix(ps);
    ChoiceDraws(popSize, |t|, weights, Stream(ps));
  }

  /** The `max_items` of `multi_select`, defaulting to the number of options. */
  function MaxItems(options: seq<string>, maxItems: Option<int>): (hi: int) {
    if maxItems.Some? then maxItems.value else |options|
  }

  /** `np.random.randint(lo, hi + 1)`: a count between the bounds, both included. */
  function Count(lo: int, hi: int, draw: nat): (n: int)
    requires lo <= hi
    ensures lo <= n <= hi
  {
    lo + draw % (hi - lo + 1)
  }

  /** Every count between the bounds is drawn by some draw. */
  lemma CountReaches(lo: int, hi: int, n: int)
    requires lo <= n <= hi
    ensures Count(lo, hi, (n - lo) as nat) == n
  {
    ModOfSmaller((n - lo) as nat, hi - lo + 1);
  }

  /** The draws of one `multi_select` call: the count draw, then one draw per pick. */
  datatype SelectDraw = SelectDraw(count: nat, picks: nat -> nat)

  /** The option indices `multi_select` chooses, or the error it raises. */
  function SelectIndices(options: seq<string>, minItems: int, maxItems: Option<int>,
                         weights: Weights, draw: SelectDraw): (r: Result<seq<nat>>)
    ensures minItems > MaxItems(options, maxItems) ==> r == Err(LowNotBelowHigh)
    ensures r.Ok? ==>
      minItems <= |r.value| <= MaxItems(options, maxItems) && Distinct(r.value) &&
      forall k :: 0 <= k < |r.value| ==> r.value[k] < |options| && Possible(weights, r.value[k])
    ensures (Accepted(weights, |options|) &&
             0 <= minItems <= MaxItems(options, maxItems) <= |Pool(weights, |options|)|) ==> r.Ok?
  {
    var hi := MaxItems(options, maxItems);
    if minItems > hi then Err(LowNotBelowHigh)
    else Choice(|options|, Count(minItems, hi, draw.count), weights, draw.picks)
  }

  function Names(options: seq<string>, idx: seq<nat>): (names: seq<string>)
    requires forall k :: 0 <= k < |idx| ==> idx[k] < |options|
    ensures |names| == |idx|
  {
    seq(|idx|, k requires 0 <= k < |idx| => options[idx[k]])
  }

  /** `multi_select(options, min_items, max_items, p)`: the chosen options joined by ", ". */
  function MultiSelect(options: seq<string>, minItems: int, maxItems: Option<int>,
                       weights: Weights, draw: SelectDraw): (r: Result<string>)
    ensures r.Ok? <==> SelectIndices(options, minItems, maxItems, weights, draw).Ok?
  {
    match SelectIndices(options, minItems, maxItems, weights, draw)
    case Err(e) => Err(e)
    case Ok(idx) => Ok(Join(Names(options, idx), Delimiter))
  }

  /** Read back by splitting on ", ", a `multi_select` cell holds between `min_items` and
      `max_items` options, each one of `options`, which are distinct when the options are.
      (With no item chosen the cell is "", which splits into one empty part; hence
      `min_items >= 1`.) */
  lemma MultiSelectParts(options: seq<string>, minItems: int, maxItems: Option<int>,
                         weights: Weights, draw: SelectDraw)
    requires MultiSelect(options, minItems, maxItems, weights, draw).Ok?
    requires minItems >= 1
    requires forall k :: 0 <= k < |options| ==> CommaFree(options[k])
    ensures var parts := Split(MultiSelect(options, minItems, maxItems, weights, draw).value);
      && minItems <= |parts| <= MaxItems(options, maxItems)
      && (forall k :: 0 <= k < |parts| ==> parts[k] in options)
      && (Distinct(options) ==> Distinct(parts))
  {
    var idx := SelectIndices(options, minItems, maxItems, weights, draw).value;
    assert MultiSelect(options, minItems, maxItems, weights, draw).value == Join(Names(options, idx), Delimiter);
    NamesRead(options, idx);
  }

  /** The names of distinct option indices, joined and split again. */
  lemma NamesRead(options: seq<string>, idx: seq<nat>)
    requires |idx| >= 1
    requires forall k :: 0 <= k < |idx| ==> idx[k] < |options|
    requires forall k :: 0 <= k < |options| ==> CommaFree(options[k])
    ensures var parts := Split(Join(Names(options, idx), Delimiter));
      && parts == Names(options, idx)
      && (forall k :: 0 <= k < |parts| ==> parts[k] in options)
      && (Distinct(options) && Distinct(idx) ==> Distinct(parts))
  {
    var names := Names(options, idx);
    assert forall k :: 0 <= k < |names| ==> names[k] == options[idx[k]];
    SplitJoin(names);
  }

  /** Conversely, every choice of distinct options that have a chance, in a number between
      `min_items` and `max_items`, is the cell of some draw. */
  lemma MultiSelectReaches(options: seq<string>, minItems: int, maxItems: Option<int>,
                           weights: Weights, t: seq<nat>)
    requires Accepted(weights, |options|) && Distinct(t)
    requires minItems <= |t| <= MaxItems(options, maxItems)
    requires forall k :: 0 <= k < |t| ==> t[k] < |options| && Possible(weights, t[k])
    ensures var draw := SelectDraw((|t| - minItems) as nat,
                                   Stream(PicksFor(Pool(weights, |options|), t)));
      MultiSelect(options, minItems, maxItems, weights, draw) == Ok(Join(Names(options, t), Delimiter))
  {
    var picks := Stream(PicksFor(Pool(weights, |options|), t));
    ChoiceReaches(|options|, weights, t);
    SelectIndicesReaches(options, minItems, maxItems, weights, t, picks);
  }

  /** A count draw that gives `|t|` items, followed by picks that choose `t`, selects `t`. */
  lemma SelectIndicesReaches(options: seq<string>, minItems: int, maxItems: Option<int>,
                             weights: Weights, t: seq<nat>, picks: nat -> nat)
    requires minItems <= |t| <= MaxItems(options, maxItems)
    requires Choice(|options|, |t|, weights, picks) == Ok(t)
    ensures SelectIndices(options, minItems, maxItems, weights, SelectDraw((|t| - minItems) as nat, picks)) == Ok(t)
  {
    CountReaches(minItems, MaxItems(options, maxItems), |t|);
  }

  /** One weighted `np.random.choice(..., p=w)`: with `u` uniform below the total weight,
      the index whose share `[Sum(w[..i]), Sum(w[..i]) + w[i])` of the cumulative
      distribution contains `u` (numpy's `searchsorted(cdf, u, side='right')`). */
  function PickWeighted(w: seq<nat>, u: nat): (i: nat)
    requires u < Sum(w)
    ensures i < |w| && w[i] > 0
    ensures Sum(w[..i]) <= u < Sum(w[..i]) + w[i]
    decreases |w|
  {
    if u < w[0] then
      assert w[..0] == [];
      0
    else
      var j := PickWeighted(w[1..], u - w[0]);
      assert w[..j + 1] == [w[0]] + w[1..][..j];
      assert ([w[0]] + w[1..][..j])[1..] == w[1..][..j];
      j + 1
  }
}
