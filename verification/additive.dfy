/** The additive congruential generator and the exact, integer part of the
    serial-pair (autocorrelation) chi-square test of exam/answer3.py. */
module Additive {
  import opened PySemantics

  /** Python's `max(count, 0)`: the number of iterations of `range(count)`. */
  function Iterations(count: int): nat
  {
    if count <= 0 then 0 else count
  }

  /** The j-th value (from 0) produced from seed r0: r0 + (j + 1) * b,
      reduced modulo m. */
  function Term(b: int, m: int, r0: int, j: nat): int
    requires m != 0
  {
    Mod(r0 + (j + 1) * b, m)
  }

  /** Each value is its predecessor plus b, reduced; the first is r0 + b
      reduced. */
  lemma TermStep(b: int, m: int, r0: int, j: nat)
    requires m != 0
    ensures Term(b, m, r0, 0) == Mod(r0 + b, m)
    ensures Term(b, m, r0, j + 1) == Mod(Term(b, m, r0, j) + b, m)
  {
    var x := r0 + (j + 1) * b;
    assert x + b == r0 + (j + 2) * b by {
      assert (j + 2) * b == (j + 1) * b + b;
    }
    ModAddLeft(x, b, m);
  }

  /** What `additive_congruential(b, m, r0, count)` returns: the `count`
      values r0 + b, r0 + 2b, ... each reduced modulo m, without r0 itself;
      a zero modulus raises as soon as the first value is computed. */
  function AdditiveSequence(b: int, m: int, r0: int, count: int): (r: Result<seq<int>>)
    ensures r.Raise? <==> count > 0 && m == 0
    ensures r.Raise? ==> r.exception == ZeroDivisionError
    ensures r.Ok? ==> |r.value| == Iterations(count)
    ensures r.Ok? && m > 0 ==> forall i :: 0 <= i < |r.value| ==> 0 <= r.value[i] < m
    ensures r.Ok? && m < 0 ==> forall i :: 0 <= i < |r.value| ==> m < r.value[i] <= 0
  {
    if count <= 0 then Ok([])
    else if m == 0 then Raise(ZeroDivisionError)
    else Ok(seq(count, j requires 0 <= j => Term(b, m, r0, j)))
  }

  /** The closed form is the recurrence of the loop: the first value is
      r0 + b reduced, and each later one is its predecessor plus b, reduced. */
  lemma AdditiveRecurrence(b: int, m: int, r0: int, count: int)
    requires AdditiveSequence(b, m, r0, count).Ok?
    ensures var s := AdditiveSequence(b, m, r0, count).value;
      (|s| > 0 ==> s[0] == Mod(r0 + b, m)) &&
      forall i :: 0 <= i < |s| - 1 ==> s[i + 1] == Mod(s[i] + b, m)
  {
    var s := AdditiveSequence(b, m, r0, count).value;
    if |s| > 0 {
      TermStep(b, m, r0, 0);
    }
    forall i | 0 <= i < |s| - 1
      ensures s[i + 1] == Mod(s[i] + b, m)
    {
      TermStep(b, m, r0, i);
    }
  }

  /** exam/answer3.py `additive_congruential` without its console output:
      the loop that adds b to the running value, reduces it and appends it. */
  method AdditiveCongruential(b: int, m: int, r0: int, count: int) returns (r: Result<seq<int>>)
    ensures r == AdditiveSequence(b, m, r0, count)
  {
    var sequence: seq<int> := [];
    var current := r0;
    var i := 0;
    while i < count
      invariant 0 <= i <= Iterations(count)
      invariant |sequence| == i
      invariant forall j :: 0 <= j < i ==> m != 0 && sequence[j] == Term(b, m, r0, j)
      invariant i == 0 ==> current == r0
      invariant i > 0 ==> m != 0 && current == Term(b, m, r0, i - 1)
    {
      if m == 0 {
        return Raise(ZeroDivisionError);
      }
      TermStep(b, m, r0, if i == 0 then 0 else i - 1);
      current := Mod(current + b, m);
      sequence := sequence + [current];
      i := i + 1;
    }
    if count > 0 {
      assert m != 0 && i == count;
      assert sequence == AdditiveSequence(b, m, r0, count).value;
    }
    return Ok(sequence);
  }

  /** The lagged pairs `list(zip(sequence[:-lag], sequence[lag:]))`, with
      Python's slicing: for 1 <= lag < n this pairs each element with the
      one lag places later, but `sequence[:-0]` is empty, so lag 0 gives no
      pairs, and a negative lag pairs a prefix with a suffix. */
  function LaggedPairs(sequence: seq<int>, lag: int): (pairs: seq<(int, int)>)
    ensures |pairs| <= |sequence|
    ensures lag == 0 || lag >= |sequence| ==> |pairs| == 0
    ensures 0 < lag < |sequence| ==> |pairs| == |sequence| - lag
    ensures lag < 0 ==> |pairs| == if -lag <= |sequence| then -lag else |sequence|
    ensures forall i :: 0 <= i < |pairs| ==>
      pairs[i] == (sequence[i], sequence[|sequence| - |pairs| + i])
  {
    Zip(Take(sequence, -lag), Drop(sequence, lag))
  }

  /** For the lags the test is meant for, there are n - lag pairs and pair i
      is (s[i], s[i + lag]). */
  lemma LaggedPairsShape(sequence: seq<int>, lag: int)
    requires 1 <= lag < |sequence|
    ensures |LaggedPairs(sequence, lag)| == |sequence| - lag
    ensures forall i :: 0 <= i < |sequence| - lag ==>
      LaggedPairs(sequence, lag)[i] == (sequence[i], sequence[i + lag])
  {
  }

  /** With lag 0 the guard lets the call through but the pair list is
      empty, so the counts are empty and df is -1. */
  lemma LagZeroHasNoPairs(sequence: seq<int>)
    requires |sequence| > 0
    ensures LaggedPairs(sequence, 0) == []
  {
  }

  /** How often p occurs in ps. */
  function Occurrences<P(==)>(ps: seq<P>, p: P): (k: nat)
    ensures k <= |ps|
    ensures k > 0 <==> p in ps
  {
    if ps == [] then 0
    else Occurrences(ps[..|ps| - 1], p) + (if ps[|ps| - 1] == p then 1 else 0)
  }

  /** The sum of the values of a finite map. */
  ghost function SumValues<K>(m: map<K, int>): int
    decreases |m|
  {
    if |m| == 0 then 0
    else
      var k :| k in m;
      m[k] + SumValues(m - {k})
  }

  /** Removing a present key shrinks a map by one. */
  lemma RemoveShrinks<K>(m: map<K, int>, k: K)
    requires k in m
    ensures |m - {k}| == |m| - 1
  {
    assert (m - {k}).Keys == m.Keys - {k};
  }

  /** SumValues does not depend on which key it takes first. */
  lemma {:induction false} SumValuesRemove<K>(m: map<K, int>, k: K)
    requires k in m
    ensures SumValues(m) == m[k] + SumValues(m - {k})
    decreases |m|, 1
  {
    var k' := ChosenKey(m);
    if k' != k {
      SwapRemovals(m, k, k');
    }
  }

  /** The key SumValues takes first, with the unfolding it gives. */
  lemma ChosenKey<K>(m: map<K, int>) returns (k': K)
    requires |m| != 0
    ensures k' in m && SumValues(m) == m[k'] + SumValues(m - {k'})
  {
    k' :| k' in m && SumValues(m) == m[k'] + SumValues(m - {k'});
  }

  /** Taking k' before k or k before k' gives the same sum. */
  lemma {:induction false} SwapRemovals<K>(m: map<K, int>, k: K, k': K)
    requires k in m && k' in m && k != k'
    requires SumValues(m) == m[k'] + SumValues(m - {k'})
    ensures SumValues(m) == m[k] + SumValues(m - {k})
    decreases |m|, 0
  {
    var m1, m2 := m - {k'}, m - {k};
    RemoveShrinks(m, k');
    RemoveShrinks(m, k);
    assert k in m1 && k' in m2;
    SumValuesRemove(m1, k);
    SumValuesRemove(m2, k');
    assert m1 - {k} == m2 - {k'};
  }

  /** Raising one count by one raises the sum by one; a new key with count
      one does the same. */
  lemma SumValuesIncrement<K>(m: map<K, int>, k: K)
    ensures k in m ==> SumValues(m[k := m[k] + 1]) == SumValues(m) + 1
    ensures k !in m ==> SumValues(m[k := 1]) == SumValues(m) + 1
  {
    if k in m {
      SumValuesRaise(m, k);
    } else {
      SumValuesInsert(m, k);
    }
  }

  /** Raising the count of a present key by one raises the sum by one. */
  lemma SumValuesRaise<K>(m: map<K, int>, k: K)
    requires k in m
    ensures SumValues(m[k := m[k] + 1]) == SumValues(m) + 1
  {
    var m' := m[k := m[k] + 1];
    var rest := m - {k};
    assert m' - {k} == rest;
    SumValuesRemove(m', k);
    SumValuesRemove(m, k);
  }

  /** A new key with count one raises the sum by one. */
  lemma SumValuesInsert<K>(m: map<K, int>, k: K)
    requires k !in m
    ensures SumValues(m[k := 1]) == SumValues(m) + 1
  {
    var m' := m[k := 1];
    assert m' - {k} == m;
    SumValuesRemove(m', k);
  }

  /** `pair_counts[pair] = pair_counts.get(pair, 0) + 1`. */
  function Tally(counts: map<(int, int), int>, pair: (int, int)): map<(int, int), int>
  {
    counts[pair := (if pair in counts then counts[pair] else 0) + 1]
  }

  /** What the counts are after the first i pairs have been tallied. */
  ghost predicate CountsOf(counts: map<(int, int), int>, pairs: seq<(int, int)>, i: nat)
    requires i <= |pairs|
  {
    && counts.Keys == (set j | 0 <= j < i :: pairs[j])
    && (forall p :: p in counts ==> counts[p] == Occurrences(pairs[..i], p))
    && SumValues(counts) == i
  }

  /** Tallying pair i extends the counts of the first i pairs to i + 1. */
  lemma TallyStep(counts: map<(int, int), int>, pairs: seq<(int, int)>, i: nat)
    requires i < |pairs| && CountsOf(counts, pairs, i)
    ensures CountsOf(Tally(counts, pairs[i]), pairs, i + 1)
  {
    TallyKeys(counts, pairs, i);
    TallyOccurrences(counts, pairs, i);
    SumValuesIncrement(counts, pairs[i]);
  }

  /** The keys after tallying pair i are the pairs among the first i + 1. */
  lemma TallyKeys(counts: map<(int, int), int>, pairs: seq<(int, int)>, i: nat)
    requires i < |pairs| && counts.Keys == (set j | 0 <= j < i :: pairs[j])
    ensures Tally(counts, pairs[i]).Keys == (set j | 0 <= j < i + 1 :: pairs[j])
  {
    var a := set j | 0 <= j < i + 1 :: pairs[j];
    var b := (set j | 0 <= j < i :: pairs[j]) + {pairs[i]};
    forall p | p in a ensures p in b {
      var j :| 0 <= j < i + 1 && pairs[j] == p;
      if j < i {
        assert p in (set j | 0 <= j < i :: pairs[j]);
      }
    }
    assert a == b;
  }

  /** The counts after tallying pair i are the occurrences among the first
      i + 1 pairs. */
  lemma TallyOccurrences(counts: map<(int, int), int>, pairs: seq<(int, int)>, i: nat)
    requires i < |pairs|
    requires counts.Keys == (set j | 0 <= j < i :: pairs[j])
    requires forall p :: p in counts ==> counts[p] == Occurrences(pairs[..i], p)
    ensures forall p :: p in Tally(counts, pairs[i]) ==>
      Tally(counts, pairs[i])[p] == Occurrences(pairs[..i + 1], p)
  {
    var pair := pairs[i];
    assert pairs[..i + 1][..i] == pairs[..i];
    forall p | p in Tally(counts, pair)
      ensures Tally(counts, pair)[p] == Occurrences(pairs[..i + 1], p)
    {
      if p != pair {
        assert p in counts;
      }
    }
  }

  /** The dictionary-building loop of `chi_square_autocorrelation_test`:
      every distinct pair becomes a key whose count is its number of
      occurrences, and the counts add up to the number of pairs. */
  method CountPairs(pairs: seq<(int, int)>) returns (counts: map<(int, int), int>)
    ensures counts.Keys == set i | 0 <= i < |pairs| :: pairs[i]
    ensures forall p :: p in counts ==> counts[p] == Occurrences(pairs, p) && counts[p] >= 1
    ensures SumValues(counts) == |pairs|
  {
    counts := map[];
    var i := 0;
    while i < |pairs|
      invariant 0 <= i <= |pairs|
      invariant CountsOf(counts, pairs, i)
    {
      TallyStep(counts, pairs, i);
      counts := Tally(counts, pairs[i]);
      i := i + 1;
    }
    assert pairs[..i] == pairs;
  }

  /** The integer results of the test before its floating-point statistic:
      the lagged pairs, their counts, and the degrees of freedom. */
  datatype PairTable = PairTable(pairs: seq<(int, int)>, pairCounts: map<(int, int), int>, df: int)

  /** The exact part of `chi_square_autocorrelation_test`: a lag not below
      the sequence length raises ValueError; otherwise the pairs are built
      and counted, the expected frequency divides by the squared number of
      distinct values, which raises ZeroDivisionError on an empty sequence
      (reachable with a negative lag), and df is one less than the number
      of distinct pairs. */
  method AutocorrelationCounts(sequence: seq<int>, lag: int) returns (r: Result<PairTable>)
    ensures r.Raise? <==> lag >= |sequence| || |sequence| == 0
    ensures r.Raise? ==> r.exception == if lag >= |sequence| then ValueError else ZeroDivisionError
    ensures r.Ok? ==> r.value.pairs == LaggedPairs(sequence, lag)
    ensures r.Ok? ==> r.value.pairCounts.Keys == set i | 0 <= i < |r.value.pairs| :: r.value.pairs[i]
    ensures r.Ok? ==> forall p :: p in r.value.pairCounts ==>
      r.value.pairCounts[p] == Occurrences(r.value.pairs, p) && r.value.pairCounts[p] >= 1
    ensures r.Ok? ==> SumValues(r.value.pairCounts) == |r.value.pairs|
    ensures r.Ok? ==> r.value.df == |r.value.pairCounts| - 1
  {
    var n := |sequence|;
    if lag >= n {
      return Raise(ValueError);
    }
    var pairs := LaggedPairs(sequence, lag);
    var pairCounts := CountPairs(pairs);
    // `len(set(sequence)) ** 2`, the divisor of the expected frequency,
    // is zero exactly when the sequence is empty.
    if n == 0 {
      return Raise(ZeroDivisionError);
    }
    var df := |pairCounts| - 1;
    return Ok(PairTable(pairs, pairCounts, df));
  }
}
