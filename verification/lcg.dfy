/** The linear congruential generator of exam/answer10.py: a stateful object
    that keeps its current value and the list of every value produced. */
module Lcg {
  import opened PySemantics

  /** One step of the recurrence: (a * x + c) mod m, with Python's `%`. */
  function Next(x: int, a: int, c: int, m: int): int
    requires m != 0
  {
    Mod(a * x + c, m)
  }

  /** The n values that follow x, each produced from the one before. */
  function Orbit(x: int, a: int, c: int, m: int, n: nat): (s: seq<int>)
    requires m != 0
    ensures |s| == n
    ensures n > 0 ==> s[0] == Next(x, a, c, m)
    ensures forall i :: 0 <= i < n - 1 ==> s[i + 1] == Next(s[i], a, c, m)
    ensures m > 0 ==> forall i :: 0 <= i < n ==> 0 <= s[i] < m
    ensures m < 0 ==> forall i :: 0 <= i < n ==> m < s[i] <= 0
    decreases n
  {
    if n == 0 then [] else [Next(x, a, c, m)] + Orbit(Next(x, a, c, m), a, c, m, n - 1)
  }

  /** The last of a non-empty list. */
  function Last(s: seq<int>): int
    requires |s| > 0
  {
    s[|s| - 1]
  }

  /** Producing one more value appends the successor of the last one. */
  lemma {:induction false} OrbitSnoc(x: int, a: int, c: int, m: int, n: nat)
    requires m != 0
    ensures Orbit(x, a, c, m, n + 1) == Orbit(x, a, c, m, n) + [Next(Last([x] + Orbit(x, a, c, m, n)), a, c, m)]
    decreases n
  {
    if n > 0 {
      var y := Next(x, a, c, m);
      OrbitSnoc(y, a, c, m, n - 1);
      assert Last([x] + Orbit(x, a, c, m, n)) == Last([y] + Orbit(y, a, c, m, n - 1));
    }
  }

  /** Producing n1 values and then n2 more from the last one is producing
      n1 + n2 values in one go: the stream continues, it does not restart. */
  lemma {:induction false} OrbitConcat(x: int, a: int, c: int, m: int, n1: nat, n2: nat)
    requires m != 0
    ensures Orbit(x, a, c, m, n1 + n2) ==
      Orbit(x, a, c, m, n1) + Orbit(Last([x] + Orbit(x, a, c, m, n1)), a, c, m, n2)
    decreases n1
  {
    if n1 > 0 {
      var y := Next(x, a, c, m);
      OrbitConcat(y, a, c, m, n1 - 1, n2);
      assert Last([x] + Orbit(x, a, c, m, n1)) == Last([y] + Orbit(y, a, c, m, n1 - 1));
    }
  }

  /** Every list the generator holds: its seed followed by values each
      produced from the one before. */
  ghost predicate IsChain(s: seq<int>, a: int, c: int, m: int)
  {
    && (m == 0 ==> |s| <= 1)
    && (m != 0 ==> forall i :: 0 <= i < |s| - 1 ==> s[i + 1] == Next(s[i], a, c, m))
  }

  /** The smallest element of a non-empty list (`np.min`). */
  function Min(s: seq<int>): (r: int)
    requires |s| > 0
    ensures r in s
    ensures forall i :: 0 <= i < |s| ==> r <= s[i]
  {
    if |s| == 1 then s[0]
    else
      var rest := Min(s[1..]);
      if s[0] <= rest then s[0] else rest
  }

  /** The largest element of a non-empty list (`np.max`). */
  function Max(s: seq<int>): (r: int)
    requires |s| > 0
    ensures r in s
    ensures forall i :: 0 <= i < |s| ==> s[i] <= r
  {
    if |s| == 1 then s[0]
    else
      var rest := Max(s[1..]);
      if s[0] >= rest then s[0] else rest
  }

  /** `max(count - 1, 0)`: how many values `generate(count)` appends. */
  function Appended(count: int): nat
  {
    if count <= 1 then 0 else count - 1
  }

  class LinearCongruentialGenerator {
    const seed: int
    const multiplier: int
    const increment: int
    const modulus: int
    var current: int
    var generatedNumbers: seq<int>

    /** The list starts at the seed, each later value follows from the one
        before, and `current` is the last value. */
    ghost predicate Valid()
      reads this
    {
      && |generatedNumbers| > 0
      && generatedNumbers[0] == seed
      && current == Last(generatedNumbers)
      && IsChain(generatedNumbers, multiplier, increment, modulus)
    }

    /** exam/answer10.py `__init__`: the seed is stored as it is, without
        reduction, as both the current value and the only list entry. */
    constructor (seed: int, multiplier: int, increment: int, modulus: int)
      ensures Valid()
      ensures this.seed == seed && this.multiplier == multiplier
      ensures this.increment == increment && this.modulus == modulus
      ensures current == seed && generatedNumbers == [seed]
    {
      this.seed := seed;
      this.multiplier := multiplier;
      this.increment := increment;
      this.modulus := modulus;
      current := seed;
      generatedNumbers := [seed];
    }

    /** exam/answer10.py `generate`: `count - 1` more values are produced
        from `current` and appended, and the whole list is returned. A zero
        modulus raises on the first of them, before anything changes. */
    method Generate(count: int) returns (r: Result<seq<int>>)
      requires Valid()
      modifies this
      ensures Valid()
      ensures r.Raise? <==> modulus == 0 && count >= 2
      ensures r.Raise? ==> r.exception == ZeroDivisionError
      ensures r.Raise? ==> current == old(current) && generatedNumbers == old(generatedNumbers)
      ensures r.Ok? ==> modulus != 0 || count < 2
      ensures r.Ok? && modulus != 0 ==>
        generatedNumbers == old(generatedNumbers) + Orbit(old(current), multiplier, increment, modulus, Appended(count))
      ensures r.Ok? && modulus == 0 ==> generatedNumbers == old(generatedNumbers)
      ensures r.Ok? ==> r.value == generatedNumbers
    {
      var k := 0;
      ghost var start := generatedNumbers;
      while k < count - 1
        invariant 0 <= k <= Appended(count)
        invariant Valid()
        invariant k > 0 ==> modulus != 0
        invariant modulus != 0 ==>
          generatedNumbers == start + Orbit(old(current), multiplier, increment, modulus, k)
        invariant modulus == 0 ==> generatedNumbers == start
      {
        if modulus == 0 {
          return Raise(ZeroDivisionError);
        }
        OrbitSnoc(old(current), multiplier, increment, modulus, k);
        assert Last([old(current)] + Orbit(old(current), multiplier, increment, modulus, k)) == current;
        current := Next(current, multiplier, increment, modulus);
        generatedNumbers := generatedNumbers + [current];
        k := k + 1;
      }
      return Ok(generatedNumbers);
    }

    /** The `min` and `max` entries of exam/answer10.py `calculate_statistics`:
        the extreme values of everything generated so far. */
    method Extremes() returns (minimum: int, maximum: int)
      requires Valid()
      ensures minimum in generatedNumbers && maximum in generatedNumbers
      ensures forall i :: 0 <= i < |generatedNumbers| ==>
        minimum <= generatedNumbers[i] <= maximum
    {
      minimum := Min(generatedNumbers);
      maximum := Max(generatedNumbers);
    }
  }

  /** Two `generate` calls on a fresh generator give the list a single call
      would give for the combined number of new values. */
  lemma GenerateTwice(seed: int, a: int, c: int, m: int, n1: nat, n2: nat)
    requires m != 0
    ensures var first := [seed] + Orbit(seed, a, c, m, n1);
      first + Orbit(Last(first), a, c, m, n2) == [seed] + Orbit(seed, a, c, m, n1 + n2)
  {
    OrbitConcat(seed, a, c, m, n1, n2);
  }
}
