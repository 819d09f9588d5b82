/** The few pieces of Python's built-in semantics that the generators and the
    pair test rely on: exceptions as values, the `%` operator (whose result
    takes the sign of the divisor, unlike Dafny's Euclidean `%`), sequence
    slicing with negative or out-of-range bounds, and `zip`. */
module PySemantics {

  /** The exceptions the modelled code can raise. */
  datatype Exception = ZeroDivisionError | ValueError

  /** A value, or the exception raised instead of producing it. */
  datatype Result<T> = Ok(value: T) | Raise(exception: Exception)

  /** Python's floor division `x // m`. */
  function FloorDiv(x: int, m: int): int
    requires m != 0
  {
    if m > 0 then x / m else (-x) / (-m)
  }

  /** Python's `x % m` for a non-zero divisor: the remainder of floor
      division, so it lies in [0, m) for m > 0 and in (m, 0] for m < 0. */
  function Mod(x: int, m: int): (r: int)
    requires m != 0
    ensures m > 0 ==> 0 <= r < m
    ensures m < 0 ==> m < r <= 0
  {
    if m > 0 then x % m else -((-x) % (-m))
  }

  /** Python's division identity: `x == m * (x // m) + x % m`. */
  lemma FloorDivMod(x: int, m: int)
    requires m != 0
    ensures x == m * FloorDiv(x, m) + Mod(x, m)
  {
    if m < 0 {
      assert -x == (-m) * ((-x) / (-m)) + (-x) % (-m);
    }
  }

  /** A positive multiple of m is at least m when m > 0. */
  lemma MulAtLeast(m: int, k: int)
    requires m > 0 && k >= 1
    ensures m * k >= m
  {
    assert m * k == m + m * (k - 1);
  }

  /** Floor division and remainder are unique: any decomposition of x into a
      multiple of m and a remainder in the range of Mod is that of Mod. */
  lemma {:induction false} ModUnique(x: int, m: int, q: int, r: int)
    requires m != 0
    requires x == m * q + r
    requires m > 0 ==> 0 <= r < m
    requires m < 0 ==> m < r <= 0
    ensures Mod(x, m) == r && FloorDiv(x, m) == q
  {
    var q', r' := FloorDiv(x, m), Mod(x, m);
    FloorDivMod(x, m);
    var d := q - q';
    assert m * d == r' - r by {
      assert m * q + r == m * q' + r';
      assert m * d == m * q - m * q';
    }
    if d != 0 {
      if m > 0 {
        if d > 0 {
          MulAtLeast(m, d);
        } else {
          assert m * (-d) == -(m * d);
          MulAtLeast(m, -d);
        }
      } else {
        if d > 0 {
          assert (-m) * d == -(m * d);
          MulAtLeast(-m, d);
        } else {
          assert (-m) * (-d) == m * d;
          MulAtLeast(-m, -d);
        }
      }
    }
  }

  /** Adding b after reducing gives the same remainder as adding b first. */
  lemma ModAddLeft(x: int, b: int, m: int)
    requires m != 0
    ensures Mod(Mod(x, m) + b, m) == Mod(x + b, m)
  {
    var q1, r1 := FloorDiv(x, m), Mod(x, m);
    var q2, r2 := FloorDiv(r1 + b, m), Mod(r1 + b, m);
    FloorDivMod(x, m);
    FloorDivMod(r1 + b, m);
    assert x + b == m * (q1 + q2) + r2 by {
      assert m * (q1 + q2) == m * q1 + m * q2;
    }
    ModUnique(x + b, m, q1 + q2, r2);
  }

  /** The normalised bound Python uses for `s[:k]` and `s[k:]` on a
      sequence of length n: negative k counts from the end, and the result
      is clamped to [0, n]. */
  function SliceBound(k: int, n: nat): (b: nat)
    ensures b <= n
    ensures 0 <= k <= n ==> b == k
    ensures -(n as int) <= k < 0 ==> b == n + k
    ensures k > n ==> b == n
    ensures k < -(n as int) ==> b == 0
  {
    if k < 0 then (if k + n < 0 then 0 else k + n)
    else if k > n then n
    else k
  }

  /** Python's `s[:k]`. */
  function Take<T>(s: seq<T>, k: int): seq<T>
  {
    s[..SliceBound(k, |s|)]
  }

  /** Python's `s[k:]`. */
  function Drop<T>(s: seq<T>, k: int): seq<T>
  {
    s[SliceBound(k, |s|)..]
  }

  /** Slicing at any bound, however out of range, splits a list into a
      prefix and a suffix that together give it back: `s[:k] + s[k:] == s`. */
  lemma TakeDrop<T>(s: seq<T>, k: int)
    ensures Take(s, k) + Drop(s, k) == s
  {
  }

  /** Python's `list(zip(a, b))`: pairs up to the shorter length. */
  function Zip<A, B>(a: seq<A>, b: seq<B>): (r: seq<(A, B)>)
    ensures |r| == if |a| <= |b| then |a| else |b|
    ensures forall i :: 0 <= i < |r| ==> r[i] == (a[i], b[i])
  {
    if |a| == 0 || |b| == 0 then [] else [(a[0], b[0])] + Zip(a[1..], b[1..])
  }
}
