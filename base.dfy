/** Shared vocabulary: optional values, results carrying the reason for a
    failure (a Rust panic or an `Err`), bytes and sums of reals. */
module Base {

  datatype Option<T> = None | Some(value: T)

  datatype Result<T> = Ok(value: T) | Err(error: string)
  {
    predicate IsFailure() { Err? }

    function PropagateFailure<U>(): Result<U>
      requires Err?
    {
      Err(error)
    }

    function Extract(): T
      requires Ok?
    {
      value
    }
  }

  /** A result whose error is a value of E rather than a message. */
  datatype Outcome<T, E> = Success(value: T) | Failure(error: E)

  /** A `u8` of the source. */
  type Byte = x: int | 0 <= x < 256

  /** Largest value of Rust's `usize` on a 64-bit target. */
  const USIZE_MAX: int := 0xFFFF_FFFF_FFFF_FFFF

  function Min(a: int, b: int): int { if a <= b then a else b }

  function Max(a: int, b: int): int { if a <= b then b else a }

  /** A vector of n zeros with a single 1.0 at index k. */
  function OneHotVector(n: nat, k: nat): (r: seq<real>)
    requires k < n
    ensures |r| == n && r[k] == 1.0
    ensures forall j :: 0 <= j < n && j != k ==> r[j] == 0.0
  {
    seq(n, j => if j == k then 1.0 else 0.0)
  }

  /** Appending to a prefix, regrouped: the step of every loop that builds
      its output by `push` against a specification of the rest. */
  lemma {:induction false} AppendAssoc<T>(a: seq<T>, b: seq<T>, c: seq<T>)
    ensures (a + b) + c == a + (b + c)
  {
  }

  /** Left-to-right sum, the order of an iterator's `sum()` or `+=` loop. */
  function Sum(s: seq<real>): real
  {
    if |s| == 0 then 0.0 else Sum(s[..|s| - 1]) + s[|s| - 1]
  }

  lemma {:induction false} SumNonNegative(s: seq<real>)
    requires forall i :: 0 <= i < |s| ==> s[i] >= 0.0
    ensures Sum(s) >= 0.0
  {
    if |s| > 0 {
      SumNonNegative(s[..|s| - 1]);
    }
  }

  lemma {:induction false} SumZero(s: seq<real>)
    requires forall i :: 0 <= i < |s| ==> s[i] == 0.0
    ensures Sum(s) == 0.0
  {
    if |s| > 0 {
      SumZero(s[..|s| - 1]);
    }
  }

  lemma {:induction false} SumBounded(s: seq<real>, b: real)
    requires forall i :: 0 <= i < |s| ==> s[i] <= b
    ensures Sum(s) <= (|s| as real) * b
  {
    if |s| > 0 {
      SumBounded(s[..|s| - 1], b);
    }
  }

  /** The sum of a non-negative sequence is zero exactly when every term is. */
  lemma {:induction false} SumZeroIff(s: seq<real>)
    requires forall i :: 0 <= i < |s| ==> s[i] >= 0.0
    ensures Sum(s) == 0.0 <==> forall i :: 0 <= i < |s| ==> s[i] == 0.0
  {
    if |s| > 0 {
      SumZeroIff(s[..|s| - 1]);
      SumNonNegative(s[..|s| - 1]);
      if Sum(s) == 0.0 {
        assert forall i :: 0 <= i < |s| - 1 ==> s[..|s| - 1][i] == s[i];
      }
    }
  }

  /** Termwise comparison carries over to the sums. */
  lemma {:induction false} SumMonotone(a: seq<real>, b: seq<real>)
    requires |a| == |b| && forall i :: 0 <= i < |a| ==> a[i] <= b[i]
    ensures Sum(a) <= Sum(b)
  {
    if |a| > 0 {
      SumMonotone(a[..|a| - 1], b[..|b| - 1]);
    }
  }

  function Abs(x: real): (r: real)
    ensures r >= 0.0 && (r == x || r == -x)
  {
    if x < 0.0 then -x else x
  }

  // Small facts of real arithmetic that the solver does not find unaided.

  lemma {:induction false} PositiveProductOf(a: real, b: real, y: real)
    requires y == a * b && a > 0.0 && b > 0.0
    ensures y > 0.0
  {
    assert a * b > 0.0 * b;
  }

  lemma {:induction false} PositiveProduct(a: real, b: real)
    requires a > 0.0 && b > 0.0
    ensures a * b > 0.0
  {
    PositiveProductOf(a, b, a * b);
  }

  /** A square is non-negative, and zero only for zero. */
  lemma {:induction false} SquareOf(d: real, y: real)
    requires y == d * d
    ensures y >= 0.0
    ensures y == 0.0 <==> d == 0.0
  {
    if d > 0.0 {
      PositiveProductOf(d, d, y);
    } else if d < 0.0 {
      PositiveProductOf(-d, -d, y);
    }
  }

  lemma {:induction false} MulMonotone(a: real, b: real, c: real)
    requires a >= 0.0 && b <= c
    ensures a * b <= a * c
  {
    if a > 0.0 && b < c {
      PositiveProduct(a, c - b);
      assert a * (c - b) == a * c - a * b;
    }
  }

  lemma {:induction false} MulNonPositive(a: real, b: real)
    requires a >= 0.0 && b <= 0.0
    ensures a * b <= 0.0
  {
    if a > 0.0 && b < 0.0 {
      PositiveProduct(a, -b);
      assert a * (-b) == -(a * b);
    }
  }

  lemma {:induction false} DivMonotone(a: real, b: real, n: real)
    requires a <= b && n > 0.0
    ensures a / n <= b / n
  {
    assert 1.0 / n > 0.0;
    MulMonotone(1.0 / n, a, b);
    assert a / n == (1.0 / n) * a && b / n == (1.0 / n) * b;
  }

  lemma {:induction false} DivZeroIff(a: real, n: real)
    requires n > 0.0
    ensures a / n == 0.0 <==> a == 0.0
    ensures a >= 0.0 ==> a / n >= 0.0
  {
    assert (a / n) * n == a;
    if a / n > 0.0 {
      PositiveProduct(a / n, n);
    } else if a / n < 0.0 {
      PositiveProduct(-(a / n), n);
      assert -(a / n) * n == -a;
    }
  }
}
