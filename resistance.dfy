/**
  The equivalent resistance of a list of resistors wired in series or in
  parallel (calculate_total_resistance, app.py:8-14).

  Values are exact reals: the source computes with IEEE-754 floats, whose
  rounding, infinities, NaN and overflow are not modelled; inputs involving
  them are outside the model. The circuit type is the string the form sends.
 */
module Resistance {

  const SERIES: string := "series"
  const PARALLEL: string := "parallel"

  /** The two ways calculate_total_resistance can raise instead of returning. */
  datatype Error =
    | InvalidCircuitType   // ValueError: the tag is neither "series" nor "parallel"
    | DivByZero            // ZeroDivisionError: 1 / 0 in the parallel branch

  datatype Result<T> = Ok(value: T) | Err(error: Error)

  /** Python's sum(): the values added up, starting from 0. */
  function Sum(xs: seq<real>): real
  {
    if xs == [] then 0.0 else xs[0] + Sum(xs[1..])
  }

  /** The resistors the parallel branch keeps: those that are not zero, in order. */
  function NonZero(rs: seq<real>): (nz: seq<real>)
    ensures |nz| <= |rs|
    ensures forall k :: 0 <= k < |nz| ==> nz[k] != 0.0
  {
    if rs == [] then []
    else if rs[0] != 0.0 then [rs[0]] + NonZero(rs[1..])
    else NonZero(rs[1..])
  }

  /** The generator `1 / r for r in rs if r != 0`, element by element. */
  function Reciprocals(rs: seq<real>): (q: seq<real>)
    ensures |q| <= |rs|
  {
    if rs == [] then []
    else if rs[0] != 0.0 then [1.0 / rs[0]] + Reciprocals(rs[1..])
    else Reciprocals(rs[1..])
  }

  /** The filter keeps exactly the non-zero values. */
  lemma {:induction false} NonZeroMembers(rs: seq<real>)
    ensures forall x :: x in NonZero(rs) <==> x in rs && x != 0.0
  {
    if rs != [] {
      NonZeroMembers(rs[1..]);
      assert rs == [rs[0]] + rs[1..];
    }
  }

  /** The generator yields, in order, the reciprocal of each non-zero resistor. */
  lemma {:induction false} ReciprocalsOfKept(rs: seq<real>)
    ensures |Reciprocals(rs)| == |NonZero(rs)|
    ensures forall k :: 0 <= k < |Reciprocals(rs)| ==> Reciprocals(rs)[k] == 1.0 / NonZero(rs)[k]
  {
    if rs != [] {
      ReciprocalsOfKept(rs[1..]);
    }
  }

  /** The sum of conductances that the parallel branch divides 1 by. */
  function ReciprocalSum(rs: seq<real>): real
  {
    Sum(Reciprocals(rs))
  }

  /** calculate_total_resistance(rs, circuitType). */
  function TotalResistance(rs: seq<real>, circuitType: string): (r: Result<real>)
    ensures r == Err(InvalidCircuitType) <==> circuitType != SERIES && circuitType != PARALLEL
    ensures r == Err(DivByZero) <==> circuitType == PARALLEL && ReciprocalSum(rs) == 0.0
    ensures r.Ok? && circuitType == PARALLEL ==> r.value * ReciprocalSum(rs) == 1.0
  {
    if circuitType == SERIES then
      Ok(Sum(rs))
    else if circuitType == PARALLEL then
      var s := ReciprocalSum(rs);
      if s == 0.0 then Err(DivByZero) else Ok(1.0 / s)
    else
      Err(InvalidCircuitType)
  }

  predicate NonNegative(rs: seq<real>)
  {
    forall i :: 0 <= i < |rs| ==> rs[i] >= 0.0
  }

  lemma {:induction false} SumAppend(a: seq<real>, b: seq<real>)
    ensures Sum(a + b) == Sum(a) + Sum(b)
  {
    if a == [] {
      assert a + b == b;
    } else {
      assert (a + b)[1..] == a[1..] + b;
      SumAppend(a[1..], b);
    }
  }

  // ---------------------------------------------------------------- series

  /** An empty series circuit has total 0, and every further resistor adds its value:
      together these pin the series total down to the sum of the inputs. */
  lemma SeriesAddsResistor(rs: seq<real>, r: real)
    ensures TotalResistance([], SERIES) == Ok(0.0)
    ensures TotalResistance(rs + [r], SERIES) == Ok(TotalResistance(rs, SERIES).value + r)
  {
    SumAppend(rs, [r]);
  }

  /** With non-negative resistors, the series total is at least each one of them. */
  lemma {:induction false} SeriesAtLeastEach(rs: seq<real>, i: int)
    requires NonNegative(rs)
    requires 0 <= i < |rs|
    ensures TotalResistance(rs, SERIES).Ok?
    ensures TotalResistance(rs, SERIES).value >= rs[i] >= 0.0
  {
    SumNonNegative(rs[1..]);
    if i > 0 {
      SeriesAtLeastEach(rs[1..], i - 1);
    }
  }

  lemma {:induction false} SumNonNegative(xs: seq<real>)
    requires NonNegative(xs)
    ensures Sum(xs) >= 0.0
  {
    if xs != [] {
      SumNonNegative(xs[1..]);
    }
  }

  // -------------------------------------------------------------- parallel

  /** The parallel branch only sees the non-zero resistors: dropping the zeros
      changes nothing, whatever the outcome. */
  lemma {:induction false} ParallelIgnoresZeros(rs: seq<real>)
    ensures TotalResistance(rs, PARALLEL) == TotalResistance(NonZero(rs), PARALLEL)
  {
    ReciprocalsOfNonZero(rs);
  }

  lemma {:induction false} ReciprocalsOfNonZero(rs: seq<real>)
    ensures Reciprocals(NonZero(rs)) == Reciprocals(rs)
  {
    if rs != [] {
      ReciprocalsOfNonZero(rs[1..]);
      if rs[0] != 0.0 {
        assert NonZero(rs) == [rs[0]] + NonZero(rs[1..]);
        assert (NonZero(rs))[1..] == NonZero(rs[1..]);
      }
    }
  }

  /** Adding a resistor in parallel adds its conductance 1/r to the reciprocal
      sum, except that a zero-valued resistor adds nothing at all. */
  lemma {:induction false} ParallelAddsResistor(rs: seq<real>, r: real)
    ensures ReciprocalSum([]) == 0.0
    ensures ReciprocalSum(rs + [r]) == ReciprocalSum(rs) + (if r == 0.0 then 0.0 else 1.0 / r)
  {
    ReciprocalsAppend(rs, [r]);
    SumAppend(Reciprocals(rs), Reciprocals([r]));
  }

  lemma {:induction false} ReciprocalsAppend(a: seq<real>, b: seq<real>)
    ensures Reciprocals(a + b) == Reciprocals(a) + Reciprocals(b)
  {
    if a == [] {
      assert a + b == b;
    } else {
      assert (a + b)[1..] == a[1..] + b;
      ReciprocalsAppend(a[1..], b);
    }
  }

  /** A zero-ohm resistor put in parallel leaves the total exactly as it was.
      Physically it shorts the circuit to 0; the source skips it instead. */
  lemma ParallelZeroResistorIgnored(rs: seq<real>)
    ensures TotalResistance(rs + [0.0], PARALLEL) == TotalResistance(rs, PARALLEL)
  {
    ParallelAddsResistor(rs, 0.0);
  }

  /** When every resistor is zero (or there are none) the parallel formula divides by zero. */
  lemma {:induction false} ParallelAllZero(rs: seq<real>)
    requires forall i :: 0 <= i < |rs| ==> rs[i] == 0.0
    ensures TotalResistance(rs, PARALLEL) == Err(DivByZero)
  {
    if rs != [] {
      ParallelAllZero(rs[1..]);
    }
  }

  /** For non-negative resistors, the parallel branch fails exactly when every resistor is zero. */
  lemma ParallelFailsIffAllZero(rs: seq<real>)
    requires NonNegative(rs)
    ensures TotalResistance(rs, PARALLEL) == Err(DivByZero) <==> forall i :: 0 <= i < |rs| ==> rs[i] == 0.0
  {
    if exists i :: 0 <= i < |rs| && rs[i] != 0.0 {
      var i :| 0 <= i < |rs| && rs[i] != 0.0;
      ReciprocalSumAtLeast(rs, i);
    } else {
      ParallelAllZero(rs);
    }
  }

  /** With non-negative resistors the reciprocal sum is at least 1/r for each non-zero r. */
  lemma {:induction false} ReciprocalSumAtLeast(rs: seq<real>, i: int)
    requires NonNegative(rs)
    requires 0 <= i < |rs| && rs[i] != 0.0
    ensures ReciprocalSum(rs) >= 1.0 / rs[i] > 0.0
  {
    ReciprocalSumNonNegative(rs[1..]);
    if i > 0 {
      ReciprocalSumAtLeast(rs[1..], i - 1);
    }
  }

  lemma {:induction false} ReciprocalSumNonNegative(rs: seq<real>)
    requires NonNegative(rs)
    ensures ReciprocalSum(rs) >= 0.0
  {
    if rs != [] {
      ReciprocalSumNonNegative(rs[1..]);
    }
  }

  /** With non-negative resistors, the parallel total is positive and no larger
      than any non-zero resistor. */
  lemma ParallelAtMostEach(rs: seq<real>, i: int)
    requires NonNegative(rs)
    requires 0 <= i < |rs| && rs[i] != 0.0
    ensures TotalResistance(rs, PARALLEL).Ok?
    ensures 0.0 < TotalResistance(rs, PARALLEL).value <= rs[i]
  {
    ReciprocalSumAtLeast(rs, i);
    InverseBelow(ReciprocalSum(rs), rs[i]);
  }

  /** If s >= 1/r for a positive r, then 1/s <= r. */
  lemma InverseBelow(s: real, r: real)
    requires r > 0.0 && s >= 1.0 / r
    ensures s > 0.0 && 0.0 < 1.0 / s <= r
  {
    var u := 1.0 / r;
    assert u * r == 1.0;
    assert s * r >= u * r by {
      assert (s - u) * r >= 0.0;
    }
    var t := 1.0 / s;
    assert t * s == 1.0;
    assert r - t == t * (s * r - 1.0);
  }

  /** A single non-zero resistor in parallel (zeros aside) yields itself. */
  lemma ParallelSingle(rs: seq<real>, r: real)
    requires NonZero(rs) == [r]
    ensures TotalResistance(rs, PARALLEL) == Ok(r)
  {
    ParallelIgnoresZeros(rs);
    assert r in NonZero(rs);
    NonZeroMembers(rs);
    assert Reciprocals([r]) == [1.0 / r];
    assert ReciprocalSum([r]) == 1.0 / r by {
      assert Sum([1.0 / r]) == 1.0 / r + Sum([]);
    }
    assert 1.0 / (1.0 / r) == r;
  }

  /** n resistors of the same value r. */
  function Copies(n: nat, r: real): (c: seq<real>)
    ensures |c| == n
    ensures forall i :: 0 <= i < n ==> c[i] == r
  {
    if n == 0 then [] else Copies(n - 1, r) + [r]
  }

  /** n equal non-zero resistors in parallel give r / n. */
  lemma ParallelEqual(n: nat, r: real)
    requires n >= 1 && r != 0.0
    ensures TotalResistance(Copies(n, r), PARALLEL) == Ok(r / n as real)
  {
    var s := ReciprocalSum(Copies(n, r));
    ReciprocalSumOfCopies(n, r);
    InverseOfMultiple(n as real, r);
    assert s != 0.0 && 1.0 / s == r / n as real;
  }

  /** 1 / (n * (1 / r)) == r / n. */
  lemma InverseOfMultiple(n: real, r: real)
    requires n >= 1.0 && r != 0.0
    ensures n * (1.0 / r) != 0.0
    ensures 1.0 / (n * (1.0 / r)) == r / n
  {
    var u := 1.0 / r;
    var w := r / n;
    assert u * r == 1.0;
    assert w * n == r;
    var s := n * u;
    assert s * w == u * (w * n);
    assert s * w == 1.0;
    assert (1.0 / s) * s == 1.0;
    assert (1.0 / s) * (s * w) == w;
  }

  lemma {:induction false} ReciprocalSumOfCopies(n: nat, r: real)
    requires r != 0.0
    ensures ReciprocalSum(Copies(n, r)) == (n as real) * (1.0 / r)
  {
    if n > 0 {
      var u := 1.0 / r;
      ReciprocalSumOfCopies(n - 1, r);
      ParallelAddsResistor(Copies(n - 1, r), r);
      assert ((n - 1) as real) * u + u == (n as real) * u;
    }
  }

  /** Worked cases of the calculator. */
  lemma Examples()
    ensures TotalResistance([10.0, 10.0], SERIES) == Ok(20.0)
    ensures TotalResistance([10.0, 20.0], SERIES) == Ok(30.0)
    ensures TotalResistance([10.0, 10.0], PARALLEL) == Ok(5.0)
    ensures TotalResistance([5.0], PARALLEL) == Ok(5.0)
    ensures TotalResistance([10.0], "short-circuit") == Err(InvalidCircuitType)
    ensures TotalResistance([], PARALLEL) == Err(DivByZero)
    // a shorted branch is skipped: 10 ohm, where the physical answer is 0
    ensures TotalResistance([0.0, 10.0], PARALLEL) == Ok(10.0)
  {
    ParallelEqual(2, 10.0);
    assert Copies(2, 10.0) == [10.0, 10.0];
    ParallelSingle([5.0], 5.0);
    ParallelSingle([0.0, 10.0], 10.0);
  }
}
