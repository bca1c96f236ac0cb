/**
 The numpy array arithmetic the estimator is built from, over exact reals:
 `np.sum` and `np.mean` of a sample, an array minus a scalar (`X - c`), an
 array minus an array (`y - p`), `v - p * u`, and the sums `np.sum(a ** 2)`
 and `np.sum(a * b)`, with the algebra the regression proofs rely on.

 The closed forms of sums over derived arrays are stated through small named
 functions (ShiftedSum, ShiftedSquares, CombinedSum, CombinedSquares, ...) of
 the underlying sums, so that each identity is proved once, by induction, and
 then used as a fact about those sums.
 */
module Statistics {

  /** `np.sum`: the sum of a sample, 0 for the empty one. */
  function Sum(s: seq<real>): real
  {
    if |s| == 0 then 0.0 else s[0] + Sum(s[1..])
  }

  /**
   `np.mean`: the arithmetic mean. numpy yields NaN for an empty sample; here it
   is 0. The estimator only uses a mean against the same (then empty) sample,
   so the choice is never observable.
   */
  function Mean(s: seq<real>): real
  {
    if |s| == 0 then 0.0 else Sum(s) / (|s| as real)
  }

  /** `d ** 2`. */
  function Square(d: real): real
  {
    d * d
  }

  /** A zero product has a zero factor. */
  lemma ProductZero(x: real, y: real)
    requires x * y == 0.0
    ensures x == 0.0 || y == 0.0
  {
  }

  /** A square is never negative, and is zero only at zero. */
  lemma SquareSign(d: real)
    ensures Square(d) >= 0.0
    ensures Square(d) == 0.0 <==> d == 0.0
  {
    if Square(d) == 0.0 {
      ProductZero(d, d);
    }
  }

  /** Every element of the sample is the same (vacuously so for an empty sample). */
  predicate AllEqual(s: seq<real>)
  {
    forall i, j :: 0 <= i < |s| && 0 <= j < |s| ==> s[i] == s[j]
  }

  /** `s - c`: the deviations of s from the scalar c. */
  function Shift(s: seq<real>, c: real): (d: seq<real>)
    ensures |d| == |s|
    ensures forall i :: 0 <= i < |s| ==> d[i] == s[i] - c
  {
    seq(|s|, i requires 0 <= i < |s| => s[i] - c)
  }

  /** `s - t` for two arrays of one length: the element-wise differences. */
  function Subtract(s: seq<real>, t: seq<real>): (d: seq<real>)
    requires |s| == |t|
    ensures |d| == |s|
    ensures forall i :: 0 <= i < |s| ==> d[i] == s[i] - t[i]
  {
    seq(|s|, i requires 0 <= i < |s| => s[i] - t[i])
  }

  /** `v - p * u` for two arrays of one length and a scalar p. */
  function ScaledDifference(v: seq<real>, u: seq<real>, p: real): (d: seq<real>)
    requires |v| == |u|
    ensures |d| == |v|
    ensures forall i :: 0 <= i < |v| ==> d[i] == v[i] - p * u[i]
  {
    seq(|v|, i requires 0 <= i < |v| => v[i] - p * u[i])
  }

  /** `np.sum(s ** 2)`. */
  function SumOfSquares(s: seq<real>): (r: real)
    ensures r >= 0.0
  {
    if |s| == 0 then 0.0 else SquareSign(s[0]); Square(s[0]) + SumOfSquares(s[1..])
  }

  /** `np.sum(s * t)` for two arrays of one length. */
  function SumOfProducts(s: seq<real>, t: seq<real>): real
    requires |s| == |t|
  {
    if |s| == 0 then 0.0 else s[0] * t[0] + SumOfProducts(s[1..], t[1..])
  }

  /** `(n + 1) * c`, distributed. */
  lemma SuccTimes(n: nat, c: real)
    ensures ((n + 1) as real) * c == (n as real) * c + c
  {
  }

  lemma ZeroTimes(x: real)
    ensures x * 0.0 == 0.0 && 0.0 * x == 0.0
  {
  }

  /** Dropping the first deviation. */
  lemma ShiftTail(s: seq<real>, c: real)
    requires |s| > 0
    ensures Shift(s, c)[1..] == Shift(s[1..], c)
  {
    var d, e := Shift(s, c)[1..], Shift(s[1..], c);
    forall i | 0 <= i < |e| ensures d[i] == e[i] {
      assert d[i] == s[i + 1] - c;
    }
  }

  /** Dropping the first element of `v - p * u`. */
  lemma ScaledDifferenceTail(v: seq<real>, u: seq<real>, p: real)
    requires |v| == |u| > 0
    ensures ScaledDifference(v, u, p)[1..] == ScaledDifference(v[1..], u[1..], p)
  {
    var d, e := ScaledDifference(v, u, p)[1..], ScaledDifference(v[1..], u[1..], p);
    forall i | 0 <= i < |e| ensures d[i] == e[i] {
      assert d[i] == v[i + 1] - p * u[i + 1];
    }
  }

  /** Multiplication distributes over addition. */
  lemma Distribute(k: real, x: real, y: real)
    ensures k * (x + y) == k * x + k * y
  {
  }

  /** `n` times the mean is the sum (both sides are 0 for an empty sample). */
  lemma CountTimesMean(s: seq<real>)
    ensures (|s| as real) * Mean(s) == Sum(s)
  {
    if |s| > 0 {
      var n := |s| as real;
      assert n * (Sum(s) / n) == Sum(s);
    }
  }

  /** A sample whose every element is c sums to `n * c`. */
  lemma {:induction false} SumOfConstant(s: seq<real>, c: real)
    requires forall i :: 0 <= i < |s| ==> s[i] == c
    ensures Sum(s) == (|s| as real) * c
  {
    if |s| > 0 {
      assert s[0] == c;
      SumOfConstant(s[1..], c);
      SuccTimes(|s[1..]|, c);
    }
  }

  /** A non-empty sample whose every element is c has mean c. */
  lemma MeanOfConstant(s: seq<real>, c: real)
    requires |s| > 0
    requires forall i :: 0 <= i < |s| ==> s[i] == c
    ensures Mean(s) == c
  {
    SumOfConstant(s, c);
    var n := |s| as real;
    assert n * c / n == c;
  }

  /** `Σa - n c` from the sum s1 = Σa of n elements: the value of `np.sum(a - c)`. */
  function ShiftedSum(s1: real, n: nat, c: real): real
  {
    s1 - (n as real) * c
  }

  /** The inductive step of SumOfShift, over the sums themselves. */
  lemma ShiftedSumStep(a0: real, d0: real, c: real, sd: real, sd': real, s1: real, s1': real, n: nat, m: nat)
    requires d0 == a0 - c && m == n + 1
    requires sd == d0 + sd' && s1 == a0 + s1'
    requires sd' == ShiftedSum(s1', n, c)
    ensures sd == ShiftedSum(s1, m, c)
  {
    SuccTimes(n, c);
  }

  /** `np.sum(a - c) = np.sum(a) - n c`. */
  lemma {:induction false} SumOfShift(a: seq<real>, c: real)
    ensures Sum(Shift(a, c)) == ShiftedSum(Sum(a), |a|, c)
  {
    var d := Shift(a, c);
    if |a| > 0 {
      assert d[0] == a[0] - c;
      ShiftTail(a, c);
      SumOfShift(a[1..], c);
      ShiftedSumStep(a[0], d[0], c, Sum(d), Sum(d[1..]), Sum(a), Sum(a[1..]), |a[1..]|, |a|);
    } else {
      ZeroTimes(c);
    }
  }

  /** A sample's deviations from its own mean cancel out. */
  lemma DeviationsFromMeanCancel(s: seq<real>)
    ensures Sum(Shift(s, Mean(s))) == 0.0
  {
    SumOfShift(s, Mean(s));
    CountTimesMean(s);
  }

  /** A sum of squares vanishes exactly when every element is zero. */
  lemma {:induction false} SumOfSquaresZero(s: seq<real>)
    ensures SumOfSquares(s) == 0.0 <==> forall i :: 0 <= i < |s| ==> s[i] == 0.0
  {
    if |s| > 0 {
      SumOfSquaresZero(s[1..]);
      SquareSign(s[0]);
      if forall i :: 0 <= i < |s| ==> s[i] == 0.0 {
        assert forall i :: 0 <= i < |s[1..]| ==> s[1..][i] == 0.0 by {
          forall i | 0 <= i < |s[1..]| ensures s[1..][i] == 0.0 {
            assert s[1..][i] == s[i + 1];
          }
        }
      }
    }
  }

  /** The squared deviation from the mean vanishes exactly for a constant sample. */
  lemma ZeroVarianceIffAllEqual(s: seq<real>)
    ensures SumOfSquares(Shift(s, Mean(s))) == 0.0 <==> AllEqual(s)
  {
    SumOfSquaresZero(Shift(s, Mean(s)));
    if |s| > 0 && AllEqual(s) {
      MeanOfConstant(s, s[0]);
    }
  }

  /** Squared differences vanish exactly when the two arrays agree. */
  lemma SquaredErrorZero(y: seq<real>, p: seq<real>)
    requires |y| == |p|
    ensures SumOfSquares(Subtract(y, p)) == 0.0 <==> y == p
  {
    SumOfSquaresZero(Subtract(y, p));
  }

  /** `a Σx + n c` from the sum s = Σx of n elements: the value of `np.sum(a * x + c)`. */
  function AffineSum(s: real, n: nat, a: real, c: real): real
  {
    a * s + (n as real) * c
  }

  /** The inductive step of SumOfAffine, over the sums themselves. */
  lemma AffineSumStep(x0: real, y0: real, a: real, c: real, sy: real, sy': real, sx: real, sx': real, n: nat, m: nat)
    requires y0 == a * x0 + c && m == n + 1
    requires sy == y0 + sy' && sx == x0 + sx'
    requires sy' == AffineSum(sx', n, a, c)
    ensures sy == AffineSum(sx, m, a, c)
  {
    SuccTimes(n, c);
    assert a * sx == a * x0 + a * sx';
  }

  /** Summing an affine image `y = a * x + c` of a sample. */
  lemma {:induction false} SumOfAffine(x: seq<real>, y: seq<real>, a: real, c: real)
    requires |x| == |y|
    requires forall i :: 0 <= i < |x| ==> y[i] == a * x[i] + c
    ensures Sum(y) == AffineSum(Sum(x), |x|, a, c)
  {
    if |x| > 0 {
      assert y[0] == a * x[0] + c;
      SumOfAffine(x[1..], y[1..], a, c);
      AffineSumStep(x[0], y[0], a, c, Sum(y), Sum(y[1..]), Sum(x), Sum(x[1..]), |x[1..]|, |x|);
    } else {
      ZeroTimes(a);
      ZeroTimes(c);
    }
  }

  /** Dividing an affine sum by the count. */
  lemma AffineMean(sy: real, sx: real, n: real, a: real, c: real)
    requires n > 0.0 && sy == a * sx + n * c
    ensures sy / n == a * (sx / n) + c
  {
  }

  /** The mean of an affine image is the affine image of the mean. */
  lemma MeanOfAffine(x: seq<real>, y: seq<real>, a: real, c: real)
    requires |x| == |y| > 0
    requires forall i :: 0 <= i < |x| ==> y[i] == a * x[i] + c
    ensures Mean(y) == a * Mean(x) + c
  {
    SumOfAffine(x, y, a, c);
    AffineMean(Sum(y), Sum(x), |x| as real, a, c);
  }

  /** `a * s`: every element scaled by a. */
  function Scale(s: seq<real>, a: real): (d: seq<real>)
    ensures |d| == |s|
    ensures forall i :: 0 <= i < |s| ==> d[i] == a * s[i]
  {
    seq(|s|, i requires 0 <= i < |s| => a * s[i])
  }

  /** Dropping the first element of `a * s`. */
  lemma ScaleTail(s: seq<real>, a: real)
    requires |s| > 0
    ensures Scale(s, a)[1..] == Scale(s[1..], a)
  {
    var d, e := Scale(s, a)[1..], Scale(s[1..], a);
    forall i | 0 <= i < |e| ensures d[i] == e[i] {
      assert d[i] == a * s[i + 1];
    }
  }

  /** Deviations of an affine image `y = a * x + c` are the scaled deviations of x. */
  lemma ShiftOfAffine(x: seq<real>, y: seq<real>, a: real, c: real, cx: real, cy: real)
    requires |x| == |y|
    requires forall i :: 0 <= i < |x| ==> y[i] == a * x[i] + c
    requires cy == a * cx + c
    ensures Shift(y, cy) == Scale(Shift(x, cx), a)
  {
    forall i | 0 <= i < |x| ensures Shift(y, cy)[i] == Scale(Shift(x, cx), a)[i] {
      assert a * (x[i] - cx) == a * x[i] - a * cx;
    }
  }

  /** `a s`: a sum s scaled by a, the value of `np.sum(u * (a * u))` for s = `np.sum(u ** 2)`. */
  function ScaledTotal(s: real, a: real): real
  {
    a * s
  }

  /** The inductive step of SumOfProductsScaled, over the sums themselves. */
  lemma ProductsScaledStep(u0: real, w0: real, a: real, t: real, t': real, s: real, s': real)
    requires w0 == a * u0
    requires t == u0 * w0 + t' && s == Square(u0) + s'
    requires t' == ScaledTotal(s', a)
    ensures t == ScaledTotal(s, a)
  {
    assert u0 * (a * u0) == a * Square(u0);
  }

  /** `np.sum(u * (a * u)) = a np.sum(u ** 2)`. */
  lemma {:induction false} SumOfProductsScaled(u: seq<real>, a: real)
    ensures SumOfProducts(u, Scale(u, a)) == ScaledTotal(SumOfSquares(u), a)
  {
    var w := Scale(u, a);
    if |u| > 0 {
      ScaleTail(u, a);
      var w' := Scale(u[1..], a);
      assert w[0] == a * u[0];
      assert SumOfProducts(u, w) == u[0] * w[0] + SumOfProducts(u[1..], w');
      assert SumOfSquares(u) == Square(u[0]) + SumOfSquares(u[1..]);
      SumOfProductsScaled(u[1..], a);
      ProductsScaledStep(u[0], w[0], a, SumOfProducts(u, w), SumOfProducts(u[1..], w'),
                         SumOfSquares(u), SumOfSquares(u[1..]));
    } else {
      assert SumOfProducts(u, w) == 0.0 && SumOfSquares(u) == 0.0;
      ZeroTimes(a);
    }
  }

  /** The inductive step of SumOfSquaresScaled, over the sums themselves. */
  lemma SquaresScaledStep(u0: real, w0: real, a: real, sw: real, sw': real, s: real, s': real)
    requires w0 == a * u0
    requires sw == Square(w0) + sw' && s == Square(u0) + s'
    requires sw' == ScaledTotal(s', Square(a))
    ensures sw == ScaledTotal(s, Square(a))
  {
    assert Square(a * u0) == Square(a) * Square(u0);
  }

  /** `np.sum((a * u) ** 2) = a² np.sum(u ** 2)`. */
  lemma {:induction false} SumOfSquaresScaled(u: seq<real>, a: real)
    ensures SumOfSquares(Scale(u, a)) == ScaledTotal(SumOfSquares(u), Square(a))
  {
    var w := Scale(u, a);
    if |u| > 0 {
      ScaleTail(u, a);
      var w' := Scale(u[1..], a);
      assert w[0] == a * u[0];
      assert SumOfSquares(w) == Square(w[0]) + SumOfSquares(w');
      assert SumOfSquares(u) == Square(u[0]) + SumOfSquares(u[1..]);
      SumOfSquaresScaled(u[1..], a);
      SquaresScaledStep(u[0], w[0], a, SumOfSquares(w), SumOfSquares(w'), SumOfSquares(u), SumOfSquares(u[1..]));
    } else {
      assert SumOfSquares(w) == 0.0 && SumOfSquares(u) == 0.0;
      ZeroTimes(Square(a));
    }
  }

  /**
   `Σa² - 2cΣa + n c²` from the sums s2 = Σa², s1 = Σa of n elements: the
   value of `np.sum((a - c) ** 2)`.
   */
  function ShiftedSquares(s2: real, s1: real, n: nat, c: real): real
  {
    s2 - 2.0 * c * s1 + (n as real) * Square(c)
  }

  /** The inductive step of SumOfSquaresOfShift, over the sums themselves. */
  lemma ShiftedSquaresStep(a0: real, d0: real, c: real, sd: real, sd': real, s2: real, s2': real,
                           s1: real, s1': real, n: nat, m: nat)
    requires d0 == a0 - c && m == n + 1
    requires sd == Square(d0) + sd' && s2 == Square(a0) + s2' && s1 == a0 + s1'
    requires sd' == ShiftedSquares(s2', s1', n, c)
    ensures sd == ShiftedSquares(s2, s1, m, c)
  {
    assert Square(a0 - c) == Square(a0) - 2.0 * c * a0 + Square(c);
    SuccTimes(n, Square(c));
    assert 2.0 * c * s1 == 2.0 * c * a0 + 2.0 * c * s1';
  }

  /** `np.sum((a - c) ** 2) = np.sum(a ** 2) - 2c np.sum(a) + n c²`. */
  lemma {:induction false} SumOfSquaresOfShift(a: seq<real>, c: real)
    ensures SumOfSquares(Shift(a, c)) == ShiftedSquares(SumOfSquares(a), Sum(a), |a|, c)
  {
    var d := Shift(a, c);
    if |a| > 0 {
      assert d[0] == a[0] - c;
      ShiftTail(a, c);
      SumOfSquaresOfShift(a[1..], c);
      ShiftedSquaresStep(a[0], d[0], c, SumOfSquares(d), SumOfSquares(d[1..]), SumOfSquares(a), SumOfSquares(a[1..]),
                         Sum(a), Sum(a[1..]), |a[1..]|, |a|);
    } else {
      ZeroTimes(2.0 * c);
      ZeroTimes(Square(c));
    }
  }

  /** `Σv - pΣu` from the sums sv = Σv, su = Σu: the value of `np.sum(v - p * u)`. */
  function CombinedSum(sv: real, su: real, p: real): real
  {
    sv - p * su
  }

  /** The inductive step of SumOfScaledDifference, over the sums themselves. */
  lemma CombinedSumStep(v0: real, u0: real, d0: real, p: real, sd: real, sd': real, sv: real, sv': real,
                        su: real, su': real)
    requires d0 == v0 - p * u0
    requires sd == d0 + sd' && sv == v0 + sv' && su == u0 + su'
    requires sd' == CombinedSum(sv', su', p)
    ensures sd == CombinedSum(sv, su, p)
  {
    assert p * su == p * u0 + p * su';
  }

  /** `np.sum(v - p * u) = np.sum(v) - p np.sum(u)`. */
  lemma {:induction false} SumOfScaledDifference(v: seq<real>, u: seq<real>, p: real)
    requires |v| == |u|
    ensures Sum(ScaledDifference(v, u, p)) == CombinedSum(Sum(v), Sum(u), p)
  {
    var d := ScaledDifference(v, u, p);
    if |v| > 0 {
      assert d[0] == v[0] - p * u[0];
      ScaledDifferenceTail(v, u, p);
      SumOfScaledDifference(v[1..], u[1..], p);
      CombinedSumStep(v[0], u[0], d[0], p, Sum(d), Sum(d[1..]), Sum(v), Sum(v[1..]), Sum(u), Sum(u[1..]));
    } else {
      ZeroTimes(p);
    }
  }

  /**
   `Σv² - 2pΣuv + p²Σu²` from the sums svv = Σv², suv = Σuv, suu = Σu²: the
   value of `np.sum((v - p * u) ** 2)`.
   */
  function CombinedSquares(svv: real, suv: real, suu: real, p: real): real
  {
    svv - 2.0 * p * suv + Square(p) * suu
  }

  /** `(v - p u)² = v² - 2p uv + p² u²`. */
  lemma SquareOfScaledDifference(v0: real, u0: real, p: real)
    ensures Square(v0 - p * u0) == Square(v0) - 2.0 * p * (u0 * v0) + Square(p) * Square(u0)
  {
  }

  /**
   Adding one term `x - k1 y + k2 z` to a sum of the form `a - k1 b + k2 c`
   adds x, y and z to a, b and c.
   */
  lemma QuadraticFormStep(k1: real, k2: real, x: real, y: real, z: real, t: real, sd: real, sd': real,
                          a: real, a': real, b: real, b': real, c: real, c': real)
    requires t == x - k1 * y + k2 * z
    requires sd == t + sd' && a == x + a' && b == y + b' && c == z + c'
    requires sd' == a' - k1 * b' + k2 * c'
    ensures sd == a - k1 * b + k2 * c
  {
    Distribute(k1, y, b');
    Distribute(k2, z, c');
  }

  /** The inductive step of SumOfSquaresOfScaledDifference, over the sums themselves. */
  lemma CombinedSquaresStep(v0: real, u0: real, d0: real, p: real, sd: real, sd': real, svv: real, svv': real,
                            suv: real, suv': real, suu: real, suu': real)
    requires d0 == v0 - p * u0
    requires sd == Square(d0) + sd' && svv == Square(v0) + svv' && suv == u0 * v0 + suv' && suu == Square(u0) + suu'
    requires sd' == CombinedSquares(svv', suv', suu', p)
    ensures sd == CombinedSquares(svv, suv, suu, p)
  {
    SquareOfScaledDifference(v0, u0, p);
    QuadraticFormStep(2.0 * p, Square(p), Square(v0), u0 * v0, Square(u0), Square(d0), sd, sd', svv, svv', suv, suv', suu, suu');
  }

  /** `np.sum((v - p * u) ** 2) = np.sum(v ** 2) - 2p np.sum(u * v) + p² np.sum(u ** 2)`. */
  lemma {:induction false} SumOfSquaresOfScaledDifference(v: seq<real>, u: seq<real>, p: real)
    requires |v| == |u|
    ensures SumOfSquares(ScaledDifference(v, u, p)) == CombinedSquares(SumOfSquares(v), SumOfProducts(u, v), SumOfSquares(u), p)
  {
    var d := ScaledDifference(v, u, p);
    if |v| > 0 {
      assert d[0] == v[0] - p * u[0];
      assert SumOfProducts(u, v) == u[0] * v[0] + SumOfProducts(u[1..], v[1..]);
      ScaledDifferenceTail(v, u, p);
      SumOfSquaresOfScaledDifference(v[1..], u[1..], p);
      CombinedSquaresStep(v[0], u[0], d[0], p, SumOfSquares(d), SumOfSquares(d[1..]), SumOfSquares(v), SumOfSquares(v[1..]),
                          SumOfProducts(u, v), SumOfProducts(u[1..], v[1..]), SumOfSquares(u), SumOfSquares(u[1..]));
    } else {
      ZeroTimes(2.0 * p);
      ZeroTimes(Square(p));
    }
  }

  /**
   `Σv² - 2pΣuv + p²Σu² + n c²`: the value of `np.sum((v - p * u - c) ** 2)`
   for n deviations u, v that each sum to zero.
   */
  function CentredSquares(svv: real, suv: real, suu: real, n: nat, p: real, c: real): real
  {
    CombinedSquares(svv, suv, suu, p) + (n as real) * Square(c)
  }

  /** SumOfSquaresAboutCentres over the sums themselves. */
  lemma CentredSquaresStep(sr: real, sd: real, td: real, tv: real, tu: real, n: nat,
                           svv: real, suv: real, suu: real, p: real, c: real)
    requires tv == 0.0 && tu == 0.0 && td == CombinedSum(tv, tu, p)
    requires sd == CombinedSquares(svv, suv, suu, p)
    requires sr == ShiftedSquares(sd, td, n, c)
    ensures sr == CentredSquares(svv, suv, suu, n, p, c)
  {
    ZeroTimes(p);
    ZeroTimes(2.0 * c);
  }

  /**
   For deviations u and v that each sum to zero, the squared residuals
   `v - p * u - c` of any line: `Σv² - 2pΣuv + p²Σu² + n c²`.
   */
  lemma SumOfSquaresAboutCentres(v: seq<real>, u: seq<real>, p: real, c: real)
    requires |v| == |u|
    requires Sum(u) == 0.0 && Sum(v) == 0.0
    ensures SumOfSquares(Shift(ScaledDifference(v, u, p), c))
            == CentredSquares(SumOfSquares(v), SumOfProducts(u, v), SumOfSquares(u), |v|, p, c)
  {
    var d := ScaledDifference(v, u, p);
    SumOfSquaresOfShift(d, c);
    SumOfSquaresOfScaledDifference(v, u, p);
    SumOfScaledDifference(v, u, p);
    CentredSquaresStep(SumOfSquares(Shift(d, c)), SumOfSquares(d), Sum(d), Sum(v), Sum(u), |v|,
                       SumOfSquares(v), SumOfProducts(u, v), SumOfSquares(u), p, c);
  }
}
