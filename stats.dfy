/** Population statistics over sequences of reals: numpy's mean, var and the
    variance under std (ddof = 0), with the shift and scale laws the
    simulation relies on. */
module Stats {

  function Sum(s: seq<real>): real
  {
    if |s| == 0 then 0.0 else s[0] + Sum(s[1..])
  }

  function Mean(s: seq<real>): real
    requires |s| > 0
  {
    Sum(s) / (|s| as real)
  }

  /** Sum of the squared deviations of the elements of s from m. */
  function SumSq(s: seq<real>, m: real): (r: real)
    ensures r >= 0.0
  {
    if |s| == 0 then 0.0
    else
      var d := s[0] - m;
      SquareNonNegative(d);
      d * d + SumSq(s[1..], m)
  }

  lemma SquareNonNegative(x: real)
    ensures x * x >= 0.0
  {
    if x < 0.0 {
      assert x * x == (-x) * (-x);
    }
  }

  /** Moving a factor out of a quotient. */
  lemma MulDiv(a: real, b: real, n: real)
    requires n != 0.0
    ensures a * b / n == a * (b / n)
  {
    var q := b / n;
    assert b == q * n;
    assert a * b == (a * q) * n;
  }

  /** Population variance (numpy `var` with ddof = 0). */
  function Variance(s: seq<real>): (v: real)
    requires |s| > 0
    ensures v >= 0.0
  {
    SumSq(s, Mean(s)) / (|s| as real)
  }

  function Scale(s: seq<real>, c: real): (r: seq<real>)
    ensures |r| == |s| && forall i :: 0 <= i < |s| ==> r[i] == c * s[i]
  {
    seq(|s|, i requires 0 <= i < |s| => c * s[i])
  }

  function Shift(s: seq<real>, d: real): (r: seq<real>)
    ensures |r| == |s| && forall i :: 0 <= i < |s| ==> r[i] == s[i] + d
  {
    seq(|s|, i requires 0 <= i < |s| => s[i] + d)
  }

  /** s with its mean subtracted from every element (`v -= np.mean(v)`). */
  function Centre(s: seq<real>): (r: seq<real>)
    requires |s| > 0
    ensures |r| == |s|
  {
    Shift(s, -Mean(s))
  }

  lemma ScaleTail(s: seq<real>, c: real)
    requires |s| > 0
    ensures Scale(s, c)[1..] == Scale(s[1..], c)
  {
    forall i | 0 <= i < |s| - 1
      ensures Scale(s, c)[1..][i] == Scale(s[1..], c)[i]
    {
      assert s[1..][i] == s[i + 1];
    }
  }

  lemma {:induction false} SumShift(s: seq<real>, d: real)
    ensures Sum(Shift(s, d)) == Sum(s) + (|s| as real) * d
  {
    if |s| > 0 {
      assert Shift(s, d)[1..] == Shift(s[1..], d);
      SumShift(s[1..], d);
    }
  }

  lemma {:induction false} SumScale(s: seq<real>, c: real)
    ensures Sum(Scale(s, c)) == c * Sum(s)
  {
    if |s| > 0 {
      ScaleTail(s, c);
      SumScale(s[1..], c);
    }
  }

  lemma MeanShift(s: seq<real>, d: real)
    requires |s| > 0
    ensures Mean(Shift(s, d)) == Mean(s) + d
  {
    SumShift(s, d);
  }

  lemma MeanScale(s: seq<real>, c: real)
    requires |s| > 0
    ensures Mean(Scale(s, c)) == c * Mean(s)
  {
    SumScale(s, c);
  }

  lemma {:induction false} SumSqShift(s: seq<real>, m: real, d: real)
    ensures SumSq(Shift(s, d), m + d) == SumSq(s, m)
  {
    if |s| > 0 {
      assert Shift(s, d)[1..] == Shift(s[1..], d);
      SumSqShift(s[1..], m, d);
    }
  }

  lemma {:induction false} SumSqScale(s: seq<real>, m: real, c: real)
    ensures SumSq(Scale(s, c), c * m) == c * c * SumSq(s, m)
  {
    if |s| > 0 {
      SumSqScaleHead(s, m, c);
      SumSqScale(s[1..], m, c);
      Distribute(c * c, (s[0] - m) * (s[0] - m), SumSq(s[1..], m));
    }
  }

  lemma SumSqScaleHead(s: seq<real>, m: real, c: real)
    requires |s| > 0
    ensures SumSq(Scale(s, c), c * m)
         == c * c * ((s[0] - m) * (s[0] - m)) + SumSq(Scale(s[1..], c), c * m)
  {
    ScaleTail(s, c);
    ScaledSquare(c, s[0], m);
  }

  lemma Distribute(k: real, a: real, b: real)
    ensures k * a + k * b == k * (a + b)
  {
  }

  lemma ScaledSquare(c: real, x: real, m: real)
    ensures (c * x - c * m) * (c * x - c * m) == c * c * ((x - m) * (x - m))
  {
    assert c * x - c * m == c * (x - m);
  }

  /** Adding a constant to every element leaves the variance unchanged. */
  lemma VarianceShift(s: seq<real>, d: real)
    requires |s| > 0
    ensures Variance(Shift(s, d)) == Variance(s)
  {
    MeanShift(s, d);
    SumSqShift(s, Mean(s), d);
  }

  /** Multiplying every element by c multiplies the variance by c squared. */
  lemma VarianceScale(s: seq<real>, c: real)
    requires |s| > 0
    ensures Variance(Scale(s, c)) == c * c * Variance(s)
  {
    var mu, sc := Mean(s), Scale(s, c);
    MeanScale(s, c);
    SumSqScale(s, mu, c);
    var cm := c * mu;
    assert Mean(sc) == cm;
    assert SumSq(sc, cm) == c * c * SumSq(s, mu);
    assert SumSq(sc, Mean(sc)) == c * c * SumSq(s, mu);
    DivScaled(c * c, SumSq(sc, Mean(sc)), SumSq(s, mu), |s| as real);
  }

  lemma DivScaled(a: real, x: real, y: real, n: real)
    requires n != 0.0 && x == a * y
    ensures x / n == a * (y / n)
  {
    MulDiv(a, y, n);
  }

  /** Centring makes the elements sum to zero and keeps the variance. */
  lemma CentreStats(s: seq<real>)
    requires |s| > 0
    ensures Sum(Centre(s)) == 0.0 && Mean(Centre(s)) == 0.0
    ensures Variance(Centre(s)) == Variance(s)
  {
    SumShift(s, -Mean(s));
    VarianceShift(s, -Mean(s));
  }

  lemma {:induction false} SumConstant(s: seq<real>, x: real)
    requires forall i :: 0 <= i < |s| ==> s[i] == x
    ensures Sum(s) == (|s| as real) * x
  {
    if |s| > 0 {
      SumConstant(s[1..], x);
    }
  }

  lemma {:induction false} SumSqAtValue(s: seq<real>, x: real)
    requires forall i :: 0 <= i < |s| ==> s[i] == x
    ensures SumSq(s, x) == 0.0
  {
    if |s| > 0 {
      SumSqAtValue(s[1..], x);
    }
  }

  /** A constant sequence has that constant as its mean and no spread. */
  lemma ConstantStats(s: seq<real>, x: real)
    requires |s| > 0
    requires forall i :: 0 <= i < |s| ==> s[i] == x
    ensures Mean(s) == x && Variance(s) == 0.0
  {
    SumConstant(s, x);
    SumSqAtValue(s, x);
  }

  lemma {:induction false} SumNonNegative(s: seq<real>)
    requires forall i :: 0 <= i < |s| ==> s[i] >= 0.0
    ensures Sum(s) >= 0.0
  {
    if |s| > 0 {
      SumNonNegative(s[1..]);
    }
  }

  /** The mean of non-negative values is non-negative. */
  lemma MeanNonNegative(s: seq<real>)
    requires |s| > 0
    requires forall i :: 0 <= i < |s| ==> s[i] >= 0.0
    ensures Mean(s) >= 0.0
  {
    SumNonNegative(s);
  }

  /** The float routines the driver calls: np.mean (and np.average), np.var,
      and the square root behind `**0.5` and np.std, each a total map from
      its argument to its float result. */
  datatype Routines = Routines(mean: imap<seq<real>, real>, variance: imap<seq<real>, real>, sqrt: imap<real, real>)

  ghost predicate Total(r: Routines)
  {
    (forall s :: s in r.mean) && (forall s :: s in r.variance) && (forall x :: x in r.sqrt)
  }

  type Numerics = r: Routines | Total(r)
    ghost witness Routines(imap s: seq<real> | true :: 0.0, imap s: seq<real> | true :: 0.0, imap x: real | true :: 0.0)

  /** The routines compute the exact population statistics and the
      non-negative square root (which, as in IEEE 754, maps 0.0 to 0.0); the
      statistical laws below carry over to the driver under this assumption. */
  ghost predicate Exact(nm: Numerics)
  {
    (forall s :: |s| > 0 ==> nm.mean[s] == Mean(s))
    && (forall s :: |s| > 0 ==> nm.variance[s] == Variance(s))
    && (forall x :: x >= 0.0 ==> nm.sqrt[x] >= 0.0 && Square(nm.sqrt[x]) == x)
    && nm.sqrt[0.0] == 0.0
  }

  function Square(x: real): real
  {
    x * x
  }

  /** Under Exact, sqrt of a non-negative value squares back to it. */
  lemma SqrtSquare(nm: Numerics, x: real)
    requires Exact(nm) && x >= 0.0
    ensures Square(nm.sqrt[x]) == x
  {
  }

  /** np.mean. */
  function Avg(nm: Numerics, xs: seq<real>): real
  {
    nm.mean[xs]
  }

  /** np.std: the square root of np.var. */
  function Std(nm: Numerics, xs: seq<real>): real
  {
    var v := nm.variance[xs];
    nm.sqrt[v]
  }
}
