/** Initial configuration: particles on the centres of a cubic grid of cells
    filling the box (llenar_pos), and a velocity draw re-centred to zero total
    momentum (llenar_vel). */
module Setup {
  import opened Stats
  import opened Layout

  function Cube(a: int): int
  {
    a * a * a
  }

  /** `int(N ** (1/3))` as floating point delivers it: the floor of the cube
      root, or one less when N is a perfect cube that the float root
      undershoots (int(64 ** (1/3)) == 3). */
  predicate IsTruncatedCubeRoot(n: nat, c: int)
  {
    0 <= c && (Cube(c) <= n < Cube(c + 1) || Cube(c + 1) == n)
  }

  lemma CubeMonotone(a: int, b: int)
    requires 0 <= a < b
    ensures Cube(a) < Cube(b)
  {
    assert a * a <= a * b <= b * b;
    assert a * a * a <= a * a * b;
    assert a * a * b < b * b * b by {
      assert a * a * b <= b * b * b;
      assert b * b * b - a * a * b == (b * b - a * a) * b;
      assert b * b - a * a > 0 by {
        assert b * b - a * a == (b - a) * (b + a);
      }
      assert (b * b - a * a) * b > 0;
    }
  }

  /** Grid side: the truncated root, bumped once when its cube holds fewer
      than N sites. It is the least side whose cube holds N sites. */
  function Lado(n: nat, c: int): (lado: nat)
    requires n >= 1 && IsTruncatedCubeRoot(n, c)
    ensures Cube(lado) >= n && Cube(lado - 1) < n
  {
    if Cube(c) < n then
      c + 1
    else
      assert Cube(c) == n by {
        if Cube(c + 1) == n { CubeMonotone(c, c + 1); }
      }
      assert c >= 1 ==> Cube(c - 1) < n by {
        if c >= 1 { CubeMonotone(c - 1, c); }
      }
      c
  }

  /** Centre of cell a along an axis: entry a of
      `linspace(s, L - s, lado)` with s = L / lado / 2, that is s plus a
      times the step (L - s - s) / (lado - 1), or s alone when lado is 1. */
  function Aux(a: nat, lado: nat, l: real): (r: real)
    requires lado >= 1
    ensures var s := l / lado as real / 2.0;
      (lado == 1 && a == 0 ==> r == s)
      && (lado > 1 ==> r == s + (a as real) * ((l - s) - s) / (lado - 1) as real)
  {
    LinspaceEntry(a, lado, l);
    (2 * a + 1) as real * l / (2 * lado) as real
  }

  lemma LinspaceEntry(a: nat, lado: nat, l: real)
    requires lado >= 1
    ensures var s := l / lado as real / 2.0;
      var r := (2 * a + 1) as real * l / (2 * lado) as real;
      (lado == 1 && a == 0 ==> r == s)
      && (lado > 1 ==> r == s + (a as real) * ((l - s) - s) / (lado - 1) as real)
  {
    var n := lado as real;
    var q := l / n;
    var s := l / n / 2.0;
    assert l == q * n;
    assert s == q / 2.0;
    var r := (2 * a + 1) as real * l / (2 * lado) as real;
    assert r == (2 * a + 1) as real * q / 2.0 by {
      assert (2 * lado) as real == 2.0 * n;
      assert (2 * a + 1) as real * l == ((2 * a + 1) as real * q / 2.0) * (2.0 * n);
    }
    if lado > 1 {
      assert (l - s) - s == q * (n - 1.0);
      assert ((l - s) - s) / (lado - 1) as real == q;
    }
  }

  /** Grid index along axis k of site p. The 'ij' meshgrid transposed by
      transforma_1D lists the sites with the x index varying fastest.  Every
      index of a site of the grid is below lado. */
  function Digit(p: nat, lado: nat, k: nat): (r: nat)
    requires lado >= 1
    ensures p < Cube(lado) && k < 3 ==> r < lado
  {
    if k == 0 then p % lado
    else if k == 1 then (p / lado) % lado
    else QuotientBound(p, lado); (p / lado) / lado
  }

  lemma QuotientBound(p: nat, lado: nat)
    requires lado >= 1
    ensures p < Cube(lado) ==> (p / lado) / lado < lado
  {
    if p < Cube(lado) {
      assert p < lado * (lado * lado);
      DivBound(p, lado, lado * lado);
      DivBound(p / lado, lado, lado);
    }
  }

  /** Coordinate k of every site of the grid, in site order; with a box of
      positive side every one lies strictly inside it. */
  function GridAxis(lado: nat, l: real, k: nat): (r: seq<real>)
    requires lado >= 1
    ensures |r| == Cube(lado)
    ensures l > 0.0 && k < 3 ==> forall p :: 0 <= p < |r| ==> 0.0 < r[p] < l
  {
    GridInBox(lado, l, k);
    seq(Cube(lado), p requires 0 <= p < Cube(lado) => Aux(Digit(p, lado, k), lado, l))
  }

  lemma GridInBox(lado: nat, l: real, k: nat)
    requires lado >= 1
    ensures l > 0.0 && k < 3 ==> forall p :: 0 <= p < Cube(lado) ==> 0.0 < Aux(Digit(p, lado, k), lado, l) < l
  {
    if l > 0.0 && k < 3 {
      forall p | 0 <= p < Cube(lado)
        ensures 0.0 < Aux(Digit(p, lado, k), lado, l) < l
      {
        AuxInBox(Digit(p, lado, k), lado, l);
      }
    }
  }

  /** llenar_pos: the first N sites of the grid, as a 3N vector. */
  function LlenarPos(n: nat, l: real, c: int): (pos: seq<real>)
    requires n >= 1 && IsTruncatedCubeRoot(n, c)
    ensures |pos| == 3 * n
  {
    var lado := Lado(n, c);
    var grid := Transforma1D(GridAxis(lado, l, 0), GridAxis(lado, l, 1), GridAxis(lado, l, 2));
    grid.value[..3 * n]
  }

  /** llenar_vel: the draw with its np.mean subtracted. */
  function LlenarVel(nm: Numerics, draw: seq<real>): (vel: seq<real>)
    ensures |vel| == |draw|
  {
    Shift(draw, -nm.mean[draw])
  }

  /** With exact statistics the velocities sum to zero and keep the spread
      of the draw. */
  lemma LlenarVelStats(nm: Numerics, draw: seq<real>)
    requires Exact(nm) && |draw| > 0
    ensures LlenarVel(nm, draw) == Centre(draw)
    ensures Sum(LlenarVel(nm, draw)) == 0.0
    ensures Variance(LlenarVel(nm, draw)) == Variance(draw)
    ensures nm.variance[LlenarVel(nm, draw)] == Variance(draw)
  {
    CentreStats(draw);
  }

  lemma DivBound(p: nat, d: nat, q: nat)
    requires d >= 1 && p < d * q
    ensures p / d < q
  {
  }

  /** Coordinate k of particle i is the centre of cell Digit(i, lado, k). */
  lemma LlenarPosAt(n: nat, l: real, c: int, i: nat, k: nat)
    requires n >= 1 && IsTruncatedCubeRoot(n, c) && i < n && k < 3
    ensures var lado := Lado(n, c);
      Digit(i, lado, k) < lado && LlenarPos(n, l, c)[3 * i + k] == Aux(Digit(i, lado, k), lado, l)
  {
    var lado := Lado(n, c);
    var x, y, z := GridAxis(lado, l, 0), GridAxis(lado, l, 1), GridAxis(lado, l, 2);
    assert i < Cube(lado);
    InterleaveAt(x, y, z, i, k);
    assert Component(x, y, z, k) == GridAxis(lado, l, k);
  }

  lemma AuxInBox(a: nat, lado: nat, l: real)
    requires lado >= 1 && a < lado && l > 0.0
    ensures 0.0 < Aux(a, lado, l) < l
  {
    var u := l / (2 * lado) as real;
    assert Aux(a, lado, l) == (2 * a + 1) as real * u;
    assert l == (2 * lado) as real * u;
    assert (2 * a + 1) as real * u < (2 * lado) as real * u;
  }

  lemma AuxInjective(a: nat, b: nat, lado: nat, l: real)
    requires lado >= 1 && l > 0.0 && Aux(a, lado, l) == Aux(b, lado, l)
    ensures a == b
  {
    var u := l / (2 * lado) as real;
    assert u > 0.0;
    assert Aux(a, lado, l) == (2 * a + 1) as real * u;
    assert Aux(b, lado, l) == (2 * b + 1) as real * u;
  }

  /** Neighbouring cell centres are L / lado apart. */
  lemma AuxSpacing(a: nat, lado: nat, l: real)
    requires lado >= 1
    ensures Aux(a + 1, lado, l) - Aux(a, lado, l) == l / lado as real
  {
    var u := l / (2 * lado) as real;
    assert Aux(a, lado, l) == (2 * a + 1) as real * u;
    assert Aux(a + 1, lado, l) == (2 * a + 3) as real * u;
    assert l / lado as real == 2.0 * u;
  }

  /** Every coordinate llenar_pos produces is the centre of one of the lado
      cells along its axis, and so lies strictly inside (0, L). */
  lemma LlenarPosInBox(n: nat, l: real, c: int)
    requires n >= 1 && IsTruncatedCubeRoot(n, c) && l > 0.0
    ensures var pos, lado := LlenarPos(n, l, c), Lado(n, c);
      forall j :: 0 <= j < 3 * n ==>
        Digit(j / 3, lado, j % 3) < lado && pos[j] == Aux(Digit(j / 3, lado, j % 3), lado, l) &&
        0.0 < pos[j] < l
  {
    var pos, lado := LlenarPos(n, l, c), Lado(n, c);
    forall j | 0 <= j < 3 * n
      ensures Digit(j / 3, lado, j % 3) < lado && pos[j] == Aux(Digit(j / 3, lado, j % 3), lado, l)
      ensures 0.0 < pos[j] < l
    {
      assert j == 3 * (j / 3) + j % 3;
      LlenarPosAt(n, l, c, j / 3, j % 3);
      AuxInBox(Digit(j / 3, lado, j % 3), lado, l);
    }
  }

  /** The three grid indices of a site determine the site. */
  lemma DigitsDetermine(p: nat, q: nat, lado: nat)
    requires lado >= 1
    requires Digit(p, lado, 0) == Digit(q, lado, 0)
    requires Digit(p, lado, 1) == Digit(q, lado, 1)
    requires Digit(p, lado, 2) == Digit(q, lado, 2)
    ensures p == q
  {
    var p1, q1 := p / lado, q / lado;
    assert p1 == (p1 / lado) * lado + p1 % lado;
    assert q1 == (q1 / lado) * lado + q1 % lado;
    assert p1 == q1;
    assert p == p1 * lado + p % lado;
    assert q == q1 * lado + q % lado;
  }

  /** Particle i's position: entries 3i, 3i+1 and 3i+2. */
  function Site(pos: seq<real>, i: nat): (real, real, real)
    requires 3 * i + 2 < |pos|
  {
    (pos[3 * i], pos[3 * i + 1], pos[3 * i + 2])
  }

  /** Coordinate k of particle i: entry 3i + k. */
  function Coordinate(pos: seq<real>, i: nat, k: nat): real
    requires 3 * i + k < |pos|
  {
    pos[3 * i + k]
  }

  lemma SiteCoordinates(pos: seq<real>, i: nat, j: nat)
    requires 3 * i + 2 < |pos| && 3 * j + 2 < |pos| && Site(pos, i) == Site(pos, j)
    ensures forall k :: 0 <= k < 3 ==> Coordinate(pos, i, k) == Coordinate(pos, j, k)
  {
  }

  /** Two particles llenar_pos puts on the same site are the same particle. */
  lemma SameSiteSameParticle(n: nat, l: real, c: int, i: nat, j: nat)
    requires n >= 1 && IsTruncatedCubeRoot(n, c) && l > 0.0
    requires i < n && j < n
    requires Site(LlenarPos(n, l, c), i) == Site(LlenarPos(n, l, c), j)
    ensures i == j
  {
    SiteCoordinates(LlenarPos(n, l, c), i, j);
    forall k | 0 <= k < 3
      ensures Digit(i, Lado(n, c), k) == Digit(j, Lado(n, c), k)
    {
      SameCoordinateSameDigit(n, l, c, i, j, k);
    }
    DigitsDetermine(i, j, Lado(n, c));
  }

  lemma SameCoordinateSameDigit(n: nat, l: real, c: int, i: nat, j: nat, k: nat)
    requires n >= 1 && IsTruncatedCubeRoot(n, c) && l > 0.0
    requires i < n && j < n && k < 3
    requires Coordinate(LlenarPos(n, l, c), i, k) == Coordinate(LlenarPos(n, l, c), j, k)
    ensures Digit(i, Lado(n, c), k) == Digit(j, Lado(n, c), k)
  {
    var lado := Lado(n, c);
    LlenarPosAt(n, l, c, i, k);
    LlenarPosAt(n, l, c, j, k);
    AuxInjective(Digit(i, lado, k), Digit(j, lado, k), lado, l);
  }
}
