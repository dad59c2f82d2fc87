/** The leak gradient of the lab reports (tools/lab/lab.py, least_squares_slope), over the reals:
    floating-point rounding is not modelled. */
module LeastSquares {
  import opened Helpers

  datatype Point = Point(x: real, y: real)

  function Last(points: seq<Point>): Point
    requires points != []
  {
    points[|points| - 1]
  }

  function Head(points: seq<Point>): seq<Point>
    requires points != []
  {
    points[..|points| - 1]
  }

  function SumX(points: seq<Point>): real { if points == [] then 0.0 else SumX(Head(points)) + Last(points).x }

  function SumY(points: seq<Point>): real { if points == [] then 0.0 else SumY(Head(points)) + Last(points).y }

  function MeanX(points: seq<Point>): real
    requires points != []
  {
    SumX(points) / |points| as real
  }

  function MeanY(points: seq<Point>): real
    requires points != []
  {
    SumY(points) / |points| as real
  }

  function Sxx(points: seq<Point>, meanX: real): real {
    if points == [] then 0.0
    else Sxx(Head(points), meanX) + Sq(Last(points).x - meanX)
  }

  function Sxy(points: seq<Point>, meanX: real, meanY: real): real {
    if points == [] then 0.0
    else Sxy(Head(points), meanX, meanY) + (Last(points).x - meanX) * (Last(points).y - meanY)
  }

  /** A product, with the signs and zeros of its factors. */
  function Mul(p: real, q: real): (r: real)
    ensures r == 0.0 <==> p == 0.0 || q == 0.0
    ensures r > 0.0 <==> (p > 0.0 && q > 0.0) || (p < 0.0 && q < 0.0)
  {
    p * q
  }

  function Sq(d: real): (r: real)
    ensures r >= 0.0 && (r == 0.0 <==> d == 0.0)
  {
    Mul(d, d)
  }

  function Slope(points: seq<Point>): Option<real> {
    if |points| < 2 then None
    else
      var (meanX, meanY) := (MeanX(points), MeanY(points));
      var sxx := Sxx(points, meanX);
      if sxx == 0.0 then None else Some(Sxy(points, meanX, meanY) / sxx)
  }

  /** The sum of the squared residuals of the line y = a * x + b. */
  function Residuals(points: seq<Point>, a: real, b: real): real {
    if points == [] then 0.0 else Residuals(Head(points), a, b) + Residual(Last(points), a, b)
  }

  function Residual(p: Point, a: real, b: real): real { Sq(p.y - a * p.x - b) }

  predicate AllXEqual(points: seq<Point>) {
    forall i, j :: 0 <= i < |points| && 0 <= j < |points| ==> points[i].x == points[j].x
  }

  // ---------------------------------------------------------------------------------------
  // When there is no line
  // ---------------------------------------------------------------------------------------

  lemma {:induction false} SxxSign(points: seq<Point>, m: real)
    ensures Sxx(points, m) >= 0.0
    ensures Sxx(points, m) == 0.0 <==> forall i :: 0 <= i < |points| ==> points[i].x == m
  {
    if points != [] {
      var (head, last) := (Head(points), Last(points));
      SxxSign(head, m);
      if Sxx(points, m) == 0.0 {
        forall i | 0 <= i < |points| ensures points[i].x == m {
          if i < |head| { assert points[i] == head[i]; }
        }
      } else {
        assert last.x != m || exists i :: 0 <= i < |head| && head[i].x != m;
      }
    }
  }

  lemma {:induction false} SumOfConstant(points: seq<Point>, c: real)
    requires forall i :: 0 <= i < |points| ==> points[i].x == c
    ensures SumX(points) == c * |points| as real
  {
    if points != [] { SumOfConstant(Head(points), c); }
  }

  /** There is no gradient exactly for fewer than two points, or when all share one x. */
  lemma SlopeNoneExactly(points: seq<Point>)
    ensures Slope(points).None? <==> |points| < 2 || AllXEqual(points)
  {
    if |points| >= 2 {
      SxxSign(points, MeanX(points));
      if AllXEqual(points) {
        SumOfConstant(points, points[0].x);
        assert points[0].x * |points| as real / |points| as real == points[0].x;
      }
    }
  }

  // ---------------------------------------------------------------------------------------
  // When there is one
  // ---------------------------------------------------------------------------------------

  /** The sums a quadratic in a and h needs: of u, v, u * u, u * v, v * v over the points, where
      (u, v) is a point seen from (mx, my), and their number. */
  datatype Moments = Moments(n: real, u: real, v: real, uu: real, uv: real, vv: real) {
    ghost function Plus(m: Moments): Moments {
      Moments(n + m.n, u + m.u, v + m.v, uu + m.uu, uv + m.uv, vv + m.vv)
    }

    /** The sum of (v - a * u + h) squared. */
    ghost function Quadratic(a: real, h: real): real {
      vv - 2.0 * a * uv + a * a * uu + 2.0 * h * v - 2.0 * a * h * u + h * h * n
    }
  }

  ghost function OneMoment(u: real, v: real): Moments { Moments(1.0, u, v, Sq(u), u * v, Sq(v)) }

  lemma QuadraticOfOne(u: real, v: real, a: real, h: real)
    ensures OneMoment(u, v).Quadratic(a, h) == Sq(v - a * u + h)
  {
    var w := v - a * u;
    assert (w + h) * (w + h) == w * w + 2.0 * h * w + h * h;
    assert w * w == v * v - 2.0 * a * (u * v) + a * a * (u * u);
    assert h * w == h * v - a * h * u;
  }

  lemma QuadraticAdds(m: Moments, k: Moments, a: real, h: real)
    ensures m.Plus(k).Quadratic(a, h) == m.Quadratic(a, h) + k.Quadratic(a, h)
  {
    assert a * (m.uv + k.uv) == a * m.uv + a * k.uv;
    assert a * a * (m.uu + k.uu) == a * a * m.uu + a * a * k.uu;
    assert h * (m.v + k.v) == h * m.v + h * k.v;
    assert a * h * (m.u + k.u) == a * h * m.u + a * h * k.u;
    assert h * h * (m.n + k.n) == h * h * m.n + h * h * k.n;
  }

  ghost function Around(points: seq<Point>, mx: real, my: real): Moments {
    var n := |points| as real;
    Moments(n, SumX(points) - mx * n, SumY(points) - my * n, Sxx(points, mx), Sxy(points, mx, my), Syy(points, my))
  }

  ghost function Syy(points: seq<Point>, my: real): real {
    if points == [] then 0.0 else Syy(Head(points), my) + Sq(Last(points).y - my)
  }

  lemma AroundStep(points: seq<Point>, mx: real, my: real, u: real, v: real)
    requires points != [] && u == Last(points).x - mx && v == Last(points).y - my
    ensures Around(points, mx, my) == Around(Head(points), mx, my).Plus(OneMoment(u, v))
  {
    var (n, k) := (|points| as real, |Head(points)| as real);
    assert n == k + 1.0;
    assert mx * n == mx * k + mx;
    assert my * n == my * k + my;
  }

  /** The residuals of a line with gradient a that passes h below the point (mx, my). */
  lemma {:induction false} ResidualsAround(points: seq<Point>, mx: real, my: real, a: real, b: real, h: real)
    requires h == my - a * mx - b
    ensures Residuals(points, a, b) == Around(points, mx, my).Quadratic(a, h)
  {
    if points == [] {
      assert Around(points, mx, my) == Moments(0.0, 0.0, 0.0, 0.0, 0.0, 0.0);
    } else {
      var (head, last) := (Head(points), Last(points));
      var one := OneMoment(last.x - mx, last.y - my);
      ResidualsAround(head, mx, my, a, b, h);
      AroundStep(points, mx, my, last.x - mx, last.y - my);
      QuadraticAdds(Around(head, mx, my), one, a, h);
      ResidualAround(last, mx, my, a, b, h);
    }
  }

  lemma ResidualAround(p: Point, mx: real, my: real, a: real, b: real, h: real)
    requires h == my - a * mx - b
    ensures Residual(p, a, b) == OneMoment(p.x - mx, p.y - my).Quadratic(a, h)
  {
    QuadraticOfOne(p.x - mx, p.y - my, a, h);
    assert a * (p.x - mx) == a * p.x - a * mx;
    assert p.y - my - a * (p.x - mx) + h == p.y - a * p.x - b;
  }

  /** With nothing left of the linear terms, the quadratic is least at the gradient uv / uu. */
  lemma CompleteSquare(m: Moments, s: real, a: real, h: real)
    requires m.u == 0.0 && m.v == 0.0 && s * m.uu == m.uv
    ensures m.Quadratic(a, h) == m.Quadratic(s, 0.0) + Mul(Sq(a - s), m.uu) + Mul(Sq(h), m.n)
  {
    assert Sq(a - s) == a * a - 2.0 * a * s + s * s;
    assert Mul(Sq(a - s), m.uu) == a * a * m.uu - 2.0 * a * (s * m.uu) + s * (s * m.uu);
    assert s * s * m.uu == s * (s * m.uu);
  }

  /** The height of the line through the centre of the points with the given gradient. */
  function Intercept(points: seq<Point>, slope: real): real
    requires points != []
  {
    MeanY(points) - slope * MeanX(points)
  }

  /** The residuals of any line: what the line through the centre with the computed gradient
      leaves, plus two squares. */
  lemma ResidualsDecompose(points: seq<Point>, a: real, b: real, h: real)
    requires Slope(points).Some? && h == Intercept(points, a) - b
    ensures Residuals(points, a, b)
         == Residuals(points, Slope(points).value, Intercept(points, Slope(points).value))
          + Mul(Sq(a - Slope(points).value), Sxx(points, MeanX(points))) + Mul(Sq(h), |points| as real)
  {
    var (mx, my, s) := (MeanX(points), MeanY(points), Slope(points).value);
    var m := Around(points, mx, my);
    Centred(points);
    ResidualsAround(points, mx, my, a, b, h);
    ResidualsAround(points, mx, my, s, Intercept(points, s), 0.0);
    CompleteSquare(m, s, a, h);
  }

  /** Seen from their centre the points balance, and the gradient solves its one equation. */
  lemma Centred(points: seq<Point>)
    requires Slope(points).Some?
    ensures var m := Around(points, MeanX(points), MeanY(points));
            m.u == 0.0 && m.v == 0.0 && Slope(points).value * m.uu == m.uv
  {
    var n := |points| as real;
    Quotient(SumX(points), n);
    Quotient(SumY(points), n);
    Quotient(Sxy(points, MeanX(points), MeanY(points)), Sxx(points, MeanX(points)));
  }

  lemma Quotient(p: real, q: real)
    requires q != 0.0
    ensures p / q * q == p
  {}

  /** The line through the centre with the computed gradient leaves the least squared residuals
      of all lines, and every other line leaves more. */
  lemma SlopeIsLeastSquares(points: seq<Point>, a: real, b: real)
    requires Slope(points).Some?
    ensures var s := Slope(points).value;
            var least := Residuals(points, s, Intercept(points, s));
            && least <= Residuals(points, a, b)
            && (least == Residuals(points, a, b) <==> a == s && b == Intercept(points, s))
  {
    var (s, h) := (Slope(points).value, Intercept(points, a) - b);
    ResidualsDecompose(points, a, b, h);
    SxxSign(points, MeanX(points));
    var (wide, high) := (Mul(Sq(a - s), Sxx(points, MeanX(points))), Mul(Sq(h), |points| as real));
    assert wide >= 0.0 && (wide == 0.0 <==> a == s);
    assert high >= 0.0 && (high == 0.0 <==> h == 0.0);
  }

  /** A process that climbs in a straight line is reported at exactly its rate. */
  lemma SlopeOfALine(points: seq<Point>, rate: real, start: real)
    requires Slope(points).Some?
    requires forall i :: 0 <= i < |points| ==> points[i].y == rate * points[i].x + start
    ensures Slope(points) == Some(rate)
  {
    OnTheLine(points, rate, start);
    SlopeIsLeastSquares(points, rate, start);
    ResidualsNonNegative(points, Slope(points).value, Intercept(points, Slope(points).value));
  }

  lemma {:induction false} OnTheLine(points: seq<Point>, rate: real, start: real)
    requires forall i :: 0 <= i < |points| ==> points[i].y == rate * points[i].x + start
    ensures Residuals(points, rate, start) == 0.0
  {
    if points != [] { OnTheLine(Head(points), rate, start); }
  }

  lemma {:induction false} ResidualsNonNegative(points: seq<Point>, a: real, b: real)
    ensures Residuals(points, a, b) >= 0.0
  {
    if points != [] {
      var last := Last(points);
      ResidualsNonNegative(Head(points), a, b);
    }
  }
}
