/** Geometry primitives of the analyser: the angle at the vertex of three
    points, the heading of the segment between two points, and Euclidean
    distance.  Coordinates are reals; the transcendental functions the Python
    code takes from `math` are parameters (a `MathLib`) whose laws are stated
    as predicates, so every property below says which law it relies on. */
module Calculations {
  import opened Results

  datatype Point = Point(x: real, y: real)

  /** `math.pi` as a double. */
  const Pi: real := 3.141592653589793

  /** The square root, inverse cosine and two-argument arctangent in use. */
  datatype MathLib = MathLib(sqrt: real -> real, acos: real -> real, atan2: (real, real) -> real)

  /** On its domain the square root is the non-negative root. */
  ghost predicate SqrtLaws(sqrt: real -> real) {
    forall v :: 0.0 <= v ==> 0.0 <= sqrt(v) && Square(sqrt(v)) == v
  }

  /** On [-1, 1] the inverse cosine ranges over [0, pi] radians. */
  ghost predicate AcosLaws(acos: real -> real) {
    forall c :: -1.0 <= c <= 1.0 ==> 0.0 <= acos(c) <= Pi
  }

  /** The two-argument arctangent ranges over [-pi, pi] radians. */
  ghost predicate Atan2Laws(atan2: (real, real) -> real) {
    forall dy, dx :: -Pi <= atan2(dy, dx) <= Pi
  }

  const ZeroLengthMessage := "One or both vectors have zero length; cannot determine angle."

  function Abs(v: real): (r: real)
    ensures 0.0 <= r && (r == v || r == -v)
  {
    if v < 0.0 then -v else v
  }

  /** `math.degrees`: radians to degrees. */
  function Degrees(radians: real): real {
    radians * 180.0 / Pi
  }

  /** Python's `round` on a float (and numpy's `np.round`): the nearest
      integer, ties going to the even neighbour. */
  function RoundHalfEven(v: real): (n: int)
    ensures v - 0.5 <= n as real <= v + 0.5
    ensures (n as real - v == 0.5 || v - n as real == 0.5) ==> n % 2 == 0
  {
    var f := v.Floor;
    var frac := v - f as real;
    if frac < 0.5 then f
    else if frac > 0.5 then f + 1
    else if f % 2 == 0 then f
    else f + 1
  }

  /** A value between two integers rounds to a value between them. */
  lemma RoundHalfEvenBetween(lo: int, hi: int, v: real)
    requires lo as real <= v <= hi as real
    ensures lo <= RoundHalfEven(v) <= hi
  {
  }

  /** `max(-1, min(1, v))`: the cosine pulled back into the domain of acos. */
  function Clamp(v: real): (r: real)
    ensures -1.0 <= r <= 1.0
    ensures -1.0 <= v <= 1.0 ==> r == v
    ensures v < -1.0 ==> r == -1.0
    ensures 1.0 < v ==> r == 1.0
  {
    if v < 1.0 then (if v < -1.0 then -1.0 else v) else 1.0
  }

  /** `v ** 2`, the square `**` of the distance formula.  Its value is
      `v * v`: `Same` is the identity and exists only as a proof device.  The
      verifier's arithmetic treats a product of a term with itself
      differently from other products, and the lemmas below about squares
      (monotonicity, positivity) go through only when the square is written
      as a product of two distinct terms. */
  function Square(v: real): real {
    v * Same(v)
  }

  /** The identity; see `Square`. */
  function Same(v: real): real {
    v
  }

  /** The vector from `p` to `q`. */
  function Vector(p: Point, q: Point): Point {
    Point(q.x - p.x, q.y - p.y)
  }

  function Dot(u: Point, v: Point): real {
    u.x * v.x + u.y * v.y
  }

  /** The squared length of a vector, `u[0] ** 2 + u[1] ** 2`. */
  function SquaredLength(u: Point): real {
    Square(u.x) + Square(u.y)
  }

  function Magnitude(m: MathLib, u: Point): real {
    m.sqrt(SquaredLength(u))
  }

  lemma SquareFacts(v: real)
    ensures 0.0 <= Square(v)
    ensures v != 0.0 <==> 0.0 < Square(v)
    ensures Square(-v) == Square(v)
  {
  }

  /** A squared length is zero exactly for the zero vector. */
  lemma SquaredLengthZero(u: Point)
    ensures 0.0 <= SquaredLength(u)
    ensures SquaredLength(u) == 0.0 <==> u == Point(0.0, 0.0)
  {
    SquareFacts(u.x);
    SquareFacts(u.y);
  }

  /** Under the square-root laws a magnitude is non-negative, is zero exactly
      for the zero vector, and squares back to the squared length. */
  lemma MagnitudeZero(m: MathLib, u: Point)
    requires SqrtLaws(m.sqrt)
    ensures 0.0 <= Magnitude(m, u)
    ensures Magnitude(m, u) == 0.0 <==> u == Point(0.0, 0.0)
    ensures Square(Magnitude(m, u)) == SquaredLength(u)
  {
    SquaredLengthZero(u);
    var s := Magnitude(m, u);
    assert 0.0 <= s && Square(s) == SquaredLength(u);
    SquareFacts(s);
  }

  /** Lagrange's identity in the plane. */
  lemma Lagrange(u: Point, v: Point)
    ensures SquaredLength(u) * SquaredLength(v) - Square(Dot(u, v)) == Square(u.x * v.y - u.y * v.x)
  {
  }

  lemma ProductSquare(a: real, b: real)
    ensures Square(a * b) == Square(a) * Square(b)
  {
  }

  lemma MulLess(a: real, b: real, c: real)
    requires 0.0 <= a && b < c
    ensures a * b <= a * c
  {
  }

  lemma MulLessStrict(a: real, b: real, c: real)
    requires 0.0 < a && b < c
    ensures a * b < a * c
  {
  }

  lemma SquareMonotone(a: real, b: real)
    requires 0.0 <= a < b
    ensures Square(a) < Square(b)
  {
    MulLess(a, a, b);
    MulLessStrict(b, a, b);
    assert a * b == b * a;
  }

  /** A number whose square is at most that of a positive `p` lies in [-p, p]. */
  lemma SquareBound(d: real, p: real)
    requires 0.0 < p && Square(d) <= Square(p)
    ensures -p <= d <= p
  {
    if p < d {
      SquareMonotone(p, d);
    }
    if d < -p {
      SquareMonotone(p, -d);
      SquareFacts(d);
    }
  }

  lemma RatioBound(d: real, p: real)
    requires 0.0 < p && -p <= d <= p
    ensures -1.0 <= d / p <= 1.0
  {
  }

  lemma ProductPositive(a: real, b: real)
    requires 0.0 < a && 0.0 < b
    ensures 0.0 < a * b
  {
  }

  /** A value whose square is at most the product of two positive squares
      divides by their product into [-1, 1]. */
  lemma RatioOfBoundedSquare(d: real, mu: real, mv: real)
    requires 0.0 < mu && 0.0 < mv
    requires Square(d) <= Square(mu) * Square(mv)
    ensures 0.0 < mu * mv
    ensures -1.0 <= d / (mu * mv) <= 1.0
  {
    ProductPositive(mu, mv);
    ProductSquare(mu, mv);
    SquareBound(d, mu * mv);
    RatioBound(d, mu * mv);
  }

  lemma ProductNonZero(a: real, b: real)
    requires a != 0.0 && b != 0.0
    ensures a * b != 0.0
  {
  }

  /** The cosine of the angle between two vectors of non-zero magnitude. */
  function Cosine(m: MathLib, u: Point, v: Point): real
    requires Magnitude(m, u) != 0.0 && Magnitude(m, v) != 0.0
  {
    ProductNonZero(Magnitude(m, u), Magnitude(m, v));
    Dot(u, v) / (Magnitude(m, u) * Magnitude(m, v))
  }

  lemma CosineBound(m: MathLib, u: Point, v: Point)
    requires 0.0 < Magnitude(m, u) && 0.0 < Magnitude(m, v)
    requires Square(Dot(u, v)) <= Square(Magnitude(m, u)) * Square(Magnitude(m, v))
    ensures -1.0 <= Cosine(m, u, v) <= 1.0
  {
    RatioOfBoundedSquare(Dot(u, v), Magnitude(m, u), Magnitude(m, v));
  }

  /** Cauchy-Schwarz in the plane: the cosine of two non-zero vectors lies in
      [-1, 1], so over the reals the clamp of `ThreePointAngle` never changes
      its argument; it only absorbs floating-point overshoot. */
  lemma CosineInRange(m: MathLib, u: Point, v: Point)
    requires SqrtLaws(m.sqrt)
    requires u != Point(0.0, 0.0) && v != Point(0.0, 0.0)
    ensures Magnitude(m, u) != 0.0 && Magnitude(m, v) != 0.0
    ensures -1.0 <= Cosine(m, u, v) <= 1.0
  {
    var mu, mv := Magnitude(m, u), Magnitude(m, v);
    MagnitudeZero(m, u);
    MagnitudeZero(m, v);
    Lagrange(u, v);
    SquareFacts(u.x * v.y - u.y * v.x);
    assert Square(Dot(u, v)) <= SquaredLength(u) * SquaredLength(v);
    assert Square(mu) * Square(mv) == SquaredLength(u) * SquaredLength(v);
    CosineBound(m, u, v);
  }

  /** `calculate_three_point_angle`: the angle ABC in degrees, between the
      vectors B->A and B->C.  Fails when either vector has zero length. */
  function ThreePointAngle(m: MathLib, a: Point, b: Point, c: Point): (r: Result<real>)
    ensures r.Err? ==> r.error == ValueError(ZeroLengthMessage)
    ensures SqrtLaws(m.sqrt) ==> (r.Err? <==> a == b || c == b)
    ensures AcosLaws(m.acos) && r.Ok? ==> 0.0 <= r.value <= 180.0
  {
    var ba := Vector(b, a);
    var bc := Vector(b, c);
    var magnitudeBA := Magnitude(m, ba);
    var magnitudeBC := Magnitude(m, bc);
    if magnitudeBA == 0.0 || magnitudeBC == 0.0 then
      ZeroLengthIff(m, a, b, c);
      Err(ValueError(ZeroLengthMessage))
    else
      ZeroLengthIff(m, a, b, c);
      var cosTheta := Clamp(Cosine(m, ba, bc));
      DegreesOfAcos(m, cosTheta);
      Ok(Degrees(m.acos(cosTheta)))
  }

  /** The vector between two points is zero exactly when they coincide. */
  lemma VectorZero(p: Point, q: Point)
    ensures Vector(p, q) == Point(0.0, 0.0) <==> p == q
  {
  }

  /** Under the square-root laws the magnitude of `Vector(p, q)` is zero
      exactly when the points coincide. */
  lemma MagnitudeOfVectorZero(m: MathLib, p: Point, q: Point)
    ensures SqrtLaws(m.sqrt) ==> (Magnitude(m, Vector(p, q)) == 0.0 <==> p == q)
  {
    VectorZero(p, q);
    if SqrtLaws(m.sqrt) {
      MagnitudeZero(m, Vector(p, q));
    }
  }

  /** Under the square-root laws the guard of `ThreePointAngle` fires exactly
      when A coincides with B or C coincides with B. */
  lemma ZeroLengthIff(m: MathLib, a: Point, b: Point, c: Point)
    ensures SqrtLaws(m.sqrt) ==>
      (Magnitude(m, Vector(b, a)) == 0.0 || Magnitude(m, Vector(b, c)) == 0.0 <==> a == b || c == b)
  {
    MagnitudeOfVectorZero(m, b, a);
    MagnitudeOfVectorZero(m, b, c);
  }

  /** A clamped cosine goes to an angle in [0, 180] degrees. */
  lemma DegreesOfAcos(m: MathLib, c: real)
    requires -1.0 <= c <= 1.0
    ensures AcosLaws(m.acos) ==> 0.0 <= Degrees(m.acos(c)) <= 180.0
  {
  }

  /** The angle at B does not depend on the order of the outer points. */
  lemma ThreePointAngleSymmetric(m: MathLib, a: Point, b: Point, c: Point)
    ensures ThreePointAngle(m, a, b, c) == ThreePointAngle(m, c, b, a)
  {
    var ba, bc := Vector(b, a), Vector(b, c);
    assert Dot(ba, bc) == Dot(bc, ba);
    assert Magnitude(m, ba) * Magnitude(m, bc) == Magnitude(m, bc) * Magnitude(m, ba);
  }

  /** Over the reals the clamp is inert: a successful angle is the degree
      measure of the inverse cosine of the exact cosine. */
  lemma ThreePointAngleUnclamped(m: MathLib, a: Point, b: Point, c: Point)
    requires SqrtLaws(m.sqrt)
    requires a != b && c != b
    ensures Magnitude(m, Vector(b, a)) != 0.0 && Magnitude(m, Vector(b, c)) != 0.0
    ensures ThreePointAngle(m, a, b, c) == Ok(Degrees(m.acos(Cosine(m, Vector(b, a), Vector(b, c)))))
  {
    ZeroLengthIff(m, a, b, c);
    VectorZero(b, a);
    VectorZero(b, c);
    CosineInRange(m, Vector(b, a), Vector(b, c));
    var ba, bc := Vector(b, a), Vector(b, c);
    var cosine := Cosine(m, ba, bc);
    assert Clamp(cosine) == cosine;
    assert Magnitude(m, ba) != 0.0 && Magnitude(m, bc) != 0.0;
    assert ThreePointAngle(m, a, b, c) == Ok(Degrees(m.acos(Clamp(cosine))));
  }

  /** `calculate_two_point_angle`: the heading of the segment from `a` to `b`
      in whole degrees; coincident points give 0 instead of an error. */
  function TwoPointAngle(m: MathLib, a: Point, b: Point): (r: int)
    ensures a == b ==> r == 0
    ensures Atan2Laws(m.atan2) ==> -180 <= r <= 180
  {
    if a.x == b.x && a.y == b.y then 0
    else
      var deltaX := b.x - a.x;
      var deltaY := b.y - a.y;
      HeadingRange(m, deltaY, deltaX);
      RoundHalfEven(Degrees(m.atan2(deltaY, deltaX)))
  }

  /** Under the arctangent laws a rounded heading lies in [-180, 180]. */
  lemma HeadingRange(m: MathLib, dy: real, dx: real)
    ensures Atan2Laws(m.atan2) ==> -180 <= RoundHalfEven(Degrees(m.atan2(dy, dx))) <= 180
  {
    if Atan2Laws(m.atan2) {
      RoundHalfEvenBetween(-180, 180, Degrees(m.atan2(dy, dx)));
    }
  }

  function Translate(p: Point, t: Point): Point {
    Point(p.x + t.x, p.y + t.y)
  }

  /** The heading depends only on the offset b - a. */
  lemma TwoPointAngleOfOffset(m: MathLib, a: Point, b: Point)
    ensures TwoPointAngle(m, a, b) == TwoPointAngle(m, Point(0.0, 0.0), Vector(a, b))
  {
  }

  /** Moving both points by the same offset leaves the heading unchanged. */
  lemma TwoPointAngleTranslation(m: MathLib, a: Point, b: Point, t: Point)
    ensures TwoPointAngle(m, Translate(a, t), Translate(b, t)) == TwoPointAngle(m, a, b)
  {
    assert Vector(Translate(a, t), Translate(b, t)) == Vector(a, b);
  }

  /** `calculate_distance`: the Euclidean distance between two points. */
  function Distance(m: MathLib, a: Point, b: Point): (r: real)
    ensures 0.0 <= r
    ensures SqrtLaws(m.sqrt) ==> Square(r) == SquaredLength(Vector(a, b))
    ensures SqrtLaws(m.sqrt) ==> (r == 0.0 <==> a == b)
  {
    DistanceLaws(m, a, b);
    assert Magnitude(m, Vector(a, b)) == m.sqrt(Square(b.x - a.x) + Square(b.y - a.y));
    Abs(m.sqrt(Square(b.x - a.x) + Square(b.y - a.y)))
  }

  lemma DistanceLaws(m: MathLib, a: Point, b: Point)
    ensures SqrtLaws(m.sqrt) ==> 0.0 <= Magnitude(m, Vector(a, b))
    ensures SqrtLaws(m.sqrt) ==> Square(Magnitude(m, Vector(a, b))) == SquaredLength(Vector(a, b))
    ensures SqrtLaws(m.sqrt) ==> (Magnitude(m, Vector(a, b)) == 0.0 <==> a == b)
  {
    MagnitudeOfVectorZero(m, a, b);
    if SqrtLaws(m.sqrt) {
      MagnitudeZero(m, Vector(a, b));
    }
  }

  /** Distance does not depend on the order of its arguments. */
  lemma DistanceSymmetric(m: MathLib, a: Point, b: Point)
    ensures Distance(m, a, b) == Distance(m, b, a)
  {
    SquareFacts(b.x - a.x);
    SquareFacts(b.y - a.y);
    assert a.x - b.x == -(b.x - a.x) && a.y - b.y == -(b.y - a.y);
  }

  /** Distance is unchanged when both points move by the same offset. */
  lemma DistanceTranslation(m: MathLib, a: Point, b: Point, t: Point)
    ensures Distance(m, Translate(a, t), Translate(b, t)) == Distance(m, a, b)
  {
    assert Vector(Translate(a, t), Translate(b, t)) == Vector(a, b);
  }
}
