/** Conversions between the NED/FRD frames of the flight controller and the ENU/FLU frames of ROS. */
module FrameConversion {
  import opened Geometry

  datatype Vector3 = Vector3(x: real, y: real, z: real) {
    function Plus(o: Vector3): Vector3 { Vector3(x + o.x, y + o.y, z + o.z) }
    function Scaled(k: real): Vector3 { Vector3(k * x, k * y, k * z) }
    function Cross(o: Vector3): Vector3 {
      Vector3(y * o.z - z * o.y, z * o.x - x * o.z, x * o.y - y * o.x)
    }
  }

  datatype Quaternion = Quaternion(w: real, x: real, y: real, z: real) {
    /** Hamilton product. */
    function Times(o: Quaternion): Quaternion {
      Quaternion(
        w * o.w - x * o.x - y * o.y - z * o.z,
        w * o.x + x * o.w + y * o.z - z * o.y,
        w * o.y - x * o.z + y * o.w + z * o.x,
        w * o.z + x * o.y - y * o.x + z * o.w)
    }
    function Conjugate(): Quaternion { Quaternion(w, -x, -y, -z) }
    function Scaled(k: real): Quaternion { Quaternion(k * w, k * x, k * y, k * z) }
    function SquaredNorm(): real { w * w + x * x + y * y + z * z }
    function Imaginary(): Vector3 { Vector3(x, y, z) }

    /** The rotation a quaternion stands for: the imaginary part of `q v q*`. */
    function Sandwich(v: Vector3): Vector3 {
      Times(Quaternion(0.0, v.x, v.y, v.z)).Times(Conjugate()).Imaginary()
    }

    /** The product of a quaternion and a vector as the matrix library computes it. */
    function Rotate(v: Vector3): Vector3 {
      var uv := Imaginary().Cross(v).Scaled(2.0);
      v.Plus(uv.Scaled(w)).Plus(Imaginary().Cross(uv))
    }
  }

  /** The world frame change: `h` stands for the half square root of two. */
  function NedEnu(h: real): Quaternion { Quaternion(0.0, h, h, 0.0) }

  /** The body frame change: half a turn about X. */
  const FLU_FRD := Quaternion(0.0, 1.0, 0.0, 0.0)

  function AttitudeNedToEnu(q: Quaternion, h: real): Quaternion {
    NedEnu(h).Times(q).Times(FLU_FRD)
  }

  function AttitudeEnuToNed(q: Quaternion, h: real): Quaternion {
    NedEnu(h).Times(q).Times(FLU_FRD)
  }

  function PositionNedToEnu(v: Vector3): Vector3 { Vector3(v.y, v.x, -v.z) }
  function PositionEnuToNed(v: Vector3): Vector3 { Vector3(v.y, v.x, -v.z) }
  function FrdToFlu(v: Vector3): Vector3 { Vector3(v.x, -v.y, -v.z) }
  function FluToFrd(v: Vector3): Vector3 { Vector3(v.x, -v.y, -v.z) }

  function YawNedToEnu(yaw: real): real { WrapOf(M_PI / 2.0 - yaw) }
  function YawEnuToNed(yaw: real): real { WrapOf(M_PI / 2.0 - yaw) }

  // ---- Quaternion algebra ----

  lemma Associative(a: Quaternion, b: Quaternion, c: Quaternion)
    ensures a.Times(b).Times(c) == a.Times(b.Times(c))
  {
    RealPartAssociates(a, b, c);
    // The other parts are the real part with the last factor multiplied by -i, -j and -k.
    RealPartAssociates(a, b, Quaternion(c.x, -c.w, -c.z, c.y));
    RealPartAssociates(a, b, Quaternion(c.y, c.z, -c.w, -c.x));
    RealPartAssociates(a, b, Quaternion(c.z, -c.y, c.x, -c.w));
  }

  lemma TimesParts(a: Quaternion, b: Quaternion)
    ensures a.Times(b).w == a.w * b.w - a.x * b.x - a.y * b.y - a.z * b.z
    ensures a.Times(b).x == a.w * b.x + a.x * b.w + a.y * b.z - a.z * b.y
    ensures a.Times(b).y == a.w * b.y - a.x * b.z + a.y * b.w + a.z * b.x
    ensures a.Times(b).z == a.w * b.z + a.x * b.y - a.y * b.x + a.z * b.w
  {
  }

  lemma RealPartAssociates(a: Quaternion, b: Quaternion, c: Quaternion)
    ensures a.Times(b).Times(c).w == a.Times(b.Times(c)).w
  {
    hide *;
    var t, u := a.Times(b), b.Times(c);
    TimesParts(a, b);
    TimesParts(b, c);
    TimesParts(t, c);
    TimesParts(a, u);
    assert t.w * c.w - t.x * c.x - t.y * c.y - t.z * c.z == a.w * u.w - a.x * u.x - a.y * u.y - a.z * u.z;
  }

  lemma ConjugateOfProduct(a: Quaternion, b: Quaternion)
    ensures a.Times(b).Conjugate() == b.Conjugate().Times(a.Conjugate())
  {
    hide Quaternion.Times;
    TimesParts(a, b);
    TimesParts(b.Conjugate(), a.Conjugate());
  }

  function Pure(v: Vector3): Quaternion { Quaternion(0.0, v.x, v.y, v.z) }

  lemma SandwichScalars(w: real, x: real, y: real, z: real, a: real, b: real, c: real)
    ensures (-x * a - y * b - z * c) * w - (w * a + y * c - z * b) * (-x)
            - (w * b - x * c + z * a) * (-y) - (w * c + x * b - y * a) * (-z) == 0.0
  {
  }

  /** Conjugating a vector yields a vector: the real part vanishes. */
  lemma SandwichIsPure(q: Quaternion, v: Vector3)
    ensures q.Times(Pure(v)).Times(q.Conjugate()) == Pure(q.Sandwich(v))
  {
    SandwichScalars(q.w, q.x, q.y, q.z, v.x, v.y, v.z);
  }

  /** Rotations compose as quaternions multiply. */
  lemma SandwichComposes(a: Quaternion, b: Quaternion, v: Vector3)
    ensures a.Times(b).Sandwich(v) == a.Sandwich(b.Sandwich(v))
  {
    var p := Pure(v);
    calc {
      a.Times(b).Times(p).Times(a.Times(b).Conjugate());
      { ConjugateOfProduct(a, b); Associative(a, b, p); }
      a.Times(b.Times(p)).Times(b.Conjugate().Times(a.Conjugate()));
      { Associative(a.Times(b.Times(p)), b.Conjugate(), a.Conjugate()); }
      a.Times(b.Times(p)).Times(b.Conjugate()).Times(a.Conjugate());
      { Associative(a, b.Times(p), b.Conjugate()); }
      a.Times(b.Times(p).Times(b.Conjugate())).Times(a.Conjugate());
      { SandwichIsPure(b, v); }
      a.Times(Pure(b.Sandwich(v))).Times(a.Conjugate());
    }
  }

  lemma BodyChange(v: Vector3)
    ensures FLU_FRD.Sandwich(v) == FluToFrd(v)
  {
  }

  lemma WorldChangeScalars(h: real, a: real, b: real)
    ensures -(-(h * a) - h * b) * h == h * h * (a + b)
    ensures (h * b - h * a) * h == h * h * (b - a)
    ensures (h * a) * h == h * h * a
  {
  }

  lemma WorldChange(h: real, v: Vector3)
    ensures NedEnu(h).Sandwich(v) == PositionNedToEnu(v).Scaled(2.0 * h * h)
  {
    WorldChangeScalars(h, v.x, v.y);
    WorldChangeScalars(h, v.z, v.z);
  }

  /** The commuting square, for every quaternion, every vector and every `h`: turning a body vector
      by the converted attitude is converting the vector turned by the original attitude. */
  lemma AttitudeConversionCommutes(q: Quaternion, v: Vector3, h: real)
    ensures AttitudeNedToEnu(q, h).Sandwich(v)
         == PositionNedToEnu(q.Sandwich(FluToFrd(v))).Scaled(2.0 * h * h)
  {
    SandwichComposes(NedEnu(h).Times(q), FLU_FRD, v);
    SandwichComposes(NedEnu(h), q, FLU_FRD.Sandwich(v));
    BodyChange(v);
    WorldChange(h, q.Sandwich(FluToFrd(v)));
  }

  /** There and back: the composition scales by `2 h^2`, so it is the identity exactly when `2 h^2 == 1`. */
  lemma AttitudeRoundTrip(q: Quaternion, h: real)
    ensures AttitudeEnuToNed(AttitudeNedToEnu(q, h), h) == q.Scaled(2.0 * h * h)
    ensures AttitudeNedToEnu(AttitudeEnuToNed(q, h), h) == q.Scaled(2.0 * h * h)
  {
    RoundTripScalars(h, q.w, q.z);
    RoundTripScalars(h, q.x, q.y);
    RoundTripScalars(h, q.y, q.x);
    RoundTripScalars(h, q.z, q.w);
  }

  lemma RoundTripScalars(h: real, a: real, b: real)
    ensures h * (h * a + h * b) + h * (h * a - h * b) == 2.0 * h * h * a
    ensures h * (h * a + h * b) - h * (h * b - h * a) == 2.0 * h * h * a
  {
  }

  lemma AttitudeRoundTripExact(h: real)
    ensures (forall q: Quaternion :: AttitudeEnuToNed(AttitudeNedToEnu(q, h), h) == q) <==> 2.0 * h * h == 1.0
  {
    var k := 2.0 * h * h;
    if k == 1.0 {
      forall q: Quaternion
        ensures AttitudeEnuToNed(AttitudeNedToEnu(q, h), h) == q
      {
        AttitudeRoundTrip(q, h);
      }
    } else {
      var one := Quaternion(1.0, 0.0, 0.0, 0.0);
      AttitudeRoundTrip(one, h);
      assert AttitudeEnuToNed(AttitudeNedToEnu(one, h), h).w == k;
    }
  }

  // ---- The matrix library's own product of a quaternion and a vector ----

  /** Relabels the axes x, y, z as y, z, x. */
  function Cycled(v: Vector3): Vector3 { Vector3(v.y, v.z, v.x) }
  function CycledQuaternion(q: Quaternion): Quaternion { Quaternion(q.w, q.y, q.z, q.x) }

  lemma RotateX(q: Quaternion, v: Vector3)
    ensures var u := q.Imaginary().Cross(v).Scaled(2.0);
      q.Rotate(v).x == v.x + q.w * u.x + (q.y * u.z - q.z * u.y)
  {
  }

  lemma SandwichX(q: Quaternion, v: Vector3)
    ensures var r := q.Times(Pure(v));
      q.Sandwich(v).x == r.w * (-q.x) + r.x * q.w + r.y * (-q.z) - r.z * (-q.y)
  {
  }

  lemma CrossParts(q: Quaternion, v: Vector3)
    ensures q.Imaginary().Cross(v).Scaled(2.0)
         == Vector3(2.0 * (q.y * v.z - q.z * v.y), 2.0 * (q.z * v.x - q.x * v.z), 2.0 * (q.x * v.y - q.y * v.x))
  {
  }

  lemma NothingTimes(k: real, zero: real)
    requires zero == 0.0
    ensures k * zero == 0.0
  {
  }

  lemma PureParts(q: Quaternion, v: Vector3)
    ensures q.Times(Pure(v))
         == Quaternion(-q.x * v.x - q.y * v.y - q.z * v.z, q.w * v.x + q.y * v.z - q.z * v.y,
                       q.w * v.y - q.x * v.z + q.z * v.x, q.w * v.z + q.x * v.y - q.y * v.x)
  {
    var p := Pure(v);
    TimesParts(q, p);
    NothingTimes(q.w, p.w);
    NothingTimes(q.x, p.w);
    NothingTimes(q.y, p.w);
    NothingTimes(q.z, p.w);
    hide Quaternion.Times;
    assert -q.x * v.x == -(q.x * v.x);
  }

  lemma RotateVersusSandwichX(q: Quaternion, v: Vector3)
    ensures q.Rotate(v).x == q.Sandwich(v).x + (1.0 - q.SquaredNorm()) * v.x
  {
    hide Quaternion.Rotate, Quaternion.Sandwich, Quaternion.Times, Quaternion.Imaginary, Vector3.Cross, Vector3.Scaled;
    RotateX(q, v);
    SandwichX(q, v);
    CrossParts(q, v);
    PureParts(q, v);
    var u := q.Imaginary().Cross(v).Scaled(2.0);
    var r := q.Times(Pure(v));
    assert v.x + q.w * u.x + (q.y * u.z - q.z * u.y) == r.w * (-q.x) + r.x * q.w + r.y * (-q.z) - r.z * (-q.y) +
      (1.0 - q.SquaredNorm()) * v.x;
  }

  lemma CyclingRotatesX(q: Quaternion, v: Vector3)
    ensures CycledQuaternion(q).Rotate(Cycled(v)).x == Cycled(q.Rotate(v)).x
  {
  }

  lemma CyclingRotatesY(q: Quaternion, v: Vector3)
    ensures CycledQuaternion(q).Rotate(Cycled(v)).y == Cycled(q.Rotate(v)).y
  {
  }

  lemma CyclingRotatesZ(q: Quaternion, v: Vector3)
    ensures CycledQuaternion(q).Rotate(Cycled(v)).z == Cycled(q.Rotate(v)).z
  {
  }

  lemma CyclingRotates(q: Quaternion, v: Vector3)
    ensures CycledQuaternion(q).Rotate(Cycled(v)) == Cycled(q.Rotate(v))
  {
    hide Quaternion.Rotate, Cycled, CycledQuaternion;
    CyclingRotatesX(q, v);
    CyclingRotatesY(q, v);
    CyclingRotatesZ(q, v);
  }

  lemma CyclingSandwiches(q: Quaternion, v: Vector3)
    ensures CycledQuaternion(q).Sandwich(Cycled(v)) == Cycled(q.Sandwich(v))
  {
  }

  lemma CyclingKeepsNorm(q: Quaternion)
    ensures CycledQuaternion(q).SquaredNorm() == q.SquaredNorm()
  {
  }

  /** It differs from the rotation by a multiple of the vector that vanishes for unit quaternions. */
  lemma RotateVersusSandwich(q: Quaternion, v: Vector3)
    ensures q.Rotate(v) == q.Sandwich(v).Plus(v.Scaled(1.0 - q.SquaredNorm()))
  {
    var q1, v1 := CycledQuaternion(q), Cycled(v);
    var q2, v2 := CycledQuaternion(q1), Cycled(v1);
    RotateVersusSandwichX(q, v);
    RotateVersusSandwichX(q1, v1);
    RotateVersusSandwichX(q2, v2);
    CyclingRotates(q, v);
    CyclingRotates(q1, v1);
    CyclingSandwiches(q, v);
    CyclingSandwiches(q1, v1);
    CyclingKeepsNorm(q);
    CyclingKeepsNorm(q1);
    hide Quaternion.Rotate, Quaternion.Sandwich, Quaternion.SquaredNorm;
    assert q.Rotate(v) == q.Sandwich(v).Plus(v.Scaled(1.0 - q.SquaredNorm()));
  }

  lemma NormScalars(h: real, w: real, x: real, y: real, z: real)
    requires 2.0 * h * h == 1.0
    ensures (-h * x - h * y) * (-h * x - h * y) + (h * w + h * z) * (h * w + h * z)
            + (h * w - h * z) * (h * w - h * z) + (h * y - h * x) * (h * y - h * x)
         == w * w + x * x + y * y + z * z
  {
    var s := w * w + x * x + y * y + z * z;
    assert (-h * x - h * y) * (-h * x - h * y) + (h * w + h * z) * (h * w + h * z)
           + (h * w - h * z) * (h * w - h * z) + (h * y - h * x) * (h * y - h * x) == 2.0 * h * h * s;
  }

  lemma ConversionKeepsNorm(q: Quaternion, h: real)
    requires 2.0 * h * h == 1.0
    ensures AttitudeNedToEnu(q, h).SquaredNorm() == q.SquaredNorm()
  {
    NormScalars(h, q.w, q.x, q.y, q.z);
  }

  /** What the two sides of the square are with that product. */
  lemma RotateSides(q: Quaternion, h: real, v: Vector3)
    requires 2.0 * h * h == 1.0
    ensures AttitudeNedToEnu(q, h).Rotate(v)
         == PositionNedToEnu(q.Sandwich(FluToFrd(v))).Plus(v.Scaled(1.0 - q.SquaredNorm()))
    ensures PositionNedToEnu(q.Rotate(FluToFrd(v)))
         == PositionNedToEnu(q.Sandwich(FluToFrd(v))).Plus(PositionNedToEnu(FluToFrd(v)).Scaled(1.0 - q.SquaredNorm()))
  {
    hide Quaternion.Rotate, Quaternion.Sandwich, Quaternion.SquaredNorm, AttitudeNedToEnu, PositionNedToEnu, FluToFrd,
      Vector3.Plus, Vector3.Scaled;
    AttitudeConversionCommutes(q, v, h);
    ScaledByOne(PositionNedToEnu(q.Sandwich(FluToFrd(v))), 2.0 * h * h);
    ConversionKeepsNorm(q, h);
    RotateVersusSandwich(AttitudeNedToEnu(q, h), v);
    RotateVersusSandwich(q, FluToFrd(v));
    PositionIsLinear(q.Sandwich(FluToFrd(v)), FluToFrd(v), 1.0 - q.SquaredNorm());
  }

  lemma ScaledByOne(v: Vector3, k: real)
    requires k == 1.0
    ensures v.Scaled(k) == v
  {
  }

  lemma PositionIsLinear(a: Vector3, b: Vector3, k: real)
    ensures PositionNedToEnu(a.Plus(b.Scaled(k))) == PositionNedToEnu(a).Plus(PositionNedToEnu(b).Scaled(k))
  {
    assert -(k * b.z) == k * -b.z;
  }

  lemma NothingAdded(base: Vector3, v: Vector3, k: real)
    requires k == 0.0
    ensures base.Plus(v.Scaled(k)) == base
  {
  }

  lemma SomethingAdded(l: Vector3, r: Vector3, base: Vector3, v: Vector3, w: Vector3, k: real)
    requires l == base.Plus(v.Scaled(k)) && r == base.Plus(w.Scaled(k))
    requires v.x == 1.0 && w.x == 0.0 && k != 0.0
    ensures l != r
  {
    assert l.x == base.x + k && r.x == base.x;
  }

  lemma UnitCommutes(q: Quaternion, h: real, v: Vector3)
    requires 2.0 * h * h == 1.0 && q.SquaredNorm() == 1.0
    ensures AttitudeNedToEnu(q, h).Rotate(v) == PositionNedToEnu(q.Rotate(FluToFrd(v)))
  {
    var base, k := PositionNedToEnu(q.Sandwich(FluToFrd(v))), 1.0 - q.SquaredNorm();
    RotateSides(q, h, v);
    NothingAdded(base, v, k);
    NothingAdded(base, PositionNedToEnu(FluToFrd(v)), k);
  }

  lemma FirstAxisTurns()
    ensures PositionNedToEnu(FluToFrd(Vector3(1.0, 0.0, 0.0))) == Vector3(0.0, 1.0, 0.0)
  {
  }

  lemma NonUnitFails(q: Quaternion, h: real)
    requires 2.0 * h * h == 1.0 && q.SquaredNorm() != 1.0
    ensures exists v: Vector3 :: AttitudeNedToEnu(q, h).Rotate(v) != PositionNedToEnu(q.Rotate(FluToFrd(v)))
  {
    var k, v := 1.0 - q.SquaredNorm(), Vector3(1.0, 0.0, 0.0);
    hide *;
    FirstAxisTurns();
    RotateSides(q, h, v);
    SomethingAdded(AttitudeNedToEnu(q, h).Rotate(v), PositionNedToEnu(q.Rotate(FluToFrd(v))),
                   PositionNedToEnu(q.Sandwich(FluToFrd(v))), v, PositionNedToEnu(FluToFrd(v)), k);
  }

  /** With that product the square commutes for all vectors exactly for unit quaternions. */
  lemma RotateCommutesIffUnit(q: Quaternion, h: real)
    requires 2.0 * h * h == 1.0
    ensures (forall v: Vector3 :: AttitudeNedToEnu(q, h).Rotate(v) == PositionNedToEnu(q.Rotate(FluToFrd(v))))
       <==> q.SquaredNorm() == 1.0
  {
    if q.SquaredNorm() == 1.0 {
      forall v: Vector3 {
        UnitCommutes(q, h, v);
      }
    } else {
      NonUnitFails(q, h);
    }
  }

  /** The body frame change is its own inverse, and so is the world frame change. */
  lemma PositionRoundTrips(v: Vector3)
    ensures PositionEnuToNed(PositionNedToEnu(v)) == v && PositionNedToEnu(PositionEnuToNed(v)) == v
    ensures FrdToFlu(FluToFrd(v)) == v && FluToFrd(FrdToFlu(v)) == v
  {
  }

  /** Yaw there and back is the wrapped yaw, whatever the input. */
  lemma YawRoundTrip(yaw: real)
    ensures YawEnuToNed(YawNedToEnu(yaw)) == WrapOf(yaw)
    ensures YawNedToEnu(YawEnuToNed(yaw)) == WrapOf(yaw)
  {
    var half := M_PI / 2.0 - yaw;
    var turns := -TurnsOver(half);
    assert YawNedToEnu(yaw) == Turned(half, turns);
    assert M_PI / 2.0 - Turned(half, turns) == Turned(yaw, -turns);
    WrapOfTurned(yaw, -turns);
  }

  /** North is a yaw of zero in NED and a quarter turn in ENU, east the other way round; and turning right by an angle,
      which adds it in NED, subtracts it in ENU. */
  lemma YawTurns(yaw: real, right: real)
    ensures YawNedToEnu(0.0) == M_PI / 2.0 == YawEnuToNed(0.0)
    ensures YawNedToEnu(M_PI / 2.0) == 0.0 == YawEnuToNed(M_PI / 2.0)
    ensures SameDirection(YawNedToEnu(yaw + right), YawNedToEnu(yaw) - right)
    ensures SameDirection(YawEnuToNed(yaw + right), YawEnuToNed(yaw) - right)
  {
    hide WrapOf;
    WrapsToItself(M_PI / 2.0);
    WrapsToItself(0.0);
    var before, after := M_PI / 2.0 - yaw, M_PI / 2.0 - (yaw + right);
    var m :| Turned(before, m) == WrapOf(before);
    var n :| Turned(after, n) == WrapOf(after);
    TurnedTwice(after, n, m - n);
    assert Turned(WrapOf(after), m - n) == WrapOf(before) - right;
  }

  lemma WrapsToItself(angle: real)
    requires Wrapped(angle)
    ensures WrapOf(angle) == angle
  {
    hide WrapOf;
    assert SameDirection(angle, WrapOf(angle));
    WrappedIsUnique(angle, WrapOf(angle));
  }

  /** The way ahead at a yaw. */
  function Ahead(cos: real -> real, sin: real -> real, yaw: real): Vector3 {
    Vector3(cos(yaw), sin(yaw), 0.0)
  }

  /** What is needed of the sine and the cosine. */
  ghost predicate Circular(cos: real -> real, sin: real -> real) {
    && (forall a :: cos(M_PI / 2.0 - a) == sin(a) && sin(M_PI / 2.0 - a) == cos(a))
    && (forall a, b :: SameDirection(a, b) ==> cos(a) == cos(b) && sin(a) == sin(b))
  }

  /** The conversions of yaw and of position agree on the way ahead. */
  lemma YawFollowsPosition(cos: real -> real, sin: real -> real, yaw: real)
    requires Circular(cos, sin)
    ensures Ahead(cos, sin, YawNedToEnu(yaw)) == PositionNedToEnu(Ahead(cos, sin, yaw))
    ensures Ahead(cos, sin, YawEnuToNed(yaw)) == PositionEnuToNed(Ahead(cos, sin, yaw))
  {
    hide WrapOf, SameDirection;
    var angle := M_PI / 2.0 - yaw;
    assert SameDirection(angle, WrapOf(angle));
    assert cos(angle) == sin(yaw) && sin(angle) == cos(yaw);
  }
}
