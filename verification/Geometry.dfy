/** Angles: unit conversion and wrapping, over the reals. */
module Geometry {
  const M_PI: real := 3.14159265358979323846

  function RadToDeg(rad: real): real {
    rad * (180.0 / M_PI)
  }

  function DegToRad(deg: real): real {
    deg * (M_PI / 180.0)
  }

  lemma DegreesRoundTrip(angle: real)
    ensures DegToRad(RadToDeg(angle)) == angle
    ensures RadToDeg(DegToRad(angle)) == angle
  {
    assert (180.0 / M_PI) * (M_PI / 180.0) == 1.0;
    calc {
      DegToRad(RadToDeg(angle));
      angle * ((180.0 / M_PI) * (M_PI / 180.0));
      angle;
    }
    calc {
      RadToDeg(DegToRad(angle));
      angle * ((M_PI / 180.0) * (180.0 / M_PI));
      angle;
    }
  }

  /** Two angles that point the same way: they differ by a whole number of turns. */
  ghost predicate SameDirection(a: real, b: real) {
    exists turns: int :: Turned(a, turns) == b
  }

  function Turned(angle: real, turns: int): real {
    angle + turns as real * (2.0 * M_PI)
  }

  predicate Wrapped(angle: real) {
    -M_PI <= angle < M_PI
  }

  lemma TurnedTwice(angle: real, m: int, n: int)
    ensures Turned(Turned(angle, m), n) == Turned(angle, m + n)
  {
    assert (m + n) as real == m as real + n as real;
  }

  lemma SameDirectionIsEquivalence(a: real, b: real, c: real)
    ensures SameDirection(a, a)
    ensures SameDirection(a, b) ==> SameDirection(b, a)
    ensures SameDirection(a, b) && SameDirection(b, c) ==> SameDirection(a, c)
  {
    assert Turned(a, 0) == a;
    if SameDirection(a, b) {
      var m :| Turned(a, m) == b;
      TurnedTwice(a, m, -m);
      assert Turned(b, -m) == a;
      if SameDirection(b, c) {
        var n :| Turned(b, n) == c;
        TurnedTwice(a, m, n);
        assert Turned(a, m + n) == c;
      }
    }
  }

  lemma AtLeastOneTurn(turns: int)
    ensures turns >= 1 ==> turns as real * (2.0 * M_PI) >= 2.0 * M_PI
    ensures turns <= -1 ==> turns as real * (2.0 * M_PI) <= -(2.0 * M_PI)
  {
  }

  /** The wrapped representative of a direction is unique. */
  lemma WrappedIsUnique(a: real, b: real)
    requires Wrapped(a) && Wrapped(b) && SameDirection(a, b)
    ensures a == b
  {
    var turns :| Turned(a, turns) == b;
    AtLeastOneTurn(turns);
  }

  /** Whole turns to subtract so that the angle lands in [-pi, pi). */
  function TurnsOver(angle: real): int {
    ((angle + M_PI) / (2.0 * M_PI)).Floor
  }

  /** The wrapped angle in closed form, the reference that the loop is proved against. */
  function WrapOf(angle: real): (r: real)
    ensures Wrapped(r) && SameDirection(angle, r)
  {
    var q := (angle + M_PI) / (2.0 * M_PI);
    var r := Turned(angle, -TurnsOver(angle));
    assert Wrapped(r) by {
      assert q * (2.0 * M_PI) == angle + M_PI;
      var f := q.Floor as real;
      assert f <= q < f + 1.0;
      assert r + M_PI == (q - f) * (2.0 * M_PI);
    }
    r
  }

  lemma WrapOfTurned(angle: real, turns: int)
    ensures WrapOf(Turned(angle, turns)) == WrapOf(angle)
  {
    var other := Turned(angle, turns);
    assert SameDirection(angle, other);
    SameDirectionIsEquivalence(angle, other, other);
    SameDirectionIsEquivalence(WrapOf(other), other, other);
    SameDirectionIsEquivalence(other, angle, WrapOf(angle));
    SameDirectionIsEquivalence(other, WrapOf(other), WrapOf(other));
    SameDirectionIsEquivalence(WrapOf(other), other, WrapOf(angle));
    WrappedIsUnique(WrapOf(other), WrapOf(angle));
  }

  method WrapPi(angle: real) returns (wrapped: real)
    ensures wrapped == WrapOf(angle)
    ensures Wrapped(wrapped) && SameDirection(angle, wrapped)
  {
    wrapped := angle;
    ghost var turns := 0;
    assert Turned(angle, 0) == angle;
    while wrapped >= M_PI
      invariant wrapped == Turned(angle, turns)
      invariant wrapped >= -M_PI || wrapped == angle
      decreases (wrapped + M_PI).Floor
    {
      wrapped, turns := wrapped - 2.0 * M_PI, turns - 1;
    }
    while wrapped < -M_PI
      invariant wrapped == Turned(angle, turns)
      invariant wrapped < M_PI
      decreases (-wrapped).Floor
    {
      wrapped, turns := wrapped + 2.0 * M_PI, turns + 1;
    }
    assert SameDirection(angle, wrapped);
    SameDirectionIsEquivalence(angle, wrapped, wrapped);
    SameDirectionIsEquivalence(wrapped, angle, WrapOf(angle));
    WrappedIsUnique(wrapped, WrapOf(angle));
  }
}
