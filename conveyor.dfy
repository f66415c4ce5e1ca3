/** The conveyor arithmetic of draw (src/main.cpp:758-790): objects 1..14 are
    phase-spaced along a vertical drop that repeats every loopHeight / speed
    seconds. C's fmod is written out over the reals. */
module Conveyor {
  import opened Vectors

  const Speed: real := 1.5
  const LoopHeight: real := 15.0
  const NumObjects: int := 15
  const Spacing: real := LoopHeight / NumObjects as real
  const TotalLoopTime: real := LoopHeight / Speed

  function Abs(x: real): real { if x < 0.0 then -x else x }

  predicate IsInteger(x: real) { x == x.Floor as real }

  /** Rounding toward zero. */
  function Trunc(x: real): (n: int)
    ensures 0.0 <= x ==> n as real <= x < n as real + 1.0
    ensures x < 0.0 ==> n as real - 1.0 < x <= n as real
  {
    if x >= 0.0 then x.Floor else -((-x).Floor)
  }

  /** C's fmod: the remainder of a truncating division, which takes the sign
      of the dividend. */
  function Fmod(a: real, b: real): (r: real)
    requires b != 0.0
    ensures 0.0 <= a ==> 0.0 <= r
    ensures a <= 0.0 ==> r <= 0.0
    ensures Abs(r) < Abs(b)
    ensures IsInteger((a - r) / b)
  {
    var n := Trunc(a / b);
    FmodBounds(a, b, n);
    a - b * n as real
  }

  lemma FmodBounds(a: real, b: real, n: int)
    requires b != 0.0 && n == Trunc(a / b)
    ensures var r := a - b * n as real;
      && (0.0 <= a ==> 0.0 <= r)
      && (a <= 0.0 ==> r <= 0.0)
      && Abs(r) < Abs(b)
      && IsInteger((a - r) / b)
  {
    var q := a / b;
    var f := q - n as real;
    assert a - b * n as real == f * b by {
      assert a == q * b;
    }
    assert (a - (a - b * n as real)) / b == n as real;
    assert -1.0 < f < 1.0;
    assert 0.0 <= q ==> 0.0 <= f;
    assert q <= 0.0 ==> f <= 0.0;
    FractionTimes(f, b);
    QuotientSign(a, b);
  }

  /** A fraction strictly between -1 and 1 of b is smaller than b, and its
      sign is the product of the signs. */
  lemma FractionTimes(f: real, b: real)
    requires -1.0 < f < 1.0 && b != 0.0
    ensures Abs(f * b) < Abs(b)
    ensures (0.0 <= f) == (0.0 < b) ==> 0.0 <= f * b
    ensures (f <= 0.0) == (0.0 < b) ==> f * b <= 0.0
  {
    if b > 0.0 {
      assert (1.0 - f) * b > 0.0;
      assert (f + 1.0) * b > 0.0;
    } else {
      assert (1.0 - f) * -b > 0.0;
      assert (f + 1.0) * -b > 0.0;
    }
  }

  lemma QuotientSign(a: real, b: real)
    requires b != 0.0
    ensures 0.0 <= a && 0.0 < b ==> 0.0 <= a / b
    ensures 0.0 <= a && b < 0.0 ==> a / b <= 0.0
    ensures a <= 0.0 && 0.0 < b ==> a / b <= 0.0
    ensures a <= 0.0 && b < 0.0 ==> 0.0 <= a / b
  {
  }

  /** How long after the start of the cycle object i is launched: the
      fifteen objects are spread evenly over one cycle. */
  function StartOffset(i: int): (t: real)
    ensures 0 <= i < NumObjects ==> 0.0 <= t < TotalLoopTime
    ensures t * NumObjects as real == i as real * TotalLoopTime
  {
    i as real * (LoopHeight / Speed / NumObjects as real)
  }

  /** The object's time within the cycle: always in [0, totalLoopTime), and
      equal to its shifted clock up to whole cycles, whatever the clock. */
  function ElapsedTime(currentTime: real, i: int): (e: real)
    ensures 0.0 <= e < TotalLoopTime
    ensures IsInteger((currentTime - StartOffset(i) - e) / TotalLoopTime)
  {
    var shifted := currentTime - StartOffset(i);
    var e := Fmod(shifted + TotalLoopTime, TotalLoopTime);
    ShiftByCycles(shifted, e);
    if e < 0.0 then e + TotalLoopTime else e
  }

  lemma ShiftByCycles(shifted: real, e: real)
    requires IsInteger((shifted + TotalLoopTime - e) / TotalLoopTime)
    ensures IsInteger((shifted - e) / TotalLoopTime)
    ensures IsInteger((shifted - (e + TotalLoopTime)) / TotalLoopTime)
  {
    var k := (shifted + TotalLoopTime - e) / TotalLoopTime;
    assert (shifted - e) / TotalLoopTime == k - 1.0;
    assert (shifted - (e + TotalLoopTime)) / TotalLoopTime == k - 2.0;
    assert k == k.Floor as real;
    assert (k - 1.0).Floor == k.Floor - 1;
    assert (k - 2.0).Floor == k.Floor - 2;
  }

  /** The height of an object that is e seconds into its cycle. Whatever e,
      it is positive; inside a cycle it drops linearly from loopHeight. */
  function YOffset(e: real): (y: real)
    ensures 0.0 < y < 2.0 * LoopHeight
    ensures 0.0 <= e < TotalLoopTime ==> y == LoopHeight - e * Speed && 0.0 < y <= LoopHeight
  {
    InCycleFmod(e);
    LoopHeight - Fmod(e * Speed, LoopHeight)
  }

  lemma InCycleFmod(e: real)
    ensures 0.0 <= e < TotalLoopTime ==> Fmod(e * Speed, LoopHeight) == e * Speed
  {
    if 0.0 <= e < TotalLoopTime {
      SmallFmod(e * Speed, LoopHeight);
    }
  }

  /** fmod leaves a dividend in [0, b) as it is. */
  lemma SmallFmod(a: real, b: real)
    requires 0.0 <= a < b
    ensures Fmod(a, b) == a
  {
    var q := a / b;
    assert q * b == a;
    assert (1.0 - q) * b == b - a;
    FactorSign(q, b, a);
    FactorSign(1.0 - q, b, b - a);
    assert Trunc(q) == 0;
  }

  /** A product with a positive factor has the sign of the other factor. */
  lemma FactorSign(x: real, c: real, p: real)
    requires 0.0 < c && x * c == p
    ensures 0.0 <= p ==> 0.0 <= x
    ensures 0.0 < p ==> 0.0 < x
  {
    assert x == p / c;
  }

  /** The animation offset passed to renderObject for object i. */
  function Offset(glm: Glm, currentTime: real, i: int): (offset: Vec3)
    ensures 0.0 < offset.y <= LoopHeight
    ensures offset.y == LoopHeight - ElapsedTime(currentTime, i) * Speed
  {
    var e := ElapsedTime(currentTime, i);
    var phase := e * Speed / LoopHeight + i as real;
    Vec3(glm.sin(phase) * 2.0, YOffset(e), glm.cos(phase) * 1.0)
  }

  /** draw submits object i only when its height is at least -spacing. */
  predicate Visible(offset: Vec3) {
    offset.y >= -Spacing
  }

  /** So every conveyor object is drawn on every frame. */
  lemma AlwaysVisible(glm: Glm, currentTime: real, i: int)
    ensures Visible(Offset(glm, currentTime, i))
  {
  }

  /** At time 0 object 1 is two thirds of a second from launch, 28/3 seconds
      into its cycle, and one unit above the bottom of the drop. */
  lemma FirstObjectAtTimeZero(glm: Glm)
    ensures StartOffset(1) == 2.0 / 3.0
    ensures ElapsedTime(0.0, 1) == 28.0 / 3.0
    ensures Offset(glm, 0.0, 1).y == 1.0
  {
    var shifted := 0.0 - StartOffset(1) + TotalLoopTime;
    assert shifted == 28.0 / 3.0;
    SmallFmod(shifted, TotalLoopTime);
  }
}
