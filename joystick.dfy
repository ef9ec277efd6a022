/** A model of the BB-8 joystick adapter: a LEGO Move Hub whose motor A and
    external motor C act as the two axes of a joystick, whose motor B is a
    rotary dial and whose green button is a push button.

    The hub and its notification subscriptions are not modelled; each
    subscription is a method of `Joystick` that receives the raw value the hub
    would deliver.  Listener callbacks are external code: an update returns the
    batch of calls it makes, one `Call` per invoked listener. */
module BB8Joystick {

  datatype Option<+T> = None | Some(value: T)

  /** Half-width of the range each joystick axis is clamped to, in degrees. */
  const Spread: int := 25

  /** `sys.maxsize` on a 64-bit interpreter: the sentinel that replaces the
      ratio of the two axes when the C axis reads zero. */
  const MaxSize: int := 0x7FFF_FFFF_FFFF_FFFF

  // ---------------------------------------------------------------------
  // Range and normalisation helpers
  // ---------------------------------------------------------------------

  /** `max(lo, min(value, hi))`.  When the bounds are crossed the lower
      bound wins, as it does for Python's `max`/`min`. */
  function Clamp(lo: int, value: int, hi: int): (r: int)
    ensures lo <= hi ==> lo <= r <= hi
    ensures lo <= value <= hi ==> r == value
    ensures value < lo ==> r == lo
    ensures lo <= hi < value ==> r == hi
    ensures hi < lo ==> r == lo
  {
    var m := if value < hi then value else hi;
    if lo < m then m else lo
  }

  /** Clamping a clamped value changes nothing. */
  lemma ClampIdempotent(lo: int, value: int, hi: int)
    ensures Clamp(lo, Clamp(lo, value, hi), hi) == Clamp(lo, value, hi)
  {
  }

  /** The value the motor A and motor C wrappers forward to their callback:
      the raw encoder angle clamped to [-Spread, Spread]. */
  function MotorAngle(raw: int): (angle: int)
    ensures -Spread <= angle <= Spread
    ensures -Spread <= raw <= Spread ==> angle == raw
    ensures raw < -Spread ==> angle == -Spread
    ensures raw > Spread ==> angle == Spread
  {
    Clamp(-Spread, raw, Spread)
  }

  /** The value the motor B (`on_rotation`) wrapper forwards: `angle % 360`,
      then `val if val >= 0 else 360 - val`.  Python's `%` with a positive
      divisor is never negative, and so is Dafny's, so `r` is exactly the
      residue: the second branch is never taken. */
  function RotationAngle(raw: int): (r: int)
    ensures 0 <= r < 360
    ensures (raw - r) % 360 == 0
    ensures r == raw % 360
    ensures 0 <= raw < 360 ==> r == raw
  {
    var val := raw % 360;
    if val >= 0 then val else 360 - val
  }

  /** What the `on_button` wrapper passes to its callback: states 0 and 1
      become `false` and `true`; any other state is dropped. */
  function ButtonFilter(state: int): (r: Option<bool>)
    ensures r.Some? <==> state == 0 || state == 1
    ensures r == Some(false) <==> state == 0
    ensures r == Some(true) <==> state == 1
  {
    if state == 0 || state == 1 then Some(state != 0) else None
  }

  // ---------------------------------------------------------------------
  // The joystick vector
  // ---------------------------------------------------------------------

  /** `angle / 25` (true division). */
  function Norm(angle: int): (r: real)
    ensures r * Spread as real == angle as real
    ensures -Spread <= angle <= Spread ==> -1.0 <= r <= 1.0
  {
    angle as real / Spread as real
  }

  lemma NormSign(angle: int)
    ensures Norm(angle) >= 0.0 <==> angle >= 0
    ensures Norm(angle) == 0.0 <==> angle == 0
  {
  }

  /** The argument of the arctangent: `norm_a / norm_b` when `norm_b` is
      non-zero, otherwise the sentinel `maxsize`, signed by `norm_a`. */
  function Ratio(normA: real, normB: real): (r: real)
    ensures normB != 0.0 ==> r * normB == normA
    ensures normB == 0.0 ==> r == MaxSize as real || r == -(MaxSize as real)
    ensures normB == 0.0 ==> (r > 0.0 <==> normA >= 0.0)
  {
    var maxsize := if normA >= 0.0 then MaxSize as real else -(MaxSize as real);
    if normB != 0.0 then normA / normB else maxsize
  }

  /** What the model assumes of the arctangent, in degrees, at one point `x`:
      `theta` lies in [-90, 90] and has the sign of `x`; it is strictly inside
      (-90, 90) for every ratio two in-range readings can form, |x| <= 25;
      at the sentinel the double-precision arctangent has saturated to
      exactly +-90. */
  predicate IsArctanDeg(x: real, theta: real)
  {
    && -90.0 <= theta <= 90.0
    && (x > 0.0 ==> theta > 0.0)
    && (x < 0.0 ==> theta < 0.0)
    && (x == 0.0 ==> theta == 0.0)
    && (-25.0 <= x <= 25.0 ==> -90.0 < theta < 90.0)
    && (x == MaxSize as real ==> theta == 90.0)
    && (x == -(MaxSize as real) ==> theta == -90.0)
  }

  /** `atan` (already scaled by 180/pi) behaves as `IsArctanDeg` says everywhere. */
  ghost predicate ArctanLaw(atan: real -> real)
  {
    forall x :: IsArctanDeg(x, atan(x))
  }

  /** One function that meets `ArctanLaw`, so the law is consistent: a
      coarse, piecewise-linear stand-in for the arctangent. */
  function SaturatingArctan(x: real): real
  {
    if x >= MaxSize as real then 90.0
    else if x <= -(MaxSize as real) then -90.0
    else if x >= 1.0 then 89.0
    else if x <= -1.0 then -89.0
    else 45.0 * x
  }

  lemma ArctanLawHasModel()
    ensures ArctanLaw(SaturatingArctan)
  {
    forall x: real ensures IsArctanDeg(x, SaturatingArctan(x)) {
      if -1.0 < x < 1.0 {
        assert SaturatingArctan(x) == 45.0 * x;
      }
    }
  }

  /** The four sectors of `_calc_joystick`, tested in the source's order. */
  datatype Sector = First | Second | Third | Fourth

  function SectorOf(normA: real, normB: real): (s: Sector)
    ensures s == First || s == Second <==> normB >= 0.0
    ensures s == Second || s == Third <==> normA < 0.0
  {
    if normA >= 0.0 && normB >= 0.0 then First
    else if normA < 0.0 && normB >= 0.0 then Second
    else if normA < 0.0 && normB < 0.0 then Third
    else Fourth
  }

  /** The angle each sector subtracts the arctangent from. */
  function Offset(s: Sector): (r: real)
    ensures r == 90.0 || r == 270.0
    ensures r == 90.0 <==> s == First || s == Second
  {
    match s
    case First => 90.0
    case Second => 90.0
    case Third => 270.0
    case Fourth => 270.0
  }

  /** The sector tests on the normalised readings agree with sign tests on
      the integer readings, and the four branches reduce to two offsets. */
  lemma SectorBySign(a: int, c: int)
    ensures SectorOf(Norm(a), Norm(c)) == First <==> a >= 0 && c >= 0
    ensures SectorOf(Norm(a), Norm(c)) == Second <==> a < 0 && c >= 0
    ensures SectorOf(Norm(a), Norm(c)) == Third <==> a < 0 && c < 0
    ensures SectorOf(Norm(a), Norm(c)) == Fourth <==> a >= 0 && c < 0
    ensures Offset(SectorOf(Norm(a), Norm(c))) == if c >= 0 then 90.0 else 270.0
  {
    NormSign(a);
    NormSign(c);
  }

  /** Python's `int()` on a float: truncation toward zero. */
  function Trunc(x: real): (r: int)
    ensures 0.0 <= x ==> 0 <= r && r as real <= x < r as real + 1.0
    ensures x < 0.0 ==> r <= 0 && r as real - 1.0 < x <= r as real
  {
    if x >= 0.0 then x.Floor else -((-x).Floor)
  }

  /** `direction` after the sector branch, before truncation. */
  function Heading(a: int, c: int, atan: real -> real): (h: real)
    ensures h + atan(Ratio(Norm(a), Norm(c))) == if c >= 0 then 90.0 else 270.0
  {
    SectorBySign(a, c);
    var normA, normB := Norm(a), Norm(c);
    Offset(SectorOf(normA, normB)) - atan(Ratio(normA, normB))
  }

  /** The direction `_calc_joystick` reports: `359 - int(direction)`. */
  function ReportedDirection(a: int, c: int, atan: real -> real): (d: int)
    ensures Heading(a, c, atan) >= 0.0 ==> (359 - d) as real <= Heading(a, c, atan) < (360 - d) as real
    ensures Heading(a, c, atan) < 0.0 ==> (358 - d) as real < Heading(a, c, atan) <= (359 - d) as real
  {
    359 - Trunc(Heading(a, c, atan))
  }

  /** When the C reading is zero the sentinel stands in for the ratio, with
      the sign of the A reading. */
  lemma SentinelSign(a: int, c: int)
    requires c == 0
    ensures Ratio(Norm(a), Norm(c)) == if a >= 0 then MaxSize as real else -(MaxSize as real)
    ensures Ratio(Norm(a), Norm(c)) > 0.0 <==> a >= 0
  {
    NormSign(a);
    NormSign(c);
  }

  /** With both readings in range and C non-zero, the ratio is at most 25 in
      magnitude, far below the sentinel. */
  lemma RatioBounded(a: int, c: int)
    requires -Spread <= a <= Spread && -Spread <= c <= Spread && c != 0
    ensures -25.0 <= Ratio(Norm(a), Norm(c))
    ensures Ratio(Norm(a), Norm(c)) <= 25.0
    ensures Ratio(Norm(a), Norm(c)) == a as real / c as real
    ensures Ratio(Norm(a), Norm(c)) > 0.0 <==> (a > 0 && c > 0) || (a < 0 && c < 0)
    ensures Ratio(Norm(a), Norm(c)) < 0.0 <==> (a > 0 && c < 0) || (a < 0 && c > 0)
  {
    var x, y := a as real, c as real;
    NormSign(c);
    assert Norm(a) / Norm(c) == x / y by {
      assert Norm(a) == x / 25.0 && Norm(c) == y / 25.0;
      assert (x / 25.0) / (y / 25.0) * (y / 25.0) == x / 25.0;
      assert (x / y) * (y / 25.0) == x / 25.0;
    }
    assert Ratio(Norm(a), Norm(c)) == x / y;
    QuotientBounded(x, y);
  }

  lemma QuotientBounded(x: real, y: real)
    requires -25.0 <= x <= 25.0 && (y >= 1.0 || y <= -1.0)
    ensures -25.0 <= x / y <= 25.0
    ensures x / y > 0.0 <==> (x > 0.0 && y > 0.0) || (x < 0.0 && y < 0.0)
    ensures x / y < 0.0 <==> (x > 0.0 && y < 0.0) || (x < 0.0 && y > 0.0)
  {
    var q := x / y;
    assert q * y == x;
    if y > 0.0 {
      if q > 0.0 { assert q * y > 0.0; }
      if q < 0.0 { assert q * y < 0.0; }
      if q == 0.0 { assert q * y == 0.0; }
    } else {
      if q > 0.0 { assert q * y < 0.0; }
      if q < 0.0 { assert q * y > 0.0; }
      if q == 0.0 { assert q * y == 0.0; }
    }
  }

  /** The doc-comment's promise: for in-range readings the reported
      direction lies in [0, 359], with no `mod 360` needed. */
  lemma ReportedDirectionInRange(a: int, c: int, atan: real -> real)
    requires -Spread <= a <= Spread && -Spread <= c <= Spread
    requires ArctanLaw(atan)
    ensures 0 <= ReportedDirection(a, c, atan) <= 359
    ensures ReportedDirection(a, c, atan) % 360 == ReportedDirection(a, c, atan)
  {
    SectorBySign(a, c);
    var x := Ratio(Norm(a), Norm(c));
    assert IsArctanDeg(x, atan(x));
    if c != 0 {
      RatioBounded(a, c);
    } else {
      SentinelSign(a, c);
    }
  }

  /** Each sign quadrant lands in its own arc of the compass (the source's
      sector 1 covers 269..359 because a zero A reading falls into it). */
  lemma SectorArcs(a: int, c: int, atan: real -> real)
    requires -Spread <= a <= Spread && -Spread <= c <= Spread
    requires ArctanLaw(atan)
    ensures a > 0 && c > 0 ==> 270 <= ReportedDirection(a, c, atan) <= 359
    ensures a == 0 && c > 0 ==> ReportedDirection(a, c, atan) == 269
    ensures a < 0 && c > 0 ==> 180 <= ReportedDirection(a, c, atan) <= 269
    ensures a < 0 && c < 0 ==> 90 <= ReportedDirection(a, c, atan) <= 179
    ensures a >= 0 && c < 0 ==> 0 <= ReportedDirection(a, c, atan) <= 89
  {
    SectorBySign(a, c);
    var x := Ratio(Norm(a), Norm(c));
    assert IsArctanDeg(x, atan(x));
    if c != 0 {
      RatioBounded(a, c);
    }
  }

  /** A zero C reading never divides: the sentinel drives the arctangent to
      +-90, so A >= 0 reports 359 and A < 0 reports 179, opposite sides of
      the compass. */
  lemma SentinelDirections(a: int, atan: real -> real)
    requires ArctanLaw(atan)
    ensures ReportedDirection(a, 0, atan) == if a >= 0 then 359 else 179
  {
    SectorBySign(a, 0);
    SentinelSign(a, 0);
    var x := Ratio(Norm(a), Norm(0));
    assert IsArctanDeg(x, atan(x));
  }

  /** The square of the speed before its defensive clamp:
      `(norm_a ** 2 + norm_b ** 2) / 2`. */
  function SpeedSquared(a: int, c: int): (r: real)
    ensures r * 1250.0 == (a * a + c * c) as real
  {
    (Norm(a) * Norm(a) + Norm(c) * Norm(c)) / 2.0
  }

  /** For in-range readings the speed lies in [0, 1], so the clamp to
      [-1, 1] never binds; it is 0 only at rest and 1 only in the corners. */
  lemma SpeedSquaredBounds(a: int, c: int)
    requires -Spread <= a <= Spread && -Spread <= c <= Spread
    ensures 0.0 <= SpeedSquared(a, c) <= 1.0
    ensures SpeedSquared(a, c) == 0.0 <==> a == 0 && c == 0
    ensures SpeedSquared(a, c) == 1.0 <==> (a == Spread || a == -Spread) && (c == Spread || c == -Spread)
  {
    var x, y := Norm(a), Norm(c);
    assert -1.0 <= x <= 1.0 && -1.0 <= y <= 1.0;
    SquareBelowOne(x);
    SquareBelowOne(y);
    assert SpeedSquared(a, c) == (x * x + y * y) / 2.0;
  }

  lemma SquareBelowOne(x: real)
    requires -1.0 <= x <= 1.0
    ensures 0.0 <= x * x <= 1.0
    ensures x != 0.0 ==> 0.0 < x * x
    ensures x * x == 1.0 <==> x == 1.0 || x == -1.0
  {
    if x > 0.0 {
      assert x * x <= x * 1.0;
      assert 0.0 < x * x;
      if x < 1.0 { assert x * x < x; }
    } else if x < 0.0 {
      assert x * x == (-x) * (-x);
      assert (-x) * (-x) <= (-x) * 1.0;
      assert 0.0 < (-x) * (-x);
      if -1.0 < x { assert (-x) * (-x) < -x; }
      assert x * x > 0.0;
    } else {
      assert x * x == 0.0 * 0.0;
    }
  }

  /** Pushing the A axis further from the centre, with C held, strictly
      increases the speed. */
  lemma SpeedMonotonic(a1: int, a2: int, c: int)
    requires 0 <= a1 < a2
    ensures SpeedSquared(a1, c) < SpeedSquared(a2, c)
  {
    assert a1 * a1 <= a1 * a2 < a2 * a2;
    assert (a1 * a1 + c * c) as real < (a2 * a2 + c * c) as real;
  }

  // ---------------------------------------------------------------------
  // Listener calls
  // ---------------------------------------------------------------------

  /** One invocation `callback(speed, direction)`; the speed is carried as
      its square. */
  datatype Call<L> = Call(listener: L, speedSquared: real, direction: int)

  function Callees<L>(calls: seq<Call<L>>): (r: seq<L>)
    ensures |r| == |calls|
    ensures forall i | 0 <= i < |calls| :: r[i] == calls[i].listener
  {
    if calls == [] then [] else Callees(calls[..|calls| - 1]) + [calls[|calls| - 1].listener]
  }

  /** `calls` is one recomputation's fan-out: every registered listener
      exactly once, each with the vector of readings `a` and `c`. */
  ghost predicate Notifies<L>(calls: seq<Call<L>>, listeners: set<L>, a: int, c: int, atan: real -> real)
  {
    && multiset(Callees(calls)) == multiset(listeners)
    && forall i | 0 <= i < |calls| ::
         calls[i].speedSquared == SpeedSquared(a, c) && calls[i].direction == ReportedDirection(a, c, atan)
  }

  /** In a fan-out each registered listener is called once and nothing else
      is called. */
  lemma NotifiedExactlyOnce<L>(calls: seq<Call<L>>, listeners: set<L>, a: int, c: int, atan: real -> real, l: L)
    requires Notifies(calls, listeners, a, c, atan)
    ensures |calls| == |listeners|
    ensures multiset(Callees(calls))[l] == if l in listeners then 1 else 0
  {
    assert |multiset(Callees(calls))| == |Callees(calls)|;
    assert |multiset(listeners)| == |listeners|;
  }

  // ---------------------------------------------------------------------
  // The adapter
  // ---------------------------------------------------------------------

  /** The joystick adapter; `L` identifies a listener callback. */
  class Joystick<L(==)> {
    var angleA: int
    var angleB: int
    var angleC: int
    var buttonPressed: bool
    /** The registered `on_joystick` callbacks. */
    var listeners: set<L>
    /** The arctangent in degrees, abstracted. */
    const atan: real -> real

    ghost predicate Valid()
    {
      ArctanLaw(atan)
    }

    /** The registers hold values the hub wrappers can deliver. */
    predicate InRange()
      reads this
      ensures InRange() <==>
        MotorAngle(angleA) == angleA && MotorAngle(angleC) == angleC && RotationAngle(angleB) == angleB
    {
      -Spread <= angleA <= Spread && -Spread <= angleC <= Spread && 0 <= angleB < 360
    }

    constructor (atan: real -> real)
      requires ArctanLaw(atan)
      ensures Valid() && InRange()
      ensures this.atan == atan
      ensures angleA == 0 && angleB == 0 && angleC == 0 && !buttonPressed && listeners == {}
    {
      this.atan := atan;
      buttonPressed := false;
      angleA, angleB, angleC := 0, 0, 0;
      listeners := {};
    }

    /** `_on_btn`: the hub delivers the raw state straight to this handler. */
    method OnBtn(state: int)
      modifies this`buttonPressed
      ensures buttonPressed == (state != 0)
      ensures angleA == old(angleA) && angleB == old(angleB) && angleC == old(angleC)
      ensures listeners == old(listeners)
    {
      buttonPressed := state != 0;
    }

    /** The arithmetic of `_calc_joystick`: the speed (as its square) and
        the reported direction of the current registers; it changes nothing. */
    method ComputeVector() returns (speedSquared: real, reported: int)
      requires Valid()
      ensures speedSquared == SpeedSquared(angleA, angleC)
      ensures reported == ReportedDirection(angleA, angleC, atan)
      ensures InRange() ==> 0 <= reported <= 359 && 0.0 <= speedSquared <= 1.0
    {
      var normA := Norm(angleA);
      var normB := Norm(angleC);
      speedSquared := (normA * normA + normB * normB) / 2.0;
      var direction := atan(Ratio(normA, normB));
      if normA >= 0.0 && normB >= 0.0 {
        direction := 90.0 - direction;
      } else if normA < 0.0 && normB >= 0.0 {
        direction := 90.0 - direction;
      } else if normA < 0.0 && normB < 0.0 {
        direction := 270.0 - direction;
      } else {
        direction := 270.0 - direction;
      }
      reported := 359 - Trunc(direction);
      if InRange() {
        ReportedDirectionInRange(angleA, angleC, atan);
        SpeedSquaredBounds(angleA, angleC);
      }
    }

    /** `_calc_joystick`: derives the vector from the two registers and
        calls every listener once; it changes nothing. */
    method CalcJoystick() returns (calls: seq<Call<L>>)
      requires Valid()
      ensures Notifies(calls, listeners, angleA, angleC, atan)
      ensures InRange() ==> forall i | 0 <= i < |calls| :: 0 <= calls[i].direction <= 359
    {
      var speedSquared, reported := ComputeVector();
      calls := [];
      var pending := listeners;
      while pending != {}
        invariant pending <= listeners
        invariant multiset(Callees(calls)) + multiset(pending) == multiset(listeners)
        invariant forall i | 0 <= i < |calls| ::
                    calls[i].speedSquared == speedSquared && calls[i].direction == reported
        decreases pending
      {
        var cb :| cb in pending;
        assert Callees(calls + [Call(cb, speedSquared, reported)]) == Callees(calls) + [cb] by {
          assert (calls + [Call(cb, speedSquared, reported)])[..|calls|] == calls;
        }
        assert multiset(pending) == multiset(pending - {cb}) + multiset{cb};
        calls := calls + [Call(cb, speedSquared, reported)];
        pending := pending - {cb};
      }
    }

    /** `_on_a`: stores the A reading, then recomputes. */
    method OnA(angle: int) returns (calls: seq<Call<L>>)
      requires Valid()
      modifies this`angleA
      ensures angleA == angle
      ensures angleB == old(angleB) && angleC == old(angleC) && buttonPressed == old(buttonPressed)
      ensures listeners == old(listeners)
      ensures Notifies(calls, listeners, angleA, angleC, atan)
    {
      angleA := angle;
      calls := CalcJoystick();
    }

    /** `_on_b`: stores the B reading; no recomputation. */
    method OnB(angle: int)
      modifies this`angleB
      ensures angleB == angle
      ensures angleA == old(angleA) && angleC == old(angleC) && buttonPressed == old(buttonPressed)
      ensures listeners == old(listeners)
    {
      angleB := angle;
    }

    /** `_on_c`: stores the C reading, then recomputes. */
    method OnC(angle: int) returns (calls: seq<Call<L>>)
      requires Valid()
      modifies this`angleC
      ensures angleC == angle
      ensures angleA == old(angleA) && angleB == old(angleB) && buttonPressed == old(buttonPressed)
      ensures listeners == old(listeners)
      ensures Notifies(calls, listeners, angleA, angleC, atan)
    {
      angleC := angle;
      calls := CalcJoystick();
    }

    /** `on_joystick`: adds a callback to the listener set; adding one that
        is already there changes nothing. */
    method OnJoystick(cb: L)
      modifies this`listeners
      ensures listeners == old(listeners) + {cb}
      ensures cb in old(listeners) ==> listeners == old(listeners)
      ensures angleA == old(angleA) && angleB == old(angleB) && angleC == old(angleC)
      ensures buttonPressed == old(buttonPressed)
    {
      listeners := listeners + {cb};
    }

    /** The motor A subscription: the clamping wrapper feeding `_on_a`. */
    method HubMotorA(raw: int) returns (calls: seq<Call<L>>)
      requires Valid()
      modifies this`angleA
      ensures angleA == MotorAngle(raw)
      ensures angleB == old(angleB) && angleC == old(angleC) && buttonPressed == old(buttonPressed)
      ensures listeners == old(listeners)
      ensures Notifies(calls, listeners, angleA, angleC, atan)
      ensures old(InRange()) ==> InRange()
    {
      calls := OnA(MotorAngle(raw));
    }

    /** The motor B subscription: the `on_rotation` wrapper feeding `_on_b`. */
    method HubMotorB(raw: int)
      modifies this`angleB
      ensures angleB == RotationAngle(raw)
      ensures angleA == old(angleA) && angleC == old(angleC) && buttonPressed == old(buttonPressed)
      ensures listeners == old(listeners)
      ensures old(InRange()) ==> InRange()
    {
      OnB(RotationAngle(raw));
    }

    /** The external motor C subscription: the clamping wrapper feeding `_on_c`. */
    method HubMotorC(raw: int) returns (calls: seq<Call<L>>)
      requires Valid()
      modifies this`angleC
      ensures angleC == MotorAngle(raw)
      ensures angleA == old(angleA) && angleB == old(angleB) && buttonPressed == old(buttonPressed)
      ensures listeners == old(listeners)
      ensures Notifies(calls, listeners, angleA, angleC, atan)
      ensures old(InRange()) ==> InRange()
    {
      calls := OnC(MotorAngle(raw));
    }
  }

  // ---------------------------------------------------------------------
  // Scenarios
  // ---------------------------------------------------------------------

  /** A callback registered twice is called once per update: push A fully
      forward with C at rest. */
  method DuplicateListenerCalledOnce<L(==)>(atan: real -> real, cb: L) returns (calls: seq<Call<L>>)
    requires ArctanLaw(atan)
    ensures calls == [Call(cb, 0.5, 359)]
  {
    var stick := new Joystick(atan);
    stick.OnJoystick(cb);
    stick.OnJoystick(cb);
    assert stick.listeners == {cb};
    calls := stick.HubMotorA(40);
    SentinelDirections(25, atan);
    NotifiedExactlyOnce(calls, stick.listeners, 25, 0, atan, cb);
    assert multiset(Callees(calls)) == multiset{cb};
    assert calls[0].listener == cb by {
      assert Callees(calls)[0] in multiset(Callees(calls));
    }
  }

  /** Both axes pushed to the corner: one call with full speed; with
      atan(1) = 45 degrees the direction is 359 - (90 - 45) = 314. */
  method CornerScenario<L(==)>(atan: real -> real, cb: L) returns (calls: seq<Call<L>>)
    requires ArctanLaw(atan) && atan(1.0) == 45.0
    ensures calls == [Call(cb, 1.0, 314)]
  {
    var stick := new Joystick(atan);
    stick.OnJoystick(cb);
    var first := stick.HubMotorA(25);
    calls := stick.HubMotorC(25);
    assert Ratio(Norm(25), Norm(25)) == 1.0;
    assert ReportedDirection(25, 25, atan) == 314;
    NotifiedExactlyOnce(calls, stick.listeners, 25, 25, atan, cb);
    assert calls[0].listener == cb by {
      assert Callees(calls)[0] in multiset(Callees(calls));
    }
  }
}
