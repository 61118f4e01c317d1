/** The angle arithmetic shared by both SmartBin controllers: the clamp
    `constrain` and the sign-inverted, offset-corrected command that
    `set_servo_pN_angle` sends to a servo. */
module ServoAngles {

  /** The range every requested angle is clamped to (SERVO_PN_MIN / SERVO_PN_MAX;
      the same for all four servos). */
  const SERVO_MIN: real := -180.0
  const SERVO_MAX: real := 180.0

  function Min(a: real, b: real): real { if a <= b then a else b }
  function Max(a: real, b: real): real { if a >= b then a else b }

  /** `constrain(x, min_val, max_val) = max(min_val, min(max_val, x))`. */
  function Constrain(x: real, lo: real, hi: real): (r: real)
    ensures lo <= hi ==> lo <= r <= hi
    ensures lo <= x <= hi ==> r == x
    ensures x < lo ==> r == lo
    ensures lo <= hi < x ==> r == hi
    ensures hi < lo ==> r == lo
  {
    Max(lo, Min(hi, x))
  }

  /** Clamping twice is clamping once. */
  lemma ConstrainIdempotent(x: real, lo: real, hi: real)
    ensures Constrain(Constrain(x, lo, hi), lo, hi) == Constrain(x, lo, hi)
  {
  }

  /** What `set_servo_pN_angle(request)` sends to servo N whose calibration
      offset is `offset`: `-(constrain(request, -180, 180) - offset)`. */
  function CommandedAngle(request: real, offset: real): (a: real)
    ensures offset - 180.0 <= a <= offset + 180.0
    ensures SERVO_MIN <= request <= SERVO_MAX ==> a + request == offset
    ensures request < SERVO_MIN ==> a == offset + 180.0
    ensures request > SERVO_MAX ==> a == offset - 180.0
  {
    -(Constrain(request, SERVO_MIN, SERVO_MAX) - offset)
  }

  /** Only the request is clamped, never the angle sent: a servo whose offset
      is positive can be sent more than 180 degrees, and one whose offset is
      negative less than -180 (offset 80 and request -180 send 260). */
  lemma SentAngleNotClamped(offset: real)
    ensures CommandedAngle(SERVO_MIN, offset) == offset + 180.0
    ensures CommandedAngle(SERVO_MAX, offset) == offset - 180.0
    ensures offset > 0.0 <==> CommandedAngle(SERVO_MIN, offset) > SERVO_MAX
    ensures offset < 0.0 <==> CommandedAngle(SERVO_MAX, offset) < SERVO_MIN
    ensures CommandedAngle(-180.0, 80.0) == 260.0
  {
  }

  /** The request that makes servo N (offset `offset`) receive `angle`. */
  function RequestFor(offset: real, angle: real): real
  {
    offset - angle
  }

  /** Within the clamp range, requesting an angle and solving for the request
      are inverse to each other, in both directions. */
  lemma CommandedAngleRoundTrip(request: real, offset: real, angle: real)
    ensures SERVO_MIN <= request <= SERVO_MAX ==>
      RequestFor(offset, CommandedAngle(request, offset)) == request
    ensures offset - SERVO_MAX <= angle <= offset - SERVO_MIN ==>
      CommandedAngle(RequestFor(offset, angle), offset) == angle
  {
  }

  /** The sign inversion: a larger request never yields a larger command. */
  lemma CommandedAngleAntitone(r1: real, r2: real, offset: real)
    requires r1 <= r2
    ensures CommandedAngle(r2, offset) <= CommandedAngle(r1, offset)
  {
  }

  /** Requesting the offset itself drives the servo to 0 exactly when the
      offset lies in the clamp range; outside it the clamp leaves a residue. */
  lemma RequestingOffsetZeroes(offset: real)
    ensures CommandedAngle(offset, offset) == 0.0 <==> SERVO_MIN <= offset <= SERVO_MAX
    ensures offset > SERVO_MAX ==> CommandedAngle(offset, offset) == offset - SERVO_MAX
    ensures offset < SERVO_MIN ==> CommandedAngle(offset, offset) == offset - SERVO_MIN
  {
  }

  /** Requesting 0 sends the offset itself, whatever its sign or size. */
  lemma ZeroRequestSendsOffset(offset: real)
    ensures CommandedAngle(0.0, offset) == offset
  {
  }
}
