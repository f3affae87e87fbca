/**
 * The motor direction of lib/Animation/Animation.h: an `enum class` over
 * `int8_t` with Stop = 0, Forward = 1, Backward = -1, and the multiplication
 * operators that the controller uses to reverse a direction (`d *= -1`).
 *
 * The operators cast the product back to the enum. A product that is not one
 * of the three encodings gives an enum value with no name, which the model
 * represents as `None`.
 */
module MotorDirections {
  import opened Arduino
  import opened Options

  datatype MotorDirection = Stop | Forward | Backward

  /** The underlying `int8_t` value of each enumerator. */
  function Encode(d: MotorDirection): (v: i8)
    ensures -1 <= v <= 1
    ensures v == 0 <==> d == Stop
  {
    match d
    case Stop => 0
    case Forward => 1
    case Backward => -1
  }

  /** `static_cast<MotorDirection>(v)`: the enumerator with that value, if any. */
  function Decode(v: i8): (r: Option<MotorDirection>)
    ensures r.Some? <==> -1 <= v <= 1
  {
    if v == 0 then Some(Stop)
    else if v == 1 then Some(Forward)
    else if v == -1 then Some(Backward)
    else None
  }

  /** Decoding undoes encoding, and only encodings decode. */
  lemma DecodeEncode(d: MotorDirection, v: i8)
    ensures Decode(Encode(d)) == Some(d)
    ensures Decode(v) == Some(d) ==> Encode(d) == v
  {
  }

  /** The explicit reversal: Forward and Backward swap, Stop stays. */
  function Opposite(d: MotorDirection): (r: MotorDirection)
    ensures Encode(r) == -Encode(d)
  {
    match d
    case Stop => Stop
    case Forward => Backward
    case Backward => Forward
  }

  /**
   * `lhs *= rhs`: the new value of `lhs`, computed in `int` and converted
   * back to `int8_t` on the cast to the enum.
   */
  function TimesAssign(lhs: MotorDirection, rhs: int): (r: Option<MotorDirection>)
    ensures -0x80 <= Encode(lhs) * rhs < 0x80 ==>
              (r.Some? <==> -1 <= Encode(lhs) * rhs <= 1)
  {
    Decode(ToI8(Encode(lhs) * rhs))
  }

  /**
   * `lhs * rhs` with the direction on the left: the same cast of the same
   * product as `*=`, so it agrees with TimesAssign by definition.
   */
  function TimesRight(lhs: MotorDirection, rhs: int): (r: Option<MotorDirection>)
    ensures rhs == -1 ==> r == Some(Opposite(lhs))
    ensures rhs == 1 ==> r == Some(lhs)
  {
    Decode(ToI8(Encode(lhs) * rhs))
  }

  /** `lhs * rhs` with the direction on the right. */
  function TimesLeft(lhs: int, rhs: MotorDirection): (r: Option<MotorDirection>)
    ensures lhs == -1 ==> r == Some(Opposite(rhs))
    ensures lhs == 1 ==> r == Some(rhs)
  {
    Decode(ToI8(lhs * Encode(rhs)))
  }

  /** `d *= -1` is the reversal, and `d *= 1` changes nothing. */
  lemma TimesAssignSign(d: MotorDirection)
    ensures TimesAssign(d, -1) == Some(Opposite(d))
    ensures TimesAssign(d, 1) == Some(d)
  {
  }

  /**
   * With a multiplier of 1 or -1 the result is always a named enumerator;
   * any other nonzero multiplier of Forward or Backward leaves the
   * enumerators while the product still fits `int8_t`.
   */
  lemma TimesAssignValid(d: MotorDirection, rhs: int)
    ensures rhs == 1 || rhs == -1 ==> TimesAssign(d, rhs).Some?
    ensures d != Stop && 2 <= (if rhs < 0 then -rhs else rhs) < 0x80 ==> TimesAssign(d, rhs) == None
  {
  }

  /** Reversing twice is the identity. */
  lemma OppositeInvolution(d: MotorDirection)
    ensures Opposite(Opposite(d)) == d
    ensures Opposite(d) == Stop <==> d == Stop
  {
  }

  /** Both argument orders of `operator*` agree with `operator*=`. */
  lemma TimesAgree(d: MotorDirection, k: int)
    ensures TimesRight(d, k) == TimesAssign(d, k)
    ensures TimesLeft(k, d) == TimesAssign(d, k)
  {
  }
}
