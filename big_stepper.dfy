/**
 * The big stepper: minus and plus buttons that move a value by an increment
 * and clamp it to a range, each disabled at its end of the range.
 */
module BigStepper {

  const DEFAULT_INCREMENT: int := 1
  const DEFAULT_MIN: int := 0
  const DEFAULT_MAX: int := 100

  /** `Math.max(min, value - increment)`. */
  function Minus(value: int, increment: int, min: int): (r: int)
    ensures r >= min
    ensures value - increment >= min ==> r == value - increment
    ensures value - increment < min ==> r == min
    ensures increment >= 0 && value >= min ==> r <= value
  {
    if value - increment > min then value - increment else min
  }

  /** `Math.min(max, value + increment)`. */
  function Plus(value: int, increment: int, max: int): (r: int)
    ensures r <= max
    ensures value + increment <= max ==> r == value + increment
    ensures value + increment > max ==> r == max
    ensures increment >= 0 && value <= max ==> r >= value
  {
    if value + increment < max then value + increment else max
  }

  /** The minus button is disabled at or below the minimum. */
  predicate MinusDisabled(value: int, min: int) {
    value <= min
  }

  /** The plus button is disabled at or above the maximum. */
  predicate PlusDisabled(value: int, max: int) {
    value >= max
  }

  /**
   * A value inside the range stays inside it whichever button is pressed, and
   * an enabled button with a positive increment moves the value.
   */
  lemma StaysInRange(value: int, increment: int, min: int, max: int)
    requires min <= value <= max && increment >= 0
    ensures min <= Minus(value, increment, min) <= max
    ensures min <= Plus(value, increment, max) <= max
    ensures increment > 0 && !MinusDisabled(value, min) ==> Minus(value, increment, min) < value
    ensures increment > 0 && !PlusDisabled(value, max) ==> Plus(value, increment, max) > value
  {
  }

  /** The plain stepper: the same rule with a step of 1 and a maximum of 10. */
  const STEPPER_MAX: int := 10

  function StepperMinus(value: int, min: int): (r: int)
    ensures r == Minus(value, 1, min)
  {
    if value - 1 > min then value - 1 else min
  }

  function StepperPlus(value: int, max: int): (r: int)
    ensures r == Plus(value, 1, max)
  {
    if value + 1 < max then value + 1 else max
  }

  /**
   * With the defaults the big stepper moves by one between 0 and 100, and
   * the plain stepper by one between 0 and 10.
   */
  lemma DefaultSteps(value: int)
    ensures Minus(value, DEFAULT_INCREMENT, DEFAULT_MIN) == (if value <= 1 then 0 else value - 1)
    ensures Plus(value, DEFAULT_INCREMENT, DEFAULT_MAX) == (if value >= 99 then 100 else value + 1)
    ensures StepperMinus(value, DEFAULT_MIN) == Minus(value, DEFAULT_INCREMENT, DEFAULT_MIN)
    ensures StepperPlus(value, STEPPER_MAX) == (if value >= 9 then 10 else value + 1)
  {
  }
}
