/**
 * The head-rotation controller of lib/Animation: one Animation object reads
 * a snapshot of the two limit sensors, the PIR sensor and the two buttons
 * every tick, picks the motor direction (reversing at a limit sensor, else a
 * biased random pick re-evaluated every 500-999 ms), drives the two H-bridge
 * inputs while motion is sensed, stops them after 30 s without motion, and
 * drives the rainbow LED effect and the sound cues.
 *
 * Timestamps are 32-bit `unsigned long` values and every `now - t` and
 * `now + d` wraps modulo 2^32. Random draws are parameters. The speed ramp
 * `exp(-12 (t - 0.5)^2)` is floating point and is a parameter too: a function
 * from the direction duration to a bias in [0, 1].
 */
module Animation {
  import opened Arduino
  import opened MotorDirections
  import EyeColors
  import AP = AudioPlayer

  const MIN_SPEED: int := 60
  const MAX_SPEED: int := 255
  /** Below this many ms since a turn, that side's bias is 2. */
  const RECENT_TURN_MS: int := 200
  /** Above this many ms since a turn, that side's bias is 3. */
  const LONG_AGO_TURN_MS: int := 2000
  /** The direction draw is `random(0, 1000)`. */
  const DIRECTION_DRAW_RANGE: int := 1000
  /** The re-evaluation delay is `random(500, 1000)`. */
  const MIN_ROTATE_INTERVAL: int := 500
  const MAX_ROTATE_INTERVAL: int := 1000
  /** Motors stop after this many ms without motion. */
  const INACTIVITY_TIMEOUT_MS: int := 30000
  /** The rainbow advances at most every 20 ms. */
  const RAINBOW_PERIOD_MS: int := 20
  /** Sound played while motion is sensed, and when the motors stop. */
  const PIR_SOUND: int := 0
  const STOP_SOUND: int := 1

  /** One snapshot of the inputs (lib/Animation/AnimationInputs.h). */
  datatype AnimationInputs = AnimationInputs(
    sensorLeft: i8, sensorRight: i8, pirSensor: i8,
    buttonRectangle: i8, buttonCircle: i8, currentTime: u32)

  /** The values written to the two H-bridge inputs, neckMotorIn1 and neckMotorIn2. */
  datatype MotorOutputs = MotorOutputs(in1: u8, in2: u8)

  const MOTOR_OFF: MotorOutputs := MotorOutputs(0, 0)

  /** The part of the controller's state that the direction policy owns. */
  datatype RotationState = RotationState(
    direction: MotorDirection, timer: u32, lastLeftTurn: u32, lastRightTurn: u32)

  // ---------------------------------------------------------------------
  // Direction policy (setRotationDirection)

  /** The weight of one side given the time since it was last chosen. */
  function TurnBias(sinceTurn: u32): (bias: int)
    ensures 1 <= bias <= 3
    ensures bias == 2 <==> sinceTurn < RECENT_TURN_MS
    ensures bias == 3 <==> sinceTurn > LONG_AGO_TURN_MS
  {
    if sinceTurn < RECENT_TURN_MS then 2
    else if sinceTurn > LONG_AGO_TURN_MS then 3
    else 1
  }

  /**
   * The weighted pick, on integers: with a draw k in [0, 1000), Forward
   * (left) is chosen when k / 1000 * (leftBias + rightBias) < leftBias.
   */
  predicate PicksForward(k: int, leftBias: int, rightBias: int)
  {
    k * (leftBias + rightBias) < DIRECTION_DRAW_RANGE * leftBias
  }

  /** The integer test is the source's scaled comparison, read over exact reals. */
  lemma PicksForwardIsScaledTest(k: int, leftBias: int, rightBias: int)
    requires 1 <= leftBias && 1 <= rightBias
    ensures PicksForward(k, leftBias, rightBias)
            <==> (k as real / 1000.0) * ((leftBias + rightBias) as real) < leftBias as real
  {
    var lhs := (k as real / 1000.0) * ((leftBias + rightBias) as real);
    assert lhs * 1000.0 == (k * (leftBias + rightBias)) as real;
  }

  /**
   * Raising the left weight or lowering the right one never turns a
   * Forward pick into a Backward one: the share of draws that pick Forward
   * grows with the left bias and shrinks with the right bias.
   */
  lemma PicksForwardMonotone(k: int, l: int, r: int, l': int, r': int)
    requires 0 <= k && 1 <= l <= l' && 1 <= r' <= r
    requires PicksForward(k, l, r)
    ensures PicksForward(k, l', r')
  {
  }

  /** With equal weights the pick is an even split of the draws. */
  lemma EqualBiasesSplitEvenly(k: int, bias: int)
    requires 1 <= bias
    ensures PicksForward(k, bias, bias) <==> k < DIRECTION_DRAW_RANGE / 2
  {
  }

  /**
   * The random pick made when the re-evaluation timer is due: the chosen
   * side's turn time becomes now, and the timer is re-armed 500-999 ms ahead.
   */
  function RandomPick(s: RotationState, now: u32, directionDraw: nat, intervalDraw: nat): (t: RotationState)
    ensures t.direction != Stop
    ensures t.direction == Forward ==> t.lastLeftTurn == now && t.lastRightTurn == s.lastRightTurn
    ensures t.direction == Backward ==> t.lastRightTurn == now && t.lastLeftTurn == s.lastLeftTurn
    ensures Sub(t.timer, now) >= MIN_ROTATE_INTERVAL && Sub(t.timer, now) < MAX_ROTATE_INTERVAL
  {
    var leftBias := TurnBias(Sub(now, s.lastLeftTurn));
    var rightBias := TurnBias(Sub(now, s.lastRightTurn));
    var k := Random(0, DIRECTION_DRAW_RANGE, directionDraw);
    var timer := Add(now, Random(MIN_ROTATE_INTERVAL, MAX_ROTATE_INTERVAL, intervalDraw));
    if PicksForward(k, leftBias, rightBias) then RotationState(Forward, timer, now, s.lastRightTurn)
    else RotationState(Backward, timer, s.lastLeftTurn, now)
  }

  /** The direction state after one setRotationDirection. */
  function NextRotation(s: RotationState, sensorLeft: i8, sensorRight: i8, now: u32,
                        directionDraw: nat, intervalDraw: nat): (t: RotationState)
    ensures t.direction == Stop ==> s.direction == Stop
    ensures t.lastLeftTurn == s.lastLeftTurn || t.lastLeftTurn == now
    ensures t.lastRightTurn == s.lastRightTurn || t.lastRightTurn == now
    ensures t.timer == 0 || t.timer == s.timer || Sub(t.timer, now) < MAX_ROTATE_INTERVAL
  {
    if sensorLeft == HIGH || sensorRight == HIGH then
      s.(direction := Opposite(s.direction), timer := 0)
    else
      var picked := if s.timer == 0 then RandomPick(s, now, directionDraw, intervalDraw) else s;
      if now >= picked.timer then picked.(timer := 0) else picked
  }

  /**
   * A limit sensor reverses the direction once, whether one sensor or both
   * are HIGH: Forward and Backward swap, Stop stays Stop, the timer is
   * cleared and the turn times are kept.
   */
  lemma LimitSensorReverses(s: RotationState, sensorLeft: i8, sensorRight: i8, now: u32,
                            directionDraw: nat, intervalDraw: nat)
    requires sensorLeft == HIGH || sensorRight == HIGH
    ensures var t := NextRotation(s, sensorLeft, sensorRight, now, directionDraw, intervalDraw);
            && t.direction == Opposite(s.direction)
            && Encode(t.direction) == -Encode(s.direction)
            && t.timer == 0
            && t.lastLeftTurn == s.lastLeftTurn && t.lastRightTurn == s.lastRightTurn
            && t == NextRotation(s, HIGH, HIGH, now, directionDraw, intervalDraw)
  {
  }

  /**
   * With no sensor HIGH and the timer due, the pick is never Stop; it is
   * Forward exactly when the integer weighted test holds; only the chosen
   * side's turn time moves to now; and the timer is now + d for a delay d in
   * [500, 1000), or 0 when that sum wrapped past the 32-bit range.
   */
  lemma RandomPickChoice(s: RotationState, sensorLeft: i8, sensorRight: i8, now: u32,
                         directionDraw: nat, intervalDraw: nat)
    requires sensorLeft != HIGH && sensorRight != HIGH && s.timer == 0
    ensures var t := NextRotation(s, sensorLeft, sensorRight, now, directionDraw, intervalDraw);
            var k := Random(0, DIRECTION_DRAW_RANGE, directionDraw);
            var d := Random(MIN_ROTATE_INTERVAL, MAX_ROTATE_INTERVAL, intervalDraw);
            && 0 <= k < DIRECTION_DRAW_RANGE
            && MIN_ROTATE_INTERVAL <= d < MAX_ROTATE_INTERVAL
            && t.direction != Stop
            && (t.direction == Forward <==>
                  PicksForward(k, TurnBias(Sub(now, s.lastLeftTurn)), TurnBias(Sub(now, s.lastRightTurn))))
            && (t.direction == Forward ==> t.lastLeftTurn == now && t.lastRightTurn == s.lastRightTurn)
            && (t.direction == Backward ==> t.lastRightTurn == now && t.lastLeftTurn == s.lastLeftTurn)
            && (now + d < TWO_POW_32 ==> t.timer == now + d)
            && (now + d >= TWO_POW_32 ==> t.timer == 0)
  {
  }

  /** A pending timer is left alone: with no sensor HIGH and now before the timer, nothing changes. */
  lemma PendingTimerKeepsState(s: RotationState, sensorLeft: i8, sensorRight: i8, now: u32,
                               directionDraw: nat, intervalDraw: nat)
    requires sensorLeft != HIGH && sensorRight != HIGH
    requires s.timer != 0 && now < s.timer
    ensures NextRotation(s, sensorLeft, sensorRight, now, directionDraw, intervalDraw) == s
  {
  }

  /** An expired timer is cleared, and nothing else changes until the next tick's pick. */
  lemma ExpiredTimerIsCleared(s: RotationState, sensorLeft: i8, sensorRight: i8, now: u32,
                              directionDraw: nat, intervalDraw: nat)
    requires sensorLeft != HIGH && sensorRight != HIGH
    requires s.timer != 0 && now >= s.timer
    ensures NextRotation(s, sensorLeft, sensorRight, now, directionDraw, intervalDraw) == s.(timer := 0)
  {
  }

  /**
   * Without a limit sensor, the policy never chooses Stop: after a due
   * timer it picks a side, otherwise the direction is kept.
   */
  lemma NoSensorNeverStops(s: RotationState, sensorLeft: i8, sensorRight: i8, now: u32,
                           directionDraw: nat, intervalDraw: nat)
    requires sensorLeft != HIGH && sensorRight != HIGH
    requires s.direction != Stop || s.timer == 0
    ensures NextRotation(s, sensorLeft, sensorRight, now, directionDraw, intervalDraw).direction != Stop
  {
  }

  // ---------------------------------------------------------------------
  // Speed and motor outputs (performRotate, rotate, stop)

  /** How long the head has turned the current way: Forward from the left turn, else from the right. */
  function DirectionDuration(direction: MotorDirection, now: u32, lastLeftTurn: u32, lastRightTurn: u32): (d: u32)
    ensures direction == Forward && lastLeftTurn <= now ==> d == now - lastLeftTurn
    ensures direction != Forward && lastRightTurn <= now ==> d == now - lastRightTurn
    ensures direction == Forward ==> Add(lastLeftTurn, d) == now
    ensures direction != Forward ==> Add(lastRightTurn, d) == now
  {
    if direction == Forward then Sub(now, lastLeftTurn) else Sub(now, lastRightTurn)
  }

  /** `60 + (int)((255 - 60) * speedBias)`: the top of the speed band. */
  function BiasedSpeed(speedBias: real): (s: int)
    requires 0.0 <= speedBias <= 1.0
    ensures MIN_SPEED <= s <= MAX_SPEED
    ensures speedBias == 0.0 ==> s == MIN_SPEED
    ensures speedBias == 1.0 ==> s == MAX_SPEED
  {
    var scaled := (MAX_SPEED - MIN_SPEED) as real * speedBias;
    assert 0.0 <= scaled <= 195.0;
    MIN_SPEED + scaled.Floor
  }

  /** A larger bias never lowers the top of the band. */
  lemma BiasedSpeedMonotone(b: real, b': real)
    requires 0.0 <= b <= b' <= 1.0
    ensures BiasedSpeed(b) <= BiasedSpeed(b')
  {
    assert (MAX_SPEED - MIN_SPEED) as real * b <= (MAX_SPEED - MIN_SPEED) as real * b';
  }

  /** The speed drawn while motion is sensed: `random(60, biasedSpeed + 1)`. */
  function PirSpeed(speedBias: real, draw: nat): (speed: u8)
    requires 0.0 <= speedBias <= 1.0
    ensures MIN_SPEED <= speed <= BiasedSpeed(speedBias) <= MAX_SPEED
  {
    Random(MIN_SPEED, BiasedSpeed(speedBias) + 1, draw)
  }

  /**
   * The outputs written by `rotate(speed, direction)`: the speed on the
   * input of the direction and 0 on the other; Stop writes 0 to both. The
   * two inputs are never driven together.
   */
  function Drive(speed: u8, direction: MotorDirection): (o: MotorOutputs)
    ensures o.in1 == 0 || o.in2 == 0
    ensures o.in1 + o.in2 == if direction == Stop then 0 else speed
    ensures o.in1 != 0 ==> direction == Forward
    ensures o.in2 != 0 ==> direction == Backward
  {
    var safeSpeed := Constrain(speed, 0, 255);
    match direction
    case Forward => MotorOutputs(safeSpeed, LOW)
    case Backward => MotorOutputs(LOW, safeSpeed)
    case Stop => MOTOR_OFF
  }

  /** While motion is sensed, the motor turns in the current direction at a speed of the band. */
  lemma PirDriveInBand(speedBias: real, draw: nat, direction: MotorDirection)
    requires 0.0 <= speedBias <= 1.0
    requires direction != Stop
    ensures var o := Drive(PirSpeed(speedBias, draw), direction);
            MIN_SPEED <= o.in1 + o.in2 <= BiasedSpeed(speedBias)
  {
  }

  // ---------------------------------------------------------------------
  // Colour wheel and rainbow (wheel, updateRainbow)

  /** Animation::wheel: 0 is red, 85 green, 170 blue. */
  function Wheel(pos: u8): (c: u32)
    ensures EyeColors.WheelColor(c)
  {
    if pos < 85 then
      EyeColors.UnpackPack(0xFF - pos * 3, pos * 3, 0);
      EyeColors.Pack(0xFF - pos * 3, pos * 3, 0)
    else if pos < 170 then
      var p := pos - 85;
      EyeColors.UnpackPack(0, 0xFF - p * 3, p * 3);
      EyeColors.Pack(0, 0xFF - p * 3, p * 3)
    else
      var p := pos - 170;
      EyeColors.UnpackPack(p * 3, 0, 0xFF - p * 3);
      EyeColors.Pack(p * 3, 0, 0xFF - p * 3)
  }

  /** A colour with its green and blue channels exchanged. */
  function SwapGreenBlue(c: u32): u32
  {
    EyeColors.Pack(EyeColors.Red(c), EyeColors.Blue(c), EyeColors.Green(c))
  }

  /**
   * The eye's wheel is this wheel run backwards with green and blue
   * exchanged.
   */
  lemma EyeWheelMirrorsWheel(pos: u8)
    ensures EyeColors.Wheel(pos) == SwapGreenBlue(Wheel(0xFF - pos))
  {
    var p := 0xFF - pos;
    if p < 85 {
      EyeColors.UnpackPack(0xFF - p * 3, p * 3, 0);
    } else if p < 170 {
      EyeColors.UnpackPack(0, 0xFF - (p - 85) * 3, (p - 85) * 3);
    } else {
      EyeColors.UnpackPack((p - 170) * 3, 0, 0xFF - (p - 170) * 3);
    }
  }

  /** The frame updateRainbow writes to a strip of `n` pixels. */
  function RainbowFrame(index: u8, n: nat): (frame: seq<u32>)
    ensures |frame| == n
    ensures forall i :: 0 <= i < n ==> EyeColors.WheelColor(frame[i])
    ensures n > 0 ==> frame[0] == Wheel(index)
  {
    var frame := seq(n, i requires 0 <= i < n => Wheel(EyeColors.RainbowOffset(index, i, n)));
    assert n > 0 ==> EyeColors.RainbowOffset(index, 0, n) == index;
    frame
  }

  /** Each rainbow step moves every pixel one position along the wheel. */
  lemma RainbowStepAdvancesEveryPixel(index: u8, n: nat, i: nat)
    requires i < n
    ensures RainbowFrame((index + 1) % 256, n)[i] == Wheel((EyeColors.RainbowOffset(index, i, n) + 1) % 256)
  {
    EyeColors.RainbowOffsetStep(index, n, i);
  }

  // ---------------------------------------------------------------------
  // The controller object

  class Animation {
    const audio: AP.AudioPlayer
    /** The colours of the NeoPixel strip; its length is `numPixels()`. */
    const pixels: array<u32>

    var motor: MotorOutputs
    var motorDirection: MotorDirection
    var inputSensorLeft: i8
    var inputSensorRight: i8
    var inputPIRSensor: i8
    var inputButtonRectangle: i8
    var inputButtonCircle: i8
    var lastPIRTimer: u32
    var randomRotateTimer: u32
    var lastLeftTurnTime: u32
    var lastRightTurnTime: u32
    var rainbowIndex: u8
    var rainbowTimer: u32
    var isRainbowActive: bool
    var currentTime: u32

    /** The audio player is usable and the strip has a `uint16_t` length. */
    ghost predicate Valid()
      reads this, audio
    {
      audio.Valid() && audio.hasBackend && pixels.Length < 0x1_0000
    }

    /** The direction policy's part of the state. */
    function Rotation(): RotationState
      reads this
    {
      RotationState(motorDirection, randomRotateTimer, lastLeftTurnTime, lastRightTurnTime)
    }

    /**
     * Only the direction is initialised (to Stop); the other fields have no
     * initialiser in the source, so nothing is assumed about them.
     */
    constructor (audio: AP.AudioPlayer, pixels: array<u32>)
      ensures this.audio == audio && this.pixels == pixels
      ensures motorDirection == MotorDirections.Stop
      ensures audio.Valid() && audio.hasBackend && pixels.Length < 0x1_0000 ==> Valid()
    {
      this.audio := audio;
      this.pixels := pixels;
      motorDirection := MotorDirections.Stop;
    }

    method SetInputSensorLeft(value: i8)
      modifies this`inputSensorLeft
      ensures inputSensorLeft == value
    {
      inputSensorLeft := value;
    }

    method SetInputSensorRight(value: i8)
      modifies this`inputSensorRight
      ensures inputSensorRight == value
    {
      inputSensorRight := value;
    }

    method SetInputPIRSensor(value: i8)
      modifies this`inputPIRSensor
      ensures inputPIRSensor == value
    {
      inputPIRSensor := value;
    }

    method SetInputButtonRectangle(value: i8)
      modifies this`inputButtonRectangle
      ensures inputButtonRectangle == value
    {
      inputButtonRectangle := value;
    }

    method SetInputButtonCircle(value: i8)
      modifies this`inputButtonCircle
      ensures inputButtonCircle == value
    {
      inputButtonCircle := value;
    }

    method SetCurrentTime(value: u32)
      modifies this`currentTime
      ensures currentTime == value
    {
      currentTime := value;
    }

    method SetMotorDirection(value: MotorDirection)
      modifies this`motorDirection
      ensures motorDirection == value
    {
      motorDirection := value;
    }

    method SetRandomRotateTimer(value: u32)
      modifies this`randomRotateTimer
      ensures randomRotateTimer == value
    {
      randomRotateTimer := value;
    }

    method SetLastLeftTurnTime(value: u32)
      modifies this`lastLeftTurnTime
      ensures lastLeftTurnTime == value
    {
      lastLeftTurnTime := value;
    }

    method SetLastRightTurnTime(value: u32)
      modifies this`lastRightTurnTime
      ensures lastRightTurnTime == value
    {
      lastRightTurnTime := value;
    }

    method SetLastPIRTimer(value: u32)
      modifies this`lastPIRTimer
      ensures lastPIRTimer == value
    {
      lastPIRTimer := value;
    }

    method SetIsRainbowActive(value: bool)
      modifies this`isRainbowActive
      ensures isRainbowActive == value
    {
      isRainbowActive := value;
    }

    method SetRainbowIndex(value: u8)
      modifies this`rainbowIndex
      ensures rainbowIndex == value
    {
      rainbowIndex := value;
    }

    method SetRainbowTimer(value: u32)
      modifies this`rainbowTimer
      ensures rainbowTimer == value
    {
      rainbowTimer := value;
    }

    /** `update(inputs)`: latch the snapshot; nothing else changes. */
    method Update(inputs: AnimationInputs)
      modifies this`inputSensorLeft, this`inputSensorRight, this`inputPIRSensor,
               this`inputButtonRectangle, this`inputButtonCircle, this`currentTime
      ensures inputSensorLeft == inputs.sensorLeft && inputSensorRight == inputs.sensorRight
      ensures inputPIRSensor == inputs.pirSensor
      ensures inputButtonRectangle == inputs.buttonRectangle && inputButtonCircle == inputs.buttonCircle
      ensures currentTime == inputs.currentTime
    {
      SetInputSensorLeft(inputs.sensorLeft);
      SetInputSensorRight(inputs.sensorRight);
      SetInputPIRSensor(inputs.pirSensor);
      SetInputButtonRectangle(inputs.buttonRectangle);
      SetInputButtonCircle(inputs.buttonCircle);
      SetCurrentTime(inputs.currentTime);
    }

    /** `stop()`: both H-bridge inputs to 0. */
    method Stop()
      modifies this`motor
      ensures motor == MOTOR_OFF
    {
      motor := MOTOR_OFF;
    }

    /** `rotate(speed, direction)`. */
    method Rotate(speed: u8, direction: MotorDirection)
      modifies this`motor
      ensures motor == Drive(speed, direction)
    {
      var safeSpeed := Constrain(speed, 0, 255);
      if direction == Forward {
        motor := MotorOutputs(safeSpeed, LOW);
      } else if direction == Backward {
        motor := MotorOutputs(LOW, safeSpeed);
      } else {
        Stop();
      }
    }

    /** The weighted pick of setRotationDirection, taken when the timer is 0. */
    method PickDirection(directionDraw: nat, intervalDraw: nat)
      modifies this`motorDirection, this`randomRotateTimer, this`lastLeftTurnTime, this`lastRightTurnTime
      ensures Rotation() == RandomPick(old(Rotation()), currentTime, directionDraw, intervalDraw)
    {
      var timeSinceLeft := Sub(currentTime, lastLeftTurnTime);
      var timeSinceRight := Sub(currentTime, lastRightTurnTime);
      var leftBias := 1;
      var rightBias := 1;
      if timeSinceLeft < RECENT_TURN_MS {
        leftBias := 2;
      } else if timeSinceLeft > LONG_AGO_TURN_MS {
        leftBias := 3;
      }
      if timeSinceRight < RECENT_TURN_MS {
        rightBias := 2;
      } else if timeSinceRight > LONG_AGO_TURN_MS {
        rightBias := 3;
      }
      assert leftBias == TurnBias(timeSinceLeft) && rightBias == TurnBias(timeSinceRight);
      var totalBias := leftBias + rightBias;
      var k := Random(0, DIRECTION_DRAW_RANGE, directionDraw);
      var r := k as real / 1000.0 * totalBias as real;
      PicksForwardIsScaledTest(k, leftBias, rightBias);
      if r < leftBias as real {
        motorDirection := Forward;
        lastLeftTurnTime := currentTime;
      } else {
        motorDirection := Backward;
        lastRightTurnTime := currentTime;
      }
      randomRotateTimer := Add(currentTime, Random(MIN_ROTATE_INTERVAL, MAX_ROTATE_INTERVAL, intervalDraw));
    }

    /** `setRotationDirection()`, with the two `random` draws as parameters. */
    method SetRotationDirection(directionDraw: nat, intervalDraw: nat)
      modifies this`motorDirection, this`randomRotateTimer, this`lastLeftTurnTime, this`lastRightTurnTime
      ensures Rotation() == NextRotation(old(Rotation()), inputSensorLeft, inputSensorRight,
                                         currentTime, directionDraw, intervalDraw)
    {
      if inputSensorLeft == HIGH || inputSensorRight == HIGH {
        TimesAssignSign(motorDirection);
        motorDirection := TimesAssign(motorDirection, -1).value;
        randomRotateTimer := 0;
      } else {
        if randomRotateTimer == 0 {
          PickDirection(directionDraw, intervalDraw);
        }
        if currentTime >= randomRotateTimer {
          randomRotateTimer := 0;
        }
      }
    }

    /**
     * `performRotate()`. With PIR HIGH: play the PIR sound, drive the motor
     * in the current direction at a speed of the band given by the bias of
     * the direction's duration, and note the time. With PIR LOW: after 30 s
     * since the last motion, play the stop sound and zero both outputs,
     * keeping the direction and the PIR time.
     */
    method PerformRotate(speedBias: u32 -> real, speedDraw: nat)
      requires Valid()
      requires forall d: u32 :: 0.0 <= speedBias(d) <= 1.0
      modifies this`motor, this`lastPIRTimer, audio
      ensures Valid()
      ensures old(inputPIRSensor) == HIGH ==>
                var duration := DirectionDuration(motorDirection, currentTime, lastLeftTurnTime, lastRightTurnTime);
                && motor == Drive(PirSpeed(speedBias(duration), speedDraw), motorDirection)
                && lastPIRTimer == currentTime
                && audio.state == AP.Playing && audio.currentSoundIndex == PIR_SOUND
      ensures old(inputPIRSensor) != HIGH ==> lastPIRTimer == old(lastPIRTimer)
      ensures old(inputPIRSensor) != HIGH && Sub(currentTime, lastPIRTimer) >= INACTIVITY_TIMEOUT_MS ==>
                motor == MOTOR_OFF && audio.state == AP.Playing && audio.currentSoundIndex == STOP_SOUND
      ensures old(inputPIRSensor) != HIGH && Sub(currentTime, lastPIRTimer) < INACTIVITY_TIMEOUT_MS ==>
                motor == old(motor) && audio.state == old(audio.state)
                && audio.currentSoundIndex == old(audio.currentSoundIndex)
                && audio.backendLog == old(audio.backendLog)
    {
      if inputPIRSensor == HIGH {
        audio.Play(PIR_SOUND);
        var directionDuration: u32 := 0;
        if motorDirection == Forward {
          directionDuration := Sub(currentTime, lastLeftTurnTime);
        } else {
          directionDuration := Sub(currentTime, lastRightTurnTime);
        }
        var biasedSpeed := BiasedSpeed(speedBias(directionDuration));
        var randomSpeed := Random(MIN_SPEED, biasedSpeed + 1, speedDraw);
        Rotate(randomSpeed, motorDirection);
        lastPIRTimer := currentTime;
      } else {
        if Sub(currentTime, lastPIRTimer) >= INACTIVITY_TIMEOUT_MS {
          audio.Play(STOP_SOUND);
          Stop();
        }
      }
    }

    /**
     * `eyeBlink()`: with the circle button HIGH the rainbow is on (restarted
     * at index 0 and the current time if it was off); otherwise it is off
     * and the strip is cleared.
     */
    method EyeBlink()
      modifies this`isRainbowActive, this`rainbowIndex, this`rainbowTimer, pixels
      ensures inputButtonCircle == HIGH ==> isRainbowActive && pixels[..] == old(pixels[..])
      ensures inputButtonCircle == HIGH && !old(isRainbowActive) ==>
                rainbowIndex == 0 && rainbowTimer == currentTime
      ensures inputButtonCircle == HIGH && old(isRainbowActive) ==>
                rainbowIndex == old(rainbowIndex) && rainbowTimer == old(rainbowTimer)
      ensures inputButtonCircle != HIGH ==>
                && !isRainbowActive
                && rainbowIndex == old(rainbowIndex) && rainbowTimer == old(rainbowTimer)
                && forall i :: 0 <= i < pixels.Length ==> pixels[i] == 0
    {
      if inputButtonCircle == HIGH {
        if !isRainbowActive {
          rainbowIndex := 0;
          rainbowTimer := currentTime;
        }
        isRainbowActive := true;
      } else {
        isRainbowActive := false;
        forall i | 0 <= i < pixels.Length {
          pixels[i] := 0;
        }
      }
    }

    /**
     * `updateSound()`: with the rectangle button HIGH and nothing playing,
     * play a random sound; then poll the player (`backendPlaying` is the
     * backend's `playing()` answer).
     */
    method UpdateSound(soundDraw: nat, backendPlaying: bool)
      requires Valid()
      modifies audio
      ensures Valid()
      ensures inputButtonRectangle == HIGH && !old(audio.IsPlaying()) && backendPlaying ==>
                audio.state == AP.Playing && audio.currentSoundIndex == Random(0, AP.NUM_SOUND_FILES, soundDraw)
      ensures ((inputButtonRectangle == HIGH && !old(audio.IsPlaying())) || old(audio.IsPlaying())) && !backendPlaying ==>
                audio.state == AP.Stopped && audio.currentSoundIndex == -1
      ensures inputButtonRectangle != HIGH && !old(audio.IsPlaying()) ==>
                audio.state == old(audio.state) && audio.currentSoundIndex == old(audio.currentSoundIndex)
      ensures old(audio.IsPlaying()) && backendPlaying ==>
                audio.state == old(audio.state) && audio.currentSoundIndex == old(audio.currentSoundIndex)
    {
      if inputButtonRectangle == HIGH && !audio.IsPlaying() {
        audio.PlayRandomSound(soundDraw);
      }
      audio.Update(backendPlaying);
    }

    /**
     * `updateRainbow()`: while the rainbow is on and 20 ms have passed since
     * the last step, paint the frame for the current index, note the time and
     * advance the index; otherwise nothing changes.
     */
    method UpdateRainbow()
      requires Valid()
      modifies this`rainbowTimer, this`rainbowIndex, pixels
      ensures !(old(isRainbowActive) && Sub(currentTime, old(rainbowTimer)) >= RAINBOW_PERIOD_MS) ==>
                rainbowTimer == old(rainbowTimer) && rainbowIndex == old(rainbowIndex)
                && pixels[..] == old(pixels[..])
      ensures old(isRainbowActive) && Sub(currentTime, old(rainbowTimer)) >= RAINBOW_PERIOD_MS ==>
                && rainbowTimer == currentTime
                && rainbowIndex == (old(rainbowIndex) + 1) % 256
                && pixels[..] == RainbowFrame(old(rainbowIndex), pixels.Length)
    {
      if !isRainbowActive {
        return;
      }
      if Sub(currentTime, rainbowTimer) >= RAINBOW_PERIOD_MS {
        rainbowTimer := currentTime;
        var n := pixels.Length;
        var i := 0;
        while i < n
          invariant 0 <= i <= n
          invariant rainbowTimer == currentTime && rainbowIndex == old(rainbowIndex)
          invariant forall j :: 0 <= j < i ==> pixels[j] == Wheel(EyeColors.RainbowOffset(rainbowIndex, j, n))
        {
          pixels[i] := Wheel(EyeColors.RainbowOffset(rainbowIndex, i, n));
          i := i + 1;
        }
        rainbowIndex := (rainbowIndex + 1) % 256;
      }
    }

    /**
     * One pass of the firmware's main loop (src/main.cpp): latch the
     * inputs, then setRotationDirection, performRotate, eyeBlink,
     * updateSound and updateRainbow, in that order.
     */
    method Tick(inputs: AnimationInputs, directionDraw: nat, intervalDraw: nat,
                speedBias: u32 -> real, speedDraw: nat, soundDraw: nat, backendPlaying: bool)
      requires Valid()
      requires forall d: u32 :: 0.0 <= speedBias(d) <= 1.0
      modifies this, audio, pixels
      ensures Valid()
      ensures currentTime == inputs.currentTime
      ensures Rotation() == NextRotation(old(Rotation()), inputs.sensorLeft, inputs.sensorRight,
                                         inputs.currentTime, directionDraw, intervalDraw)
      ensures inputs.pirSensor == HIGH ==>
                var duration := DirectionDuration(motorDirection, currentTime, lastLeftTurnTime, lastRightTurnTime);
                motor == Drive(PirSpeed(speedBias(duration), speedDraw), motorDirection)
                && lastPIRTimer == inputs.currentTime
      ensures inputs.pirSensor != HIGH ==> lastPIRTimer == old(lastPIRTimer)
      ensures inputs.pirSensor != HIGH && Sub(inputs.currentTime, old(lastPIRTimer)) >= INACTIVITY_TIMEOUT_MS ==>
                motor == MOTOR_OFF
      ensures inputs.pirSensor != HIGH && Sub(inputs.currentTime, old(lastPIRTimer)) < INACTIVITY_TIMEOUT_MS ==>
                motor == old(motor)
      ensures inputSensorLeft == inputs.sensorLeft && inputSensorRight == inputs.sensorRight
      ensures inputPIRSensor == inputs.pirSensor
      ensures inputButtonRectangle == inputs.buttonRectangle && inputButtonCircle == inputs.buttonCircle
      // The sound: whatever was started this tick is stopped by the poll
      // when the backend has finished; otherwise the newest request wins.
      ensures !backendPlaying ==> audio.state == AP.Stopped && audio.currentSoundIndex == -1
      ensures backendPlaying && inputs.pirSensor == HIGH ==>
                audio.state == AP.Playing && audio.currentSoundIndex == PIR_SOUND
      ensures backendPlaying && inputs.pirSensor != HIGH
              && Sub(inputs.currentTime, old(lastPIRTimer)) >= INACTIVITY_TIMEOUT_MS ==>
                audio.state == AP.Playing && audio.currentSoundIndex == STOP_SOUND
      ensures backendPlaying && inputs.pirSensor != HIGH
              && Sub(inputs.currentTime, old(lastPIRTimer)) < INACTIVITY_TIMEOUT_MS
              && old(audio.IsPlaying()) ==>
                audio.state == old(audio.state) && audio.currentSoundIndex == old(audio.currentSoundIndex)
      ensures backendPlaying && inputs.pirSensor != HIGH
              && Sub(inputs.currentTime, old(lastPIRTimer)) < INACTIVITY_TIMEOUT_MS
              && !old(audio.IsPlaying()) ==>
                if inputs.buttonRectangle == HIGH then
                  audio.state == AP.Playing && audio.currentSoundIndex == Random(0, AP.NUM_SOUND_FILES, soundDraw)
                else
                  audio.state == AP.Stopped && audio.currentSoundIndex == -1
      // The rainbow and the strip.
      ensures inputs.buttonCircle != HIGH ==>
                && rainbowIndex == old(rainbowIndex) && rainbowTimer == old(rainbowTimer)
                && forall i :: 0 <= i < pixels.Length ==> pixels[i] == 0
      ensures inputs.buttonCircle == HIGH && !old(isRainbowActive) ==>
                rainbowIndex == 0 && rainbowTimer == inputs.currentTime && pixels[..] == old(pixels[..])
      ensures inputs.buttonCircle == HIGH && old(isRainbowActive)
              && Sub(inputs.currentTime, old(rainbowTimer)) >= RAINBOW_PERIOD_MS ==>
                && rainbowTimer == inputs.currentTime
                && rainbowIndex == (old(rainbowIndex) + 1) % 256
                && pixels[..] == RainbowFrame(old(rainbowIndex), pixels.Length)
      ensures inputs.buttonCircle == HIGH && old(isRainbowActive)
              && Sub(inputs.currentTime, old(rainbowTimer)) < RAINBOW_PERIOD_MS ==>
                rainbowIndex == old(rainbowIndex) && rainbowTimer == old(rainbowTimer)
                && pixels[..] == old(pixels[..])
      ensures isRainbowActive <==> inputs.buttonCircle == HIGH
    {
      Update(inputs);
      SetRotationDirection(directionDraw, intervalDraw);
      PerformRotate(speedBias, speedDraw);
      EyeBlink();
      UpdateSound(soundDraw, backendPlaying);
      UpdateRainbow();
    }
  }
}
