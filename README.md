# Animatronic head firmware — a verified model

This project models the control logic of an animatronic head's firmware. The firmware runs on an RP2040 board. On every 100 ms tick of its main loop it does the following:

- It reads two limit sensors, a PIR motion sensor and two buttons.
- The **head-rotation controller** (`Animation`) picks the neck motor's direction and drives the two H-bridge inputs. At a limit sensor it reverses. Otherwise it makes a biased random choice, re-evaluated every 500–999 ms.
- It plays a sound when motion is sensed and stops the motor after 30 s without motion.
- It runs a rainbow effect on the LED ring while the circle button is held. It plays a random sound when the rectangle button is pressed.
- An **eye LED** component (`EyeAnimation`) holds the eye's colour logic. It builds the blink order of the 16-pixel eye ring and runs a blink / blink-sequence state machine.
- The **audio player** (`AudioPlayer`) is a Stopped/Playing state machine over a table of sounds.
- The **WAV playback cursor** (`TimerAudio`) finds the `data` chunk of a RIFF WAVE file and steps through its samples, one PWM level pair per sample.

The model has one Dafny module per component:

| module | file | models |
|---|---|---|
| `Arduino` | `arduino.dfy` | 32-bit `unsigned long` time arithmetic (wraps modulo 2^32); `random(min, max)` with the raw draw as a parameter; `constrain`; the `uint8_t` and `int8_t` conversions |
| `MotorDirections` | `motor_direction.dfy` | the `MotorDirection` enum over `int8_t` and its `*=` / `*` operators |
| `EyeColors` | `eye_colors.dfy` | the eye's packing and unpacking of 24-bit colours, brightness scaling, colour wheel and rainbow offsets |
| `Animation` | `animation.dfy` | the direction policy as functions, and the `Animation` class with its fields, setters, per-step methods and the main-loop `Tick` |
| `EyeAnimation` | `eye_animation.dfy` | the pixel-order construction and the blink state machine as functions, and the `EyeAnimation` class |
| `AudioPlayer` | `audio_player.dfy` | the `AudioPlayer` class and the rejection sampler of the native build |
| `TimerAudio` | `timer_audio.dfy` | the header scan as functions, and the `TimerAudio` class |

Conventions used throughout:

- **Environment as parameters.** Timestamps, sensor levels, random draws and the audio backend's `playing()` answer are parameters. Every `random(lo, hi)` is `Arduino.Random(lo, hi, raw)`, where `raw` is an unconstrained natural number.
- **Outputs as values.** Output that goes to hardware becomes a value:
  - The two `analogWrite` motor outputs are a `MotorOutputs` field.
  - The PWM levels of `TimerAudio` are returned.
  - The LED strip is an `array<u32>`.
  - The backend calls of `AudioPlayer` are a log.
- **Floating point.**
  - The speed ramp `exp(-12 (t - 0.5)^2)` is a parameter `speedBias: u32 -> real` with values in [0, 1].
  - The weighted direction pick `random(0,1000)/1000 * (l + r) < l` is stated as the exact integer test `k * (l + r) < 1000 * l`, which `PicksForwardIsScaledTest` proves equal to the test over exact reals.
  - The blink "phase complete" test `elapsed / (duration / 2) >= 1` is computed over exact reals.

Some behaviours of the code are worth knowing when reading the contracts:

- **Stop sound repeats.** After 30 s without motion, `performRotate` plays sound 1 and writes 0 to both motor inputs on *every* tick until motion is sensed again (lib/Animation/Animation.cpp:119-123). `Animation.Animation.PerformRotate` states exactly that.
- **Timer cleared at the clock wrap.** When `now + random(500, 1000)` wraps past 2^32, the re-evaluation timer is cleared in the same call, and the next tick picks again (`Animation.RandomPickChoice`).
- **Dead branch.** In `calculatePixelOrder`, the branch `else if (!used[newLeftPos])` (lib/EyeAnimation/EyeAnimation.cpp:182-184) cannot be reached. Once the two fronts differ, the clockwise walk has stopped on an unused pixel, so the branch before it is always taken. The model's `CalculatePixelOrder` marks that branch `assert false`, and the verifier proves it unreachable.
- **Equal top pixels.** When the two top pixels are equal, entries 0 and 1 of the order are the same pixel. `PixelOrderShape` allows exactly that.
- **Non-adjacent top pixels.** When the two top pixels are not adjacent (for example 0 and 8), the order keeps trailing 0xFF entries. `PixelOrderShape` allows those too. The order is complete only when no 0xFF entry remains (`EyeAnimation.CompleteOrderCoversRing`).

Where the two disagree, the model follows the code of the `.cpp` files:

- The `.h` of EyeAnimation declares `m_activeColor`, `updateRainbowColor` and `updateActiveColor`. The `.cpp` uses `m_defaultColor`, `updateRainbow` and `updateDefault`, and the model follows the `.cpp`.
- `AudioPlayer::play` returns nothing. The tests under test/AudioPlayer expect a `bool`.
- The tests under test/Animation describe another revision of the controller, with `Left`/`Right` directions, a movement cycle and a PIR debounce. The code modelled here has none of these.

## Model

| member | source | states |
|---|---|---|
| Arduino.Add | lib/EyeAnimation/EyeAnimation.cpp:222 | `a + b` on `unsigned long`: the true sum when it fits in 32 bits, the sum minus 2^32 otherwise |
| Arduino.Sub | lib/Animation/Animation.cpp:47-48 | `a - b` on `unsigned long`: the true difference when `b <= a`, otherwise the difference plus 2^32 |
| Arduino.SubAdd | lib/Animation/Animation.cpp:78-79 | unsigned subtraction undoes unsigned addition, across the wrap too (`(now + d) - now == d`) |
| Arduino.ElapsedAcrossWrap | lib/Animation/Animation.cpp:119 | `now - start` measures the true elapsed time whenever it is below 2^32, even when the clock wrapped in between |
| Arduino.ToU8 | lib/EyeAnimation/EyeAnimation.cpp:239 | the `uint8_t` conversion is congruent modulo 256 and is the identity on 0..255 |
| Arduino.ToI8 | lib/Animation/Animation.h:20 | the `int8_t` conversion is congruent modulo 256 and is the identity on -128..127 |
| Arduino.Random | lib/Animation/Animation.cpp:68 | `random(min, max)` lies in [min, max) when min < max, and is `min` otherwise |
| Arduino.RandomCovers | lib/Animation/Animation.cpp:78 | every value of the range is produced by some draw |
| Arduino.Constrain | lib/Animation/Animation.cpp:15 | `constrain(x, lo, hi)` lies in [lo, hi], is `x` inside the range, and is the nearer bound outside it |
| MotorDirections.Encode | lib/Animation/Animation.h:12-16 | the enum values are in -1..1, and 0 only for Stop |
| MotorDirections.Decode | lib/Animation/Animation.h:20 | the cast back to the enum names an enumerator exactly for -1, 0 and 1 |
| MotorDirections.DecodeEncode | lib/Animation/Animation.h:12-16 | decoding undoes encoding, and only an enumerator's value decodes to it |
| MotorDirections.Opposite | lib/Animation/Animation.h:19-21 | reversal negates the encoded value |
| MotorDirections.TimesAssign | lib/Animation/Animation.h:19-21 | `d *= k` gives a named enumerator exactly when the product lies in -1..1, when the product fits `int8_t` |
| MotorDirections.TimesAssignSign | lib/Animation/Animation.h:19-21 | `d *= -1` swaps Forward and Backward and keeps Stop; `d *= 1` changes nothing |
| MotorDirections.TimesAssignValid | lib/Animation/Animation.h:19-21 | a multiplier of 1 or -1 always gives an enumerator; a multiplier of Forward or Backward with magnitude 2..127 never does |
| MotorDirections.OppositeInvolution | lib/Animation/Animation.h:19-21 | reversing twice is the identity, and only Stop reverses to Stop |
| MotorDirections.TimesAgree | lib/Animation/Animation.h:24-31 | both argument orders of `operator*` agree with `operator*=` (for `d * k` this holds by definition, since both are the same cast of the same product; the `k * d` half is the one with content) |
| MotorDirections.TimesLeft | lib/Animation/Animation.h:24-26 | `-1 * d` swaps Forward and Backward and `1 * d` is d |
| MotorDirections.TimesRight | lib/Animation/Animation.h:29-31 | `d * -1` swaps Forward and Backward and `d * 1` is d |
| EyeColors.Pack | lib/EyeAnimation/EyeAnimation.cpp:38 | a packed colour fits in 24 bits |
| EyeColors.UnpackPack | lib/EyeAnimation/EyeAnimation.cpp:91-93 | unpacking a packed colour gives back its red, green and blue channels |
| EyeColors.PackUnpack | lib/EyeAnimation/EyeAnimation.cpp:100 | repacking the channels of a 24-bit colour gives the same colour |
| EyeColors.PackIsBitwiseOr | lib/EyeAnimation/EyeAnimation.cpp:38 | `(r << 16) \| (g << 8) \| b` on 32-bit words equals the sum the model uses, and fits in 24 bits |
| EyeColors.Red | lib/EyeAnimation/EyeAnimation.cpp:91 | `(c >> 16) & 0xFF`: for a 24-bit colour, the high byte |
| EyeColors.Green | lib/EyeAnimation/EyeAnimation.cpp:92 | `(c >> 8) & 0xFF`: the middle byte, so the low 16 bits are green * 256 + blue |
| EyeColors.Blue | lib/EyeAnimation/EyeAnimation.cpp:93 | `c & 0xFF`: the low byte, congruent to the colour modulo 256 |
| EyeColors.ScaleChannel | lib/EyeAnimation/EyeAnimation.cpp:96-98 | `(c * b) >> 8` never exceeds `c`, and is strictly smaller for any nonzero channel (hence the early return at 255) |
| EyeColors.ScaleColor | lib/EyeAnimation/EyeAnimation.cpp:85-101 | at brightness 255 the colour passes unchanged; otherwise the result fits in 24 bits and each channel is the scaled channel |
| EyeColors.FullBrightnessFormulaDims | lib/EyeAnimation/EyeAnimation.cpp:85-98 | the scaling formula at 255 would dim every nonzero channel by one, which the early return at 255 avoids |
| EyeColors.ZeroBrightnessIsBlack | lib/EyeAnimation/EyeAnimation.cpp:96-100 | brightness 0 gives black |
| EyeColors.Wheel | lib/EyeAnimation/EyeAnimation.cpp:104-118 | the eye's wheel colour has one zero channel and channels that sum to 255 |
| EyeColors.RainbowOffset | lib/EyeAnimation/EyeAnimation.cpp:53 | pixel 0's wheel position is the rainbow index modulo 256 |
| EyeColors.RainbowOffsetStep | lib/EyeAnimation/EyeAnimation.cpp:53-58 | advancing the index by one moves every pixel's wheel position by one, modulo 256 |
| Animation.TurnBias | lib/Animation/Animation.cpp:51-64 | a side's weight is 2 exactly under 200 ms since its last turn, 3 exactly over 2000 ms, and 1 otherwise |
| Animation.PicksForwardIsScaledTest | lib/Animation/Animation.cpp:66-69 | the integer test `k (l + r) < 1000 l` equals the exact-real test `k / 1000 * (l + r) < l` |
| Animation.PicksForwardMonotone | lib/Animation/Animation.cpp:66-77 | raising the left weight or lowering the right weight never turns a Forward pick into Backward |
| Animation.EqualBiasesSplitEvenly | lib/Animation/Animation.cpp:66-77 | with equal weights, Forward is picked exactly for draws below 500 |
| Animation.RandomPick | lib/Animation/Animation.cpp:46-78 | a due pick is Forward or Backward, never Stop; only the chosen side's turn time becomes now; the timer lies 500..999 ms ahead |
| Animation.NextRotation | lib/Animation/Animation.cpp:35-86 | a step yields Stop only from Stop; each turn time is kept or becomes now; the timer is 0, kept, or less than 1000 ms ahead |
| Animation.DirectionDuration | lib/Animation/Animation.cpp:95-100 | the time since the last turn of the current side (Forward: the left turn, otherwise the right turn), across the 32-bit wrap: that turn time plus the result is now |
| Animation.LimitSensorReverses | lib/Animation/Animation.cpp:39-41 | a limit sensor reverses the direction once (even with both HIGH), keeps Stop, clears the timer and keeps the turn times |
| Animation.RandomPickChoice | lib/Animation/Animation.cpp:46-84 | a due pick is never Stop; it is Forward iff the weighted test holds; only the chosen side's turn time becomes now; the timer is now + d with 500 <= d < 1000, or 0 when that wrapped |
| Animation.PendingTimerKeepsState | lib/Animation/Animation.cpp:44-85 | with no sensor HIGH and a nonzero timer still ahead, nothing changes |
| Animation.ExpiredTimerIsCleared | lib/Animation/Animation.cpp:81-84 | with no sensor HIGH and the timer reached, the timer becomes 0 and nothing else changes |
| Animation.NoSensorNeverStops | lib/Animation/Animation.cpp:44-85 | with neither sensor HIGH (any other level, LOW included), the direction after the step is never Stop, once a pick is due or a direction is held |
| Animation.BiasedSpeed | lib/Animation/Animation.cpp:108-110 | the top of the speed band lies in [60, 255]: 60 at bias 0 and 255 at bias 1 |
| Animation.BiasedSpeedMonotone | lib/Animation/Animation.cpp:110 | a larger bias never lowers the top of the band |
| Animation.PirSpeed | lib/Animation/Animation.cpp:112 | the drawn speed lies in [60, biased speed] within [60, 255] |
| Animation.Drive | lib/Animation/Animation.cpp:13-33 | Forward puts the speed on In1, Backward on In2, Stop writes 0 to both; the two inputs are never driven together |
| Animation.PirDriveInBand | lib/Animation/Animation.cpp:105-113 | while motion is sensed and the direction is not Stop, the motor is driven at a speed of the band |
| Animation.Wheel | lib/Animation/Animation.cpp:144-164 | the controller's wheel colour has one zero channel and channels that sum to 255 |
| Animation.EyeWheelMirrorsWheel | lib/EyeAnimation/EyeAnimation.cpp:104-118 | the eye's wheel is the controller's wheel at `255 - pos` with green and blue exchanged |
| Animation.RainbowFrame | lib/Animation/Animation.cpp:176-179 | the rainbow frame has one colour per pixel, each a colour of the wheel (one zero channel, channels summing to 255), and the first pixel shows the wheel at the current index |
| Animation.RainbowStepAdvancesEveryPixel | lib/Animation/Animation.cpp:177-182 | the next frame moves every pixel one position along the wheel |
| Animation.Animation.constructor | lib/Animation/Animation.h:36-45 | a new controller's direction is Stop; the other fields have no initial value and are left arbitrary |
| Animation.Animation.SetInputSensorLeft | lib/Animation/Animation.h:68 | sets only the left sensor level |
| Animation.Animation.SetInputSensorRight | lib/Animation/Animation.h:69 | sets only the right sensor level |
| Animation.Animation.SetInputPIRSensor | lib/Animation/Animation.h:70 | sets only the PIR level |
| Animation.Animation.SetInputButtonRectangle | lib/Animation/Animation.h:71 | sets only the rectangle button level |
| Animation.Animation.SetInputButtonCircle | lib/Animation/Animation.h:72 | sets only the circle button level |
| Animation.Animation.SetCurrentTime | lib/Animation/Animation.h:73 | sets only the current time |
| Animation.Animation.SetMotorDirection | lib/Animation/Animation.h:74 | sets only the direction |
| Animation.Animation.SetRandomRotateTimer | lib/Animation/Animation.h:75 | sets only the re-evaluation timer |
| Animation.Animation.SetLastLeftTurnTime | lib/Animation/Animation.h:76 | sets only the last left-turn time |
| Animation.Animation.SetLastRightTurnTime | lib/Animation/Animation.h:77 | sets only the last right-turn time |
| Animation.Animation.SetLastPIRTimer | lib/Animation/Animation.h:78 | sets only the last motion time |
| Animation.Animation.SetIsRainbowActive | lib/Animation/Animation.h:79 | sets only the rainbow flag |
| Animation.Animation.SetRainbowIndex | lib/Animation/Animation.h:80 | sets only the rainbow index |
| Animation.Animation.SetRainbowTimer | lib/Animation/Animation.h:81 | sets only the rainbow timer |
| Animation.Animation.Update | lib/Animation/Animation.cpp:3-11 | latches the five input levels and the time of the snapshot, and changes nothing else |
| Animation.Animation.Stop | lib/Animation/Animation.cpp:29-33 | both motor inputs are 0 |
| Animation.Animation.Rotate | lib/Animation/Animation.cpp:13-27 | the motor outputs are those of `Drive` for the speed and direction |
| Animation.Animation.SetRotationDirection | lib/Animation/Animation.cpp:35-86 | the direction, timer and turn times become `NextRotation` of the old ones; the lemmas above state what that is |
| Animation.Animation.PickDirection | lib/Animation/Animation.cpp:46-79 | the weighted random pick computed step by step on the fields equals `RandomPick` of the old direction state |
| Animation.Animation.PerformRotate | lib/Animation/Animation.cpp:88-126 | motion sensed: sound 0 plays, the motor runs in the current direction at a speed of the band for the direction's duration, the motion time is now. No motion for 30 s: sound 1 plays and both inputs are 0. Otherwise nothing changes. The direction and, without motion, the motion time are never changed |
| Animation.Animation.EyeBlink | lib/Animation/Animation.cpp:128-142 | circle button HIGH: the rainbow is on, restarted at index 0 and now if it was off. Otherwise: the rainbow is off and every pixel is cleared |
| Animation.Animation.UpdateSound | lib/Animation/Animation.cpp:187-193 | rectangle button with nothing playing starts a random sound; a sound the backend has finished is stopped; otherwise the player is unchanged |
| Animation.Animation.UpdateRainbow | lib/Animation/Animation.cpp:166-185 | when on and 20 ms have passed, the strip shows the rainbow frame of the old index, the timer is now and the index advances modulo 256; otherwise nothing changes |
| Animation.Animation.Tick | src/main.cpp:70-81 | one main-loop pass in the firmware's order: all five inputs and the time are latched; the direction state follows `NextRotation`; the motor follows the PIR rule; the audio plays the PIR sound on motion, the stop sound 30 s after the last motion, otherwise keeps a playing sound or plays a random sound on the rectangle button and is Stopped (-1) otherwise, and is Stopped whenever the backend is idle; the rainbow is on iff the circle button is HIGH: off clears every pixel and keeps index and timer, switching on resets index to 0 and timer to now, a due step (20 ms) shows `RainbowFrame` of the old index and advances index modulo 256, an early step changes nothing |
| EyeAnimation.CompleteOrderCoversRing | lib/EyeAnimation/EyeAnimation.cpp:130-193 | a pixel order with distinct tops and no unset entry contains every pixel of the ring |
| EyeAnimation.WalkCounterClockwise | lib/EyeAnimation/EyeAnimation.cpp:153-156 | the left front stops on an unused pixel or on the right front |
| EyeAnimation.WalkClockwise | lib/EyeAnimation/EyeAnimation.cpp:159-162 | the right front stops on an unused pixel or on the left front |
| EyeAnimation.Append | lib/EyeAnimation/EyeAnimation.cpp:174-188 | appending an unused pixel writes it at the next slot and marks it used, and only that pixel |
| EyeAnimation.PartialOrderShape | lib/EyeAnimation/EyeAnimation.cpp:151-193 | an order filled so far by the loop has the shape of a pixel order |
| EyeAnimation.StartBlink | lib/EyeAnimation/EyeAnimation.cpp:203-222 | a running blink is kept; otherwise the blink runs in phase 1 with a positive duration (the requested one when nonzero) and a count of at least 1 |
| EyeAnimation.StartBlinkWhileBlinking | lib/EyeAnimation/EyeAnimation.cpp:205-207 | `blink` during a blink changes nothing |
| EyeAnimation.StartBlinkStartsClosing | lib/EyeAnimation/EyeAnimation.cpp:209-222 | otherwise a count of 0 becomes 1, a zero duration becomes 300, the phase is 1 (closing), the start is now and the end is start + duration (32-bit) |
| EyeAnimation.SequenceLength | lib/EyeAnimation/EyeAnimation.cpp:252-259 | a draw under 70 gives 1 blink, 70..94 gives 2, 95 and over gives 3 |
| EyeAnimation.SequenceDurationAsWritten | lib/EyeAnimation/EyeAnimation.cpp:239 | the sequence blink duration as written: a `random(100, 400)` result v under 256 is kept and one of 256 or more becomes v - 256, so it falls below the 100 ms minimum exactly when 256 <= v < 356 |
| EyeAnimation.SequenceDurationAsWrittenWraps | lib/EyeAnimation/EyeAnimation.cpp:239-241 | the truncation produces 0 (then a 300 ms blink while the gap timer assumes 0 ms) and 44 (below the 100 ms minimum) |
| EyeAnimation.SequenceDuration | lib/EyeAnimation/EyeAnimation.cpp:239 | the corrected duration lies in [100, 400) and agrees with the code whenever it fits a byte |
| EyeAnimation.SequenceStep | lib/EyeAnimation/EyeAnimation.cpp:230-263 | a running blink is kept; a blink starts only while blinks are pending, keeping the count; with none pending no blink starts; the count changes only from 0, to 1..3, clearing the schedule |
| EyeAnimation.SequenceStepAsWritten | lib/EyeAnimation/EyeAnimation.cpp:230-263 | the step as written: the same guards, but a started blink records its end as now plus the `uint8_t` duration |
| EyeAnimation.SequenceStepAgreesBelowWrap | lib/EyeAnimation/EyeAnimation.cpp:239-241 | the written and the corrected step agree whenever the draw is below 256, and differ on every blink started with a draw of 256 or more |
| EyeAnimation.SequenceStartsNextBlink | lib/EyeAnimation/EyeAnimation.cpp:235-242 | with blinks left and the 150 ms gap passed, the next blink starts and the gap timer is set to its end |
| EyeAnimation.SequenceWaitsForGap | lib/EyeAnimation/EyeAnimation.cpp:238 | before the 150 ms gap has passed, nothing changes |
| EyeAnimation.SequenceSchedulesPause | lib/EyeAnimation/EyeAnimation.cpp:245-248 | idle with no blinks left and no pause scheduled: the next sequence is scheduled at now + [2000, 8000) |
| EyeAnimation.SequenceChoosesLength | lib/EyeAnimation/EyeAnimation.cpp:250-261 | when the scheduled time is reached, the blink count is drawn and the schedule is cleared |
| EyeAnimation.PhaseComplete | lib/EyeAnimation/EyeAnimation.cpp:272-275 | a phase is complete once the whole duration has elapsed and never at elapsed 0 |
| EyeAnimation.PhaseCompleteAtHalf | lib/EyeAnimation/EyeAnimation.cpp:273-275 | a phase is complete exactly when twice the elapsed time reaches the blink duration |
| EyeAnimation.BlinkStep | lib/EyeAnimation/EyeAnimation.cpp:265-291 | the returned flag says whether the eye is still blinking |
| EyeAnimation.DecrementIfPositive | lib/EyeAnimation/EyeAnimation.cpp:286-288 | the count never grows, drops by at most one, and drops exactly when it was positive |
| EyeAnimation.SequenceStepKeepsInv | lib/EyeAnimation/EyeAnimation.cpp:230-263 | a sequence step keeps the blink invariant: count at most 3, and a running blink has phase 1 or 2, a positive duration and a count of at least 1 |
| EyeAnimation.BlinkStepKeepsInv | lib/EyeAnimation/EyeAnimation.cpp:265-291 | an update step keeps the blink invariant |
| EyeAnimation.ClosingTurnsToOpening | lib/EyeAnimation/EyeAnimation.cpp:277-282 | a completed closing phase turns into the opening phase, restarted now, with end now + duration |
| EyeAnimation.OpeningEndsBlink | lib/EyeAnimation/EyeAnimation.cpp:283-289 | a completed opening phase ends the blink and uses up one blink of the count |
| EyeAnimation.IncompletePhaseWaits | lib/EyeAnimation/EyeAnimation.cpp:272-275 | an incomplete phase changes nothing and reports blinking |
| EyeAnimation.BlinkRunsTwoPhases | lib/EyeAnimation/EyeAnimation.cpp:203-291 | a blink started from idle closes, then opens, then ends with the count one lower, when each update comes half a duration after the phase start |
| EyeAnimation.EyeAnimation.constructor | lib/EyeAnimation/EyeAnimation.cpp:3-34 | the initial colour, brightness, tops and blink state; a valid pixel order; every pixel off |
| EyeAnimation.EyeAnimation.SetDefaultColor | lib/EyeAnimation/EyeAnimation.cpp:36-39 | the stored colour fits in 24 bits and its channels read back as r, g and b |
| EyeAnimation.EyeAnimation.SetBrightness | lib/EyeAnimation/EyeAnimation.cpp:41-44 | sets only the brightness |
| EyeAnimation.EyeAnimation.SetCurrentTime | lib/EyeAnimation/EyeAnimation.h:111 | sets only the current time |
| EyeAnimation.EyeAnimation.SetPixelColorWithBrightness | lib/EyeAnimation/EyeAnimation.cpp:83-102 | the one pixel gets the scaled colour and no other pixel changes; an index past the strip changes nothing |
| EyeAnimation.EyeAnimation.SetAllPixelsColor | lib/EyeAnimation/EyeAnimation.cpp:75-81 | every pixel gets the colour scaled by the current brightness |
| EyeAnimation.EyeAnimation.SetTopPixels | lib/EyeAnimation/EyeAnimation.cpp:120-128 | both tops are stored modulo 16, and the pixel order is rebuilt for them |
| EyeAnimation.EyeAnimation.CalculatePixelOrder | lib/EyeAnimation/EyeAnimation.cpp:130-201 | the order starts with the two tops; every later entry is a pixel of the ring appended once, or a trailing 0xFF |
| EyeAnimation.EyeAnimation.Blink | lib/EyeAnimation/EyeAnimation.cpp:203-228 | the blink fields become `StartBlink` of the old ones and keep the blink invariant |
| EyeAnimation.EyeAnimation.SequenceBlink | lib/EyeAnimation/EyeAnimation.cpp:230-263 | the blink fields become `SequenceStep` of the old ones, using the corrected duration |
| EyeAnimation.EyeAnimation.UpdateBlink | lib/EyeAnimation/EyeAnimation.cpp:265-291 | the blink fields and the result are `BlinkStep` of the old fields, and the blink invariant is kept |
| EyeAnimation.EyeAnimation.UpdateRainbow | lib/EyeAnimation/EyeAnimation.cpp:46-64 | every pixel gets the scaled wheel colour of its offset, the timer is now, the index advances modulo 256, and the blink state takes one update step |
| EyeAnimation.EyeAnimation.UpdateDefault | lib/EyeAnimation/EyeAnimation.cpp:66-73 | every pixel gets the default colour scaled by the brightness, and the blink state takes one update step |
| AudioPlayer.RejectionBound | lib/AudioPlayer/AudioPlayer.cpp:32 | `max` is the largest multiple of the table size that is at most RAND_MAX |
| AudioPlayer.RejectionSample | lib/AudioPlayer/AudioPlayer.cpp:30-34 | every rejected draw is at least `max`; the accepted draw is the first below `max`, and its index lies in [0, 3) |
| AudioPlayer.AudioPlayer.constructor | lib/AudioPlayer/AudioPlayer.h:17-31 | a new player is Stopped with index -1; with a backend, `begin` is called and the table is copied entry by entry; without one, neither |
| AudioPlayer.AudioPlayer.IsPlaying | lib/AudioPlayer/AudioPlayer.h:40 | playing iff the state is Playing, iff the index is one of the table |
| AudioPlayer.AudioPlayer.GetState | lib/AudioPlayer/AudioPlayer.h:38 | the state is never Paused, and is Stopped iff the index is -1 |
| AudioPlayer.AudioPlayer.GetCurrentSoundIndex | lib/AudioPlayer/AudioPlayer.h:39 | the index is -1 or a table index, and -1 iff not playing |
| AudioPlayer.AudioPlayer.Play | lib/AudioPlayer/AudioPlayer.cpp:3-11 | an index outside the table changes nothing; a table index makes the player Playing that sound and writes the entry to the backend |
| AudioPlayer.AudioPlayer.Stop | lib/AudioPlayer/AudioPlayer.cpp:13-17 | always Stopped with index -1, with one flush of the backend |
| AudioPlayer.AudioPlayer.Update | lib/AudioPlayer/AudioPlayer.cpp:19-23 | Playing with the backend finished stops the player; in every other case nothing changes |
| AudioPlayer.AudioPlayer.PlayRandomSound | lib/AudioPlayer/AudioPlayer.cpp:25-37 | the board build plays the sound `random(0, 3)` |
| AudioPlayer.AudioPlayer.PlayRandomSoundNative | lib/AudioPlayer/AudioPlayer.cpp:30-36 | once some draw is accepted, the native build plays the sound at the first accepted draw modulo 3 and writes that sound's data and size to the backend; when every draw is rejected, nothing changes |
| TimerAudio.FindDataChunkFirst | lib/TimerAudio/TimerAudio.cpp:143-153 | the scan returns the first index with the bytes `d`, `a`, `t`, `a`, and nothing iff no index in range has them |
| TimerAudio.FindDataChunk | lib/TimerAudio/TimerAudio.cpp:143-153 | a found index lies in the scanned range and starts the bytes `d`, `a`, `t`, `a` |
| TimerAudio.ScanLimit | lib/TimerAudio/TimerAudio.cpp:143 | the scan covers at most 100 indices, and each 4-byte window lies below the size |
| TimerAudio.StartPosition | lib/TimerAudio/TimerAudio.cpp:140-163 | the start is 0 without header skipping or for sizes up to 44; otherwise 8 past the first marker, or 44 without one |
| TimerAudio.StartAfterFirstMarker | lib/TimerAudio/TimerAudio.cpp:145-151 | the first marker at i gives start i + 8 |
| TimerAudio.StartWithoutMarker | lib/TimerAudio/TimerAudio.cpp:154-158 | no marker in the scanned range gives start 44 |
| TimerAudio.FindDataChunkPrefix | lib/TimerAudio/TimerAudio.cpp:143-148 | the scan reads no byte at or past the size |
| TimerAudio.StartPositionReadsBelowSize | lib/TimerAudio/TimerAudio.cpp:137-163 | the start position depends only on the bytes below the size |
| TimerAudio.SampleLevels | lib/TimerAudio/TimerAudio.cpp:214-215 | the positive output is the sample and the two outputs sum to 255 |
| TimerAudio.TimerAudio.constructor | lib/TimerAudio/TimerAudio.cpp:29-41 | no data, size 0, position 0, not playing, header skipping on |
| TimerAudio.TimerAudio.Stop | lib/TimerAudio/TimerAudio.cpp:174-184 | not playing, position 0, data kept, both outputs at the silence level |
| TimerAudio.TimerAudio.PlayWAV | lib/TimerAudio/TimerAudio.cpp:128-167 | after the implicit stop, playing iff the data is present and its size is positive, from `StartPosition`; otherwise position 0 |
| TimerAudio.TimerAudio.UpdateSample | lib/TimerAudio/TimerAudio.cpp:192-217 | not playing: nothing. Playing past the end or without data: stops. Otherwise it emits the byte at the position and advances it by exactly one |

## Findings

| source | as written | input that shows it | evidently intended | confidence | as-written member | corrected member |
|---|---|---|---|---|---|---|
| lib/EyeAnimation/EyeAnimation.cpp:239-241 | `uint8_t duration = random(100, 400);` keeps the draw modulo 256, then passes it to `blink` and adds it to `lastBlinkEnd` | `random(100, 400)` returning 256 gives duration 0: `blink` then runs its default 300 ms blink while `lastBlinkEnd` is set to now + 0. Returning 300 gives 44, below the 100 ms minimum | a duration in [100, 400), held in `unsigned long` | high (not executed) | EyeAnimation.SequenceDurationAsWrittenWraps | EyeAnimation.SequenceDuration |

## Left out

- Getters of `Animation` (lib/Animation/Animation.h:52-65): the model's fields are public and read directly.
- Animation.Animation.constructor: the pins, the NeoPixel strip object and the logger are not modelled. The audio player and the LED strip are passed in.
- The speed bias `exp(-12 (t - 0.5)^2)` and `fmin` (lib/Animation/Animation.cpp:105-106) are floating point. The bias is a parameter with values in [0, 1].
- Animation.PicksForwardIsScaledTest: `random(0,1000) / 1000.0f * totalBias < leftBias` is computed in `float`. The model proves its integer test equal to the exact-real test; float rounding is not modelled.
- EyeAnimation.BlinkStep: the blink progress is a `float` quotient. The model computes it over exact reals, so float rounding is not modelled.
- The per-pixel blink fade and the `m_pixelProgress` array (lib/EyeAnimation/EyeAnimation.cpp:16, 25, 224-227, 293-350) are floating point. This includes the write to pixel 16 at line 350.
- EyeAnimation.EyeAnimation.CalculatePixelOrder: the contract states the shape of the order: tops first, no pixel twice, trailing 0xFF only. It does not state that the order is complete. For non-adjacent tops it is not, and completeness is proved only conditionally (`CompleteOrderCoversRing`).
- The function-local `static lastBlinkEnd` of `sequenceBlink` (lib/EyeAnimation/EyeAnimation.cpp:237) is a field of the blink state.
- NeoPixel `clear`, `show` and `numPixels`: the strip is an array and `show` has no effect on it.
- `analogWrite` is recorded as the `motor` field. `pwm_set_gpio_level` is returned as `PwmLevels`.
- Logging (`m_logger.print`, `Log.debug`, lib/Logger) is output only.
- `readInputs`, `digitalRead` and `millis` (lib/Animation/AnimationInputs.h:15-24) are hardware reads. Their results are the `AnimationInputs` parameter of `Tick`.
- The pin tables (lib/Animation/AnimationPins.h), `setup` and `Watchdog.sleep` (src/main.cpp) are hardware configuration and timing.
- The timer interrupt, `setupPWM`/`setupTimer`, the destructor, the `volatile` fields and the static instance of `TimerAudio` are hardware and concurrency. `updateSample` is a plain sequential step.
- TimerAudio.TimerAudio.PlayWAV: it takes the sound's bytes and size directly. The `getWavData`/`getWavSize` lookup and the WavData tables (lib/WavData) are static data.
- The audio backend (`ROMBackgroundAudioWAV`) is a log of `begin`, `write` and `flush` calls. Its `playing()` answer is a parameter.
- AudioPlayer.AudioPlayer.PlayRandomSoundNative: `rand()` is a finite sequence of draws. When every draw is rejected the model plays nothing, where the code would keep drawing.
- AudioPlayer.AudioPlayer.constructor: without a backend, the table copies keep their initial contents. The contract says nothing about them.
- EyeAnimation.EyeAnimation.SequenceBlink: follows the corrected `SequenceStep`, not the `uint8_t` truncation of lib/EyeAnimation/EyeAnimation.cpp:239, so for a `random(100, 400)` result of 256 or more it starts a blink of that full length where the code starts one of the result minus 256 (or 300 ms for 256) and records a different end. The same holds for EyeAnimation.EyeAnimation.UpdateBlink, EyeAnimation.EyeAnimation.UpdateRainbow and EyeAnimation.EyeAnimation.UpdateDefault, which call it. The written step is `EyeAnimation.SequenceStepAsWritten`, and `EyeAnimation.SequenceStepAgreesBelowWrap` proves the two agree for results below 256 and differ above.
- AudioPlayer.AudioPlayer.Stop: requires a backend. On a player built without one, `stop()` dereferences a null backend at lib/AudioPlayer/AudioPlayer.cpp:16, which is undefined behaviour, so the model gives that call no meaning.
