/**
 * lib/EyeAnimation/EyeAnimation.cpp: the eye ring of 16 NeoPixels. It paints
 * a rainbow or a solid colour scaled by a brightness, and runs blinks that
 * close and then open the ring in the order calculatePixelOrder builds
 * outward from two top pixels. Blinks come in sequences of 1-3, separated by
 * random pauses.
 *
 * The strip is an array of colours. The per-pixel fade of a blink is floating
 * point and is left out; what is kept is the blink state machine (phases,
 * counts, timers), with the phase test computed over exact reals. The
 * function-local `static lastBlinkEnd` of sequenceBlink is a field.
 */
module EyeAnimation {
  import opened Arduino
  import opened EyeColors

  /** The eye ring has 16 pixels (NUM_PIXELS_IN_RING). */
  const RING_SIZE: int := 16
  /** The marker calculatePixelOrder writes into entries it does not fill. */
  const UNSET: u8 := 0xFF
  const DEFAULT_COLOR: u32 := 0x00_0080
  const DEFAULT_BRIGHTNESS: u8 := 255
  const DEFAULT_BLINK_DURATION: u32 := 300
  const DEFAULT_TOP_PIXEL_1: u8 := 0
  const DEFAULT_TOP_PIXEL_2: u8 := 15
  /** A blink of a sequence starts at least this many ms after the previous one's recorded end. */
  const SEQUENCE_GAP_MS: int := 150
  /** A blink of a sequence lasts `random(100, 400)` ms. */
  const MIN_SEQUENCE_BLINK: int := 100
  const MAX_SEQUENCE_BLINK: int := 400
  /** The pause before a new sequence is `random(2000, 8000)` ms. */
  const MIN_SEQUENCE_PAUSE: int := 2000
  const MAX_SEQUENCE_PAUSE: int := 8000
  /** A draw of `random(100)` below 70 gives one blink, below 95 two, else three. */
  const SINGLE_BLINK_BELOW: int := 70
  const DOUBLE_BLINK_BELOW: int := 95

  // ---------------------------------------------------------------------
  // Blink order (calculatePixelOrder)

  /**
   * The shape of the order calculatePixelOrder leaves: entries 0 and 1 are
   * the top pixels, every later entry is a ring index or UNSET, UNSET entries
   * come only at the end, and no ring index appears twice except that the
   * two top entries may coincide.
   */
  ghost predicate PixelOrderShape(order: seq<u8>, top1: u8, top2: u8)
  {
    && |order| == RING_SIZE
    && order[0] == top1 && order[1] == top2
    && (forall j :: 0 <= j < RING_SIZE ==> order[j] < RING_SIZE || (2 <= j && order[j] == UNSET))
    && (forall j, k :: 2 <= j < k < RING_SIZE && order[j] == UNSET ==> order[k] == UNSET)
    && (forall j, k :: 0 <= j < k < RING_SIZE && 2 <= k && order[k] != UNSET ==> order[j] != order[k])
  }

  /**
   * An order without UNSET entries and with distinct top pixels lists every
   * pixel of the ring: it is a permutation of 0..15.
   */
  lemma CompleteOrderCoversRing(order: seq<u8>, top1: u8, top2: u8)
    requires PixelOrderShape(order, top1, top2) && top1 != top2
    requires forall j :: 0 <= j < RING_SIZE ==> order[j] != UNSET
    ensures forall x :: 0 <= x < RING_SIZE ==> x in order
  {
    var ring: seq<int> := seq(RING_SIZE, i => i);
    var listed := set j | 0 <= j < RING_SIZE :: order[j] as int;
    var all := set j | 0 <= j < RING_SIZE :: ring[j];
    InjectiveImageSize(order);
    InjectiveImageSize(ring);
    forall x | 0 <= x < RING_SIZE
      ensures x in order
    {
      if x !in order {
        assert ring[x] == x;
        forall j | 0 <= j < RING_SIZE
          ensures order[j] as int in all - {x}
        {
          assert ring[order[j]] == order[j] as int;
        }
        assert listed <= all - {x};
        SubsetSize(listed, all - {x});
        assert false;
      }
    }
  }

  /** Distinct entries make a set of as many values. */
  lemma InjectiveImageSize(s: seq<int>)
    requires forall j, k :: 0 <= j < k < |s| ==> s[j] != s[k]
    ensures |set j | 0 <= j < |s| :: s[j]| == |s|
  {
    var n := 0;
    while n < |s|
      invariant 0 <= n <= |s|
      invariant |set j | 0 <= j < n :: s[j]| == n
    {
      assert (set j | 0 <= j < n + 1 :: s[j]) == (set j | 0 <= j < n :: s[j]) + {s[n]};
      n := n + 1;
    }
  }

  lemma SubsetSize(a: set<int>, b: set<int>)
    requires a <= b
    ensures |a| <= |b|
  {
    if a != {} {
      assert exists y :: y in a by {
        if forall y :: y !in a {
          assert false;
        }
      }
      var y :| y in a;
      SubsetSize(a - {y}, b - {y});
    }
  }

  /**
   * The left front's walk: from one step counter-clockwise of `start`, step
   * counter-clockwise past used pixels, stopping at `stop`.
   */
  method WalkCounterClockwise(used: array<bool>, start: int, stop: int) returns (pos: int)
    requires used.Length == RING_SIZE && 0 <= start < RING_SIZE && 0 <= stop < RING_SIZE
    ensures 0 <= pos < RING_SIZE
    ensures !used[pos] || pos == stop
  {
    pos := (start - 1 + RING_SIZE) % RING_SIZE;
    while used[pos] && pos != stop
      invariant 0 <= pos < RING_SIZE
      decreases if pos >= stop then pos - stop else pos - stop + RING_SIZE
    {
      pos := (pos - 1 + RING_SIZE) % RING_SIZE;
    }
  }

  /**
   * The right front's walk: from one step clockwise of `start`, step
   * clockwise past used pixels, stopping at `stop`.
   */
  method WalkClockwise(used: array<bool>, start: int, stop: int) returns (pos: int)
    requires used.Length == RING_SIZE && 0 <= start < RING_SIZE && 0 <= stop < RING_SIZE
    ensures 0 <= pos < RING_SIZE
    ensures !used[pos] || pos == stop
  {
    pos := (start + 1) % RING_SIZE;
    while used[pos] && pos != stop
      invariant 0 <= pos < RING_SIZE
      decreases if stop >= pos then stop - pos else stop - pos + RING_SIZE
    {
      pos := (pos + 1) % RING_SIZE;
    }
  }

  /**
   * The state of calculatePixelOrder after `i` entries: the tops first,
   * every entry so far a used ring index, no entry after the tops repeating
   * an earlier one, and UNSET from `i` on.
   */
  ghost predicate PartialOrder(order: array<u8>, used: array<bool>, i: int, top1: u8, top2: u8)
    reads order, used
  {
    && order.Length == RING_SIZE && used.Length == RING_SIZE && 2 <= i <= RING_SIZE
    && order[0] == top1 && order[1] == top2
    && (forall j :: 0 <= j < i ==> order[j] < RING_SIZE && used[order[j]])
    && (forall j, m :: 0 <= j < m < i && 2 <= m ==> order[j] != order[m])
    && (forall j :: i <= j < RING_SIZE ==> order[j] == UNSET)
  }

  /** Entry `i` gets the unused pixel `x`, which becomes used. */
  method Append(order: array<u8>, used: array<bool>, i: int, x: int, ghost top1: u8, ghost top2: u8)
    requires PartialOrder(order, used, i, top1, top2) && i < RING_SIZE
    requires 0 <= x < RING_SIZE && !used[x]
    modifies order, used
    ensures PartialOrder(order, used, i + 1, top1, top2)
    ensures order[i] == x && used[x]
    ensures forall y :: 0 <= y < RING_SIZE && y != x ==> used[y] == old(used[y])
  {
    order[i] := x;
    used[x] := true;
  }

  /** The start of calculatePixelOrder: every entry UNSET, then the two tops, which are the only used pixels. */
  method StartOrder(order: array<u8>, top1: u8, top2: u8) returns (used: array<bool>)
    requires order.Length == RING_SIZE && top1 < RING_SIZE && top2 < RING_SIZE
    modifies order
    ensures fresh(used)
    ensures PartialOrder(order, used, 2, top1, top2)
  {
    var k := 0;
    while k < RING_SIZE
      invariant 0 <= k <= RING_SIZE
      invariant forall j :: 0 <= j < k ==> order[j] == UNSET
    {
      order[k] := UNSET;
      k := k + 1;
    }
    order[0] := top1;
    order[1] := top2;
    used := new bool[RING_SIZE](_ => false);
    used[top1] := true;
    used[top2] := true;
  }

  /**
   * One pass of calculatePixelOrder's loop: both fronts walk, and the pixels
   * they reach are appended. It appends at least one pixel unless the fronts
   * met on a used pixel, which ends the loop.
   */
  method ExtendOrder(order: array<u8>, used: array<bool>, i: int, leftPos: int, rightPos: int,
                     ghost top1: u8, ghost top2: u8)
    returns (newLeftPos: int, newRightPos: int, j: int, done: bool)
    requires PartialOrder(order, used, i, top1, top2) && i < RING_SIZE
    requires 0 <= leftPos < RING_SIZE && 0 <= rightPos < RING_SIZE
    modifies order, used
    ensures PartialOrder(order, used, j, top1, top2)
    ensures 0 <= newLeftPos < RING_SIZE && 0 <= newRightPos < RING_SIZE
    ensures i <= j && (done || i < j)
  {
    j := i;
    done := false;
    newLeftPos := WalkCounterClockwise(used, leftPos, rightPos);
    newRightPos := WalkClockwise(used, rightPos, newLeftPos);
    if newLeftPos == newRightPos {
      if !used[newLeftPos] {
        Append(order, used, j, newLeftPos, top1, top2);
        j := j + 1;
      }
      done := true;
    } else if !used[newLeftPos] && !used[newRightPos] {
      Append(order, used, j, newLeftPos, top1, top2);
      j := j + 1;
      if j < RING_SIZE {
        Append(order, used, j, newRightPos, top1, top2);
        j := j + 1;
      }
    } else if !used[newLeftPos] {
      // Unreachable: the fronts differ here, so the right walk stopped on an unused pixel.
      assert false;
    } else if !used[newRightPos] {
      Append(order, used, j, newRightPos, top1, top2);
      j := j + 1;
    }
  }

  /** A finished partial order has the shape of a blink order. */
  lemma PartialOrderShape(order: array<u8>, used: array<bool>, i: int, top1: u8, top2: u8)
    requires PartialOrder(order, used, i, top1, top2)
    ensures PixelOrderShape(order[..], top1, top2)
  {
  }

  // ---------------------------------------------------------------------
  // Blink state machine (blink, sequenceBlink, updateBlink)

  /** The blink fields of the object, `lastBlinkEnd` included. */
  datatype BlinkState = BlinkState(
    isBlinking: bool, startTime: u32, duration: u32, endTime: u32,
    phase: u8, count: u8, nextBlinkDelay: u32, lastBlinkEnd: u32)

  /** The three `random` draws one sequenceBlink may make. */
  datatype BlinkDraws = BlinkDraws(duration: nat, pause: nat, count: nat)

  /**
   * The invariant of the blink fields: at most three blinks are pending, and
   * a running blink is in phase 1 (closing) or 2 (opening), has a positive
   * duration, and is counted.
   */
  predicate BlinkInv(s: BlinkState)
  {
    && s.count <= 3
    && (s.isBlinking ==> (s.phase == 1 || s.phase == 2) && s.duration > 0 && s.count >= 1)
  }

  /** `blink(duration)`. */
  function StartBlink(s: BlinkState, now: u32, duration: u32): (t: BlinkState)
    ensures s.isBlinking ==> t == s
    ensures !s.isBlinking ==> t.isBlinking && t.phase == 1 && t.duration > 0 && t.count >= 1
    ensures !s.isBlinking && duration > 0 ==> t.duration == duration
  {
    if s.isBlinking then s
    else
      var d := if duration > 0 then duration else DEFAULT_BLINK_DURATION;
      s.(isBlinking := true, count := if s.count == 0 then 1 else s.count,
         startTime := now, duration := d, phase := 1, endTime := Add(now, d))
  }

  /** A running blink is never interrupted. */
  lemma StartBlinkWhileBlinking(s: BlinkState, now: u32, duration: u32)
    requires s.isBlinking
    ensures StartBlink(s, now, duration) == s
  {
  }

  /**
   * An idle blink starts closing now, with a positive duration (300 for a
   * zero request), a count of at least one, an end time one duration ahead
   * across the wrap, and the sequence timers untouched.
   */
  lemma StartBlinkStartsClosing(s: BlinkState, now: u32, duration: u32)
    requires !s.isBlinking && s.count <= 3
    ensures var t := StartBlink(s, now, duration);
            && t.isBlinking && t.phase == 1 && t.startTime == now
            && t.duration == (if duration == 0 then DEFAULT_BLINK_DURATION else duration)
            && Sub(t.endTime, t.startTime) == t.duration
            && (s.count == 0 ==> t.count == 1) && (s.count > 0 ==> t.count == s.count)
            && t.nextBlinkDelay == s.nextBlinkDelay && t.lastBlinkEnd == s.lastBlinkEnd
            && BlinkInv(t)
  {
    SubAdd(now, StartBlink(s, now, duration).duration);
  }

  /** The number of blinks of a new sequence for a draw r in [0, 100). */
  function SequenceLength(r: int): (count: u8)
    ensures 1 <= count <= 3
    ensures count == 1 <==> r < SINGLE_BLINK_BELOW
    ensures count == 2 <==> SINGLE_BLINK_BELOW <= r < DOUBLE_BLINK_BELOW
    ensures count == 3 <==> DOUBLE_BLINK_BELOW <= r
  {
    if r < SINGLE_BLINK_BELOW then 1
    else if r < DOUBLE_BLINK_BELOW then 2
    else 3
  }

  /**
   * The length of a blink of a sequence as the source computes it: the draw
   * from [100, 400) is stored in a `uint8_t`, so it wraps modulo 256.
   */
  function SequenceDurationAsWritten(raw: nat): (d: u8)
    ensures var v := Random(MIN_SEQUENCE_BLINK, MAX_SEQUENCE_BLINK, raw);
            d < MIN_SEQUENCE_BLINK <==> 0x100 <= v < 0x100 + MIN_SEQUENCE_BLINK
    ensures var v := Random(MIN_SEQUENCE_BLINK, MAX_SEQUENCE_BLINK, raw);
            (v < 0x100 ==> d == v) && (v >= 0x100 ==> d == v - 0x100)
  {
    ToU8(Random(MIN_SEQUENCE_BLINK, MAX_SEQUENCE_BLINK, raw))
  }

  /**
   * The wrap is visible: a `random` result of 256 (raw draw 156) becomes a
   * zero-length request (blink then runs for 300 ms while lastBlinkEnd
   * records now + 0), and a result of 300 (raw draw 200) becomes 44, below
   * the intended minimum of 100.
   */
  lemma SequenceDurationAsWrittenWraps(s: BlinkState, now: u32)
    requires !s.isBlinking && s.count <= 3
    ensures SequenceDurationAsWritten(156) == 0
    ensures SequenceDurationAsWritten(200) == 44 < MIN_SEQUENCE_BLINK
    ensures var t := StartBlink(s, now, SequenceDurationAsWritten(156));
            t.duration == DEFAULT_BLINK_DURATION && Add(now, SequenceDurationAsWritten(156)) != t.endTime
  {
  }

  /**
   * The length of a blink of a sequence as intended: the `random(100, 400)`
   * draw itself. This is the one the model's sequenceBlink uses.
   */
  function SequenceDuration(raw: nat): (d: u32)
    ensures MIN_SEQUENCE_BLINK <= d < MAX_SEQUENCE_BLINK
    ensures d < 0x100 ==> d == SequenceDurationAsWritten(raw)
  {
    Random(MIN_SEQUENCE_BLINK, MAX_SEQUENCE_BLINK, raw)
  }

  /** `sequenceBlink()` (with the intended duration). */
  function SequenceStep(s: BlinkState, now: u32, draws: BlinkDraws): (t: BlinkState)
    ensures s.isBlinking ==> t == s
    ensures t.isBlinking && !s.isBlinking ==> s.count > 0 && t.count == s.count
    ensures !s.isBlinking && s.count == 0 ==> !t.isBlinking
    ensures t.count != s.count ==> s.count == 0 && 1 <= t.count <= 3 && t.nextBlinkDelay == 0
  {
    if s.isBlinking then s
    else if s.count > 0 then
      if Sub(now, s.lastBlinkEnd) >= SEQUENCE_GAP_MS then
        var d := SequenceDuration(draws.duration);
        StartBlink(s, now, d).(lastBlinkEnd := Add(now, d))
      else s
    else if s.nextBlinkDelay == 0 then
      s.(nextBlinkDelay := Add(now, Random(MIN_SEQUENCE_PAUSE, MAX_SEQUENCE_PAUSE, draws.pause)))
    else if now >= s.nextBlinkDelay then
      s.(count := SequenceLength(Random(0, 100, draws.count)), nextBlinkDelay := 0)
    else s
  }

  /**
   * With blinks pending and the gap since the last recorded end passed, the
   * next blink starts with a length in [100, 400), and the recorded end is
   * that blink's own end time.
   */
  lemma SequenceStartsNextBlink(s: BlinkState, now: u32, draws: BlinkDraws)
    requires BlinkInv(s) && !s.isBlinking && s.count > 0
    requires Sub(now, s.lastBlinkEnd) >= SEQUENCE_GAP_MS
    ensures var t := SequenceStep(s, now, draws);
            && t.isBlinking && t.phase == 1 && t.startTime == now && t.count == s.count
            && MIN_SEQUENCE_BLINK <= t.duration < MAX_SEQUENCE_BLINK
            && t.lastBlinkEnd == t.endTime
            && Sub(t.endTime, now) == t.duration
  {
    StartBlinkStartsClosing(s, now, SequenceDuration(draws.duration));
  }

  /** Pending blinks wait for the gap: before it, nothing changes. */
  lemma SequenceWaitsForGap(s: BlinkState, now: u32, draws: BlinkDraws)
    requires !s.isBlinking && s.count > 0
    requires Sub(now, s.lastBlinkEnd) < SEQUENCE_GAP_MS
    ensures SequenceStep(s, now, draws) == s
  {
  }

  /**
   * `sequenceBlink()` exactly as written: the blink is requested with the
   * `uint8_t` length, and lastBlinkEnd records now plus that wrapped length.
   */
  function SequenceStepAsWritten(s: BlinkState, now: u32, draws: BlinkDraws): (t: BlinkState)
    ensures s.isBlinking ==> t == s
    ensures t.isBlinking && !s.isBlinking ==> s.count > 0 && t.count == s.count
    ensures t.isBlinking && !s.isBlinking ==> t.lastBlinkEnd == Add(now, SequenceDurationAsWritten(draws.duration))
  {
    if s.isBlinking then s
    else if s.count > 0 then
      if Sub(now, s.lastBlinkEnd) >= SEQUENCE_GAP_MS then
        var d := SequenceDurationAsWritten(draws.duration);
        StartBlink(s, now, d as u32).(lastBlinkEnd := Add(now, d as u32))
      else s
    else if s.nextBlinkDelay == 0 then
      s.(nextBlinkDelay := Add(now, Random(MIN_SEQUENCE_PAUSE, MAX_SEQUENCE_PAUSE, draws.pause)))
    else if now >= s.nextBlinkDelay then
      s.(count := SequenceLength(Random(0, 100, draws.count)), nextBlinkDelay := 0)
    else s
  }

  /**
   * The intended and the written sequenceBlink agree on every step whose
   * duration draw lands below 256, and differ on a blink started with a
   * draw of 256 or more.
   */
  lemma SequenceStepAgreesBelowWrap(s: BlinkState, now: u32, draws: BlinkDraws)
    ensures Random(MIN_SEQUENCE_BLINK, MAX_SEQUENCE_BLINK, draws.duration) < 0x100 ==>
              SequenceStepAsWritten(s, now, draws) == SequenceStep(s, now, draws)
    ensures var t := SequenceStep(s, now, draws);
            t.isBlinking && !s.isBlinking && Random(MIN_SEQUENCE_BLINK, MAX_SEQUENCE_BLINK, draws.duration) >= 0x100 ==>
              SequenceStepAsWritten(s, now, draws) != t
  {
    var v := Random(MIN_SEQUENCE_BLINK, MAX_SEQUENCE_BLINK, draws.duration);
    var t := SequenceStep(s, now, draws);
    if t.isBlinking && !s.isBlinking && v >= 0x100 {
      var w := SequenceStepAsWritten(s, now, draws);
      var d := SequenceDurationAsWritten(draws.duration);
      assert d as int == v - 0x100;
      if d == 0 {
        assert w.duration == DEFAULT_BLINK_DURATION;
      } else {
        assert w.duration == d as u32;
      }
      assert t.duration == v;
      assert w.duration != t.duration;
    }
  }

  /**
   * With no blink pending and no pause scheduled, the next sequence is
   * scheduled 2000-7999 ms ahead (modulo 2^32).
   */
  lemma SequenceSchedulesPause(s: BlinkState, now: u32, draws: BlinkDraws)
    requires !s.isBlinking && s.count == 0 && s.nextBlinkDelay == 0
    ensures var t := SequenceStep(s, now, draws);
            && MIN_SEQUENCE_PAUSE <= Sub(t.nextBlinkDelay, now) < MAX_SEQUENCE_PAUSE
            && t == s.(nextBlinkDelay := t.nextBlinkDelay)
  {
    var p := Random(MIN_SEQUENCE_PAUSE, MAX_SEQUENCE_PAUSE, draws.pause);
    SubAdd(now, p);
  }

  /**
   * When the scheduled pause is reached, 1, 2 or 3 blinks become pending
   * (draw below 70, below 95, else) and the pause is cleared.
   */
  lemma SequenceChoosesLength(s: BlinkState, now: u32, draws: BlinkDraws)
    requires !s.isBlinking && s.count == 0 && s.nextBlinkDelay != 0 && now >= s.nextBlinkDelay
    ensures var t := SequenceStep(s, now, draws);
            var r := Random(0, 100, draws.count);
            && t.nextBlinkDelay == 0 && !t.isBlinking
            && (t.count == 1 <==> r < SINGLE_BLINK_BELOW)
            && (t.count == 2 <==> SINGLE_BLINK_BELOW <= r < DOUBLE_BLINK_BELOW)
            && (t.count == 3 <==> DOUBLE_BLINK_BELOW <= r < 100)
  {
  }

  /**
   * The phase test `(float)elapsed / (duration / 2.0f) >= 1.0f`, over exact
   * reals.
   */
  function PhaseComplete(elapsed: u32, duration: u32): (c: bool)
    requires duration > 0
    ensures elapsed >= duration ==> c
    ensures elapsed == 0 ==> !c
  {
    (elapsed as real) / (duration as real / 2.0) >= 1.0
  }

  /** A phase is complete once half the blink's duration has elapsed. */
  lemma PhaseCompleteAtHalf(elapsed: u32, duration: u32)
    requires duration > 0
    ensures PhaseComplete(elapsed, duration) <==> 2 * elapsed >= duration
  {
    var half := duration as real / 2.0;
    var e := elapsed as real;
    var q := e / half;
    assert q * half == e;
    assert e - half == (q - 1.0) * half;
    if q >= 1.0 {
      assert (q - 1.0) * half >= 0.0;
    } else {
      assert (q - 1.0) * half < 0.0;
    }
    assert 2 * elapsed >= duration <==> e >= half;
  }

  /**
   * `updateBlink()`: run sequenceBlink; if not blinking answer false;
   * otherwise, when the phase is complete, phase 1 turns into phase 2
   * starting now and phase 2 ends the blink (one blink fewer pending);
   * answer whether a blink is still in progress.
   */
  function BlinkStep(s: BlinkState, now: u32, draws: BlinkDraws): (r: (BlinkState, bool))
    requires BlinkInv(s)
    ensures r.1 == r.0.isBlinking
  {
    var t := SequenceStep(s, now, draws);
    SequenceStepKeepsInv(s, now, draws);
    if !t.isBlinking then (t, false)
    else if PhaseComplete(Sub(now, t.startTime), t.duration) then
      if t.phase == 1 then
        (t.(phase := 2, startTime := now, endTime := Add(now, t.duration)), true)
      else
        (t.(isBlinking := false, count := DecrementIfPositive(t.count)), false)
    else (t, true)
  }

  /** `if (count > 0) count--;`. */
  function DecrementIfPositive(c: u8): (r: u8)
    ensures r <= c
    ensures c > 0 <==> r < c
    ensures c <= r + 1
  {
    if c > 0 then c - 1 else 0
  }

  /** sequenceBlink keeps the invariant of the blink fields. */
  lemma SequenceStepKeepsInv(s: BlinkState, now: u32, draws: BlinkDraws)
    requires BlinkInv(s)
    ensures BlinkInv(SequenceStep(s, now, draws))
  {
    if !s.isBlinking && s.count > 0 && Sub(now, s.lastBlinkEnd) >= SEQUENCE_GAP_MS {
      StartBlinkStartsClosing(s, now, SequenceDuration(draws.duration));
    }
  }

  /** The invariant of the blink fields holds after every updateBlink. */
  lemma BlinkStepKeepsInv(s: BlinkState, now: u32, draws: BlinkDraws)
    requires BlinkInv(s)
    ensures BlinkInv(BlinkStep(s, now, draws).0)
  {
    SequenceStepKeepsInv(s, now, draws);
  }

  /**
   * Once half the duration has passed in the closing phase, the blink
   * opens: phase 2, restarted now, still blinking.
   */
  lemma ClosingTurnsToOpening(s: BlinkState, now: u32, draws: BlinkDraws)
    requires BlinkInv(s) && s.isBlinking && s.phase == 1
    requires 2 * Sub(now, s.startTime) >= s.duration
    ensures BlinkStep(s, now, draws) ==
              (s.(phase := 2, startTime := now, endTime := Add(now, s.duration)), true)
  {
    PhaseCompleteAtHalf(Sub(now, s.startTime), s.duration);
  }

  /**
   * Once half the duration has passed in the opening phase, the blink ends
   * and one blink fewer is pending.
   */
  lemma OpeningEndsBlink(s: BlinkState, now: u32, draws: BlinkDraws)
    requires BlinkInv(s) && s.isBlinking && s.phase == 2
    requires 2 * Sub(now, s.startTime) >= s.duration
    ensures BlinkStep(s, now, draws) == (s.(isBlinking := false, count := s.count - 1), false)
  {
    PhaseCompleteAtHalf(Sub(now, s.startTime), s.duration);
  }

  /** Before half the duration has passed, a running blink is left as it is. */
  lemma IncompletePhaseWaits(s: BlinkState, now: u32, draws: BlinkDraws)
    requires BlinkInv(s) && s.isBlinking
    requires 2 * Sub(now, s.startTime) < s.duration
    ensures BlinkStep(s, now, draws) == (s, true)
  {
    PhaseCompleteAtHalf(Sub(now, s.startTime), s.duration);
  }

  /**
   * A blink started at `t0` closes by `t1` and opens by `t2` when each is at
   * least half the duration after the previous one: it then has ended, with
   * one blink fewer pending and the sequence timers as they were.
   */
  lemma {:induction false} BlinkRunsTwoPhases(s: BlinkState, t0: u32, duration: u32, t1: u32, t2: u32, draws: BlinkDraws)
    requires BlinkInv(s) && !s.isBlinking
    requires var d := if duration == 0 then DEFAULT_BLINK_DURATION else duration;
             2 * Sub(t1, t0) >= d && 2 * Sub(t2, t1) >= d
    ensures var b := StartBlink(s, t0, duration);
            var e := BlinkStep(BlinkStep(b, t1, draws).0, t2, draws);
            && !e.1 && !e.0.isBlinking
            && e.0.count == (if s.count == 0 then 0 else s.count - 1)
            && e.0.nextBlinkDelay == s.nextBlinkDelay && e.0.lastBlinkEnd == s.lastBlinkEnd
  {
    var b := StartBlink(s, t0, duration);
    StartBlinkStartsClosing(s, t0, duration);
    ClosingTurnsToOpening(b, t1, draws);
    var o := BlinkStep(b, t1, draws).0;
    OpeningEndsBlink(o, t2, draws);
  }

  // ---------------------------------------------------------------------
  // The eye object

  class EyeAnimation {
    /** The NeoPixel strip's colours; its length is `numPixels()`. */
    const pixels: array<u32>
    /** `m_pixelOrder[16]`. */
    const pixelOrder: array<u8>

    var rainbowIndex: u16
    var rainbowTimer: u32
    var defaultColor: u32
    var brightness: u8
    var currentTime: u32
    var isBlinking: bool
    var blinkStartTime: u32
    var blinkDuration: u32
    var blinkEndTime: u32
    var blinkPhase: u8
    var topPixel1: u8
    var topPixel2: u8
    var nextBlinkDelay: u32
    var blinkCount: u8
    /** The `static lastBlinkEnd` of sequenceBlink. */
    var lastBlinkEnd: u32

    ghost predicate Valid()
      reads this, pixelOrder
    {
      && pixels.Length < 0x1_0000
      && pixelOrder.Length == RING_SIZE
      && topPixel1 < RING_SIZE && topPixel2 < RING_SIZE
      && rainbowIndex < 0x100
      && PixelOrderShape(pixelOrder[..], topPixel1, topPixel2)
      && BlinkInv(BlinkFields())
    }

    /** The blink fields as a value. */
    function BlinkFields(): BlinkState
      reads this
    {
      BlinkState(isBlinking, blinkStartTime, blinkDuration, blinkEndTime,
                 blinkPhase, blinkCount, nextBlinkDelay, lastBlinkEnd)
    }

    /**
     * The initial state: dark blue at full brightness, not blinking with a
     * 300 ms default duration, top pixels 0 and 15 with their blink order,
     * and every pixel off.
     */
    constructor (pixels: array<u32>)
      requires pixels.Length < 0x1_0000
      modifies pixels
      ensures Valid() && fresh(pixelOrder)
      ensures this.pixels == pixels
      ensures rainbowIndex == 0 && rainbowTimer == 0 && currentTime == 0
      ensures defaultColor == DEFAULT_COLOR && brightness == DEFAULT_BRIGHTNESS
      ensures topPixel1 == DEFAULT_TOP_PIXEL_1 && topPixel2 == DEFAULT_TOP_PIXEL_2
      ensures BlinkFields() == BlinkState(false, 0, DEFAULT_BLINK_DURATION, 0, 0, 0, 0, 0)
      ensures forall i :: 0 <= i < pixels.Length ==> pixels[i] == 0
    {
      this.pixels := pixels;
      pixelOrder := new u8[RING_SIZE](i requires 0 <= i < RING_SIZE => i);
      rainbowIndex := 0;
      rainbowTimer := 0;
      defaultColor := DEFAULT_COLOR;
      brightness := DEFAULT_BRIGHTNESS;
      currentTime := 0;
      isBlinking := false;
      blinkStartTime := 0;
      blinkDuration := DEFAULT_BLINK_DURATION;
      blinkPhase := 0;
      topPixel1 := DEFAULT_TOP_PIXEL_1;
      topPixel2 := DEFAULT_TOP_PIXEL_2;
      blinkCount := 0;
      blinkEndTime := 0;
      nextBlinkDelay := 0;
      lastBlinkEnd := 0;
      new;
      CalculatePixelOrder();
      SetAllPixelsColor(0);
    }

    /** `setDefaultColor(r, g, b)`: the packed colour, whose channels read back as r, g and b. */
    method SetDefaultColor(r: u8, g: u8, b: u8)
      modifies this`defaultColor
      ensures defaultColor < COLOR_24
      ensures Red(defaultColor) == r && Green(defaultColor) == g && Blue(defaultColor) == b
    {
      defaultColor := Pack(r, g, b);
      UnpackPack(r, g, b);
    }

    method SetBrightness(value: u8)
      modifies this`brightness
      ensures brightness == value
    {
      brightness := value;
    }

    method SetCurrentTime(value: u32)
      modifies this`currentTime
      ensures currentTime == value
    {
      currentTime := value;
    }

    /**
     * `setPixelColorWithBrightness(pixel, color, brightness)`: the pixel
     * gets the scaled colour; an index past the strip is ignored, as the
     * NeoPixel library ignores it.
     */
    method SetPixelColorWithBrightness(pixel: u16, color: u32, level: u8)
      modifies pixels
      ensures pixel < pixels.Length ==> pixels[..] == old(pixels[..])[pixel := ScaleColor(color, level)]
      ensures pixel >= pixels.Length ==> pixels[..] == old(pixels[..])
    {
      if pixel < pixels.Length {
        pixels[pixel] := ScaleColor(color, level);
      }
    }

    /** `setAllPixelsColor(color)`: every pixel gets the colour at the current brightness. */
    method SetAllPixelsColor(color: u32)
      requires pixels.Length < 0x1_0000
      modifies pixels
      ensures forall i :: 0 <= i < pixels.Length ==> pixels[i] == ScaleColor(color, brightness)
    {
      var i := 0;
      while i < pixels.Length
        invariant 0 <= i <= pixels.Length
        invariant forall j :: 0 <= j < i ==> pixels[j] == ScaleColor(color, brightness)
      {
        SetPixelColorWithBrightness(i, color, brightness);
        i := i + 1;
      }
    }

    /** `setTopPixels(p1, p2)`: both indices modulo 16, then a new blink order. */
    method SetTopPixels(p1: u8, p2: u8)
      requires Valid()
      modifies this`topPixel1, this`topPixel2, pixelOrder
      ensures Valid()
      ensures topPixel1 == p1 % RING_SIZE && topPixel2 == p2 % RING_SIZE
    {
      topPixel1 := p1 % RING_SIZE;
      topPixel2 := p2 % RING_SIZE;
      CalculatePixelOrder();
    }

    /**
     * `calculatePixelOrder()`: starting from the two top pixels, two fronts
     * walk outward (the left one counter-clockwise, the right one clockwise),
     * skipping used pixels, and append the pixels they reach until they meet.
     * Each pass appends at least one pixel or stops.
     */
    method CalculatePixelOrder()
      requires pixelOrder.Length == RING_SIZE && topPixel1 < RING_SIZE && topPixel2 < RING_SIZE
      modifies pixelOrder
      ensures PixelOrderShape(pixelOrder[..], topPixel1, topPixel2)
    {
      var used := StartOrder(pixelOrder, topPixel1, topPixel2);
      var leftPos: int := topPixel1;
      var rightPos: int := topPixel2;
      var i := 2;
      var done := false;
      while i < RING_SIZE && !done
        invariant 2 <= i <= RING_SIZE
        invariant 0 <= leftPos < RING_SIZE && 0 <= rightPos < RING_SIZE
        invariant PartialOrder(pixelOrder, used, i, topPixel1, topPixel2)
        decreases RING_SIZE - i, !done
      {
        leftPos, rightPos, i, done := ExtendOrder(pixelOrder, used, i, leftPos, rightPos, topPixel1, topPixel2);
      }
      PartialOrderShape(pixelOrder, used, i, topPixel1, topPixel2);
    }

    /**
     * `blink(duration)`. The header's default argument of 200 is not a
     * separate member: `Blink(200)` is that call, and the only caller,
     * `sequenceBlink`, passes a duration of its own.
     */
    method Blink(duration: u32)
      requires BlinkInv(BlinkFields())
      modifies this`isBlinking, this`blinkCount, this`blinkStartTime, this`blinkDuration,
               this`blinkPhase, this`blinkEndTime
      ensures BlinkFields() == StartBlink(old(BlinkFields()), currentTime, duration)
      ensures BlinkInv(BlinkFields())
    {
      if isBlinking {
        return;
      }
      if blinkCount == 0 {
        blinkCount := 1;
      }
      isBlinking := true;
      blinkStartTime := currentTime;
      blinkDuration := if duration > 0 then duration else DEFAULT_BLINK_DURATION;
      blinkPhase := 1;
      blinkEndTime := Add(blinkStartTime, blinkDuration);
      StartBlinkStartsClosing(old(BlinkFields()), currentTime, duration);
    }

    /** `sequenceBlink()`, with the draws as parameters and the intended blink length. */
    method SequenceBlink(draws: BlinkDraws)
      requires BlinkInv(BlinkFields())
      modifies this`isBlinking, this`blinkCount, this`blinkStartTime, this`blinkDuration,
               this`blinkPhase, this`blinkEndTime, this`nextBlinkDelay, this`lastBlinkEnd
      ensures BlinkFields() == SequenceStep(old(BlinkFields()), currentTime, draws)
    {
      if !isBlinking {
        if blinkCount > 0 {
          if Sub(currentTime, lastBlinkEnd) >= SEQUENCE_GAP_MS {
            var duration := SequenceDuration(draws.duration);
            Blink(duration);
            lastBlinkEnd := Add(currentTime, duration);
          }
        } else if nextBlinkDelay == 0 {
          nextBlinkDelay := Add(currentTime, Random(MIN_SEQUENCE_PAUSE, MAX_SEQUENCE_PAUSE, draws.pause));
        } else if currentTime >= nextBlinkDelay {
          var r: u8 := Random(0, 100, draws.count);
          if r < SINGLE_BLINK_BELOW {
            blinkCount := 1;
          } else if r < DOUBLE_BLINK_BELOW {
            blinkCount := 2;
          } else {
            blinkCount := 3;
          }
          nextBlinkDelay := 0;
        }
      }
    }

    /**
     * `updateBlink()`: the phase and count part; answers whether a blink is
     * in progress.
     */
    method UpdateBlink(draws: BlinkDraws) returns (blinking: bool)
      requires BlinkInv(BlinkFields())
      modifies this`isBlinking, this`blinkCount, this`blinkStartTime, this`blinkDuration,
               this`blinkPhase, this`blinkEndTime, this`nextBlinkDelay, this`lastBlinkEnd
      ensures (BlinkFields(), blinking) == BlinkStep(old(BlinkFields()), currentTime, draws)
      ensures BlinkInv(BlinkFields())
    {
      BlinkStepKeepsInv(BlinkFields(), currentTime, draws);
      SequenceBlink(draws);
      if !isBlinking {
        return false;
      }
      var elapsed := Sub(currentTime, blinkStartTime);
      if PhaseComplete(elapsed, blinkDuration) {
        if blinkPhase == 1 {
          blinkPhase := 2;
          blinkStartTime := currentTime;
          blinkEndTime := Add(blinkStartTime, blinkDuration);
        } else {
          isBlinking := false;
          if blinkCount > 0 {
            blinkCount := blinkCount - 1;
          }
          return false;
        }
      }
      return true;
    }

    /**
     * `updateRainbow()`: note the time, paint every pixel with its wheel
     * colour at the current brightness, advance the index, then update the
     * blink.
     */
    method UpdateRainbow(draws: BlinkDraws)
      requires Valid()
      modifies this`rainbowTimer, this`rainbowIndex, pixels,
               this`isBlinking, this`blinkCount, this`blinkStartTime, this`blinkDuration,
               this`blinkPhase, this`blinkEndTime, this`nextBlinkDelay, this`lastBlinkEnd
      ensures Valid()
      ensures rainbowTimer == currentTime
      ensures rainbowIndex == (old(rainbowIndex) + 1) % 0x100
      ensures forall i :: 0 <= i < pixels.Length ==>
                pixels[i] == ScaleColor(Wheel(RainbowOffset(old(rainbowIndex), i, pixels.Length)), brightness)
      ensures BlinkFields() == BlinkStep(old(BlinkFields()), currentTime, draws).0
    {
      rainbowTimer := currentTime;
      var n := pixels.Length;
      var i := 0;
      while i < n
        invariant 0 <= i <= n
        invariant BlinkFields() == old(BlinkFields())
        invariant rainbowTimer == currentTime && rainbowIndex == old(rainbowIndex)
        invariant forall j :: 0 <= j < i ==>
                    pixels[j] == ScaleColor(Wheel(RainbowOffset(rainbowIndex, j, n)), brightness)
      {
        var offset := RainbowOffset(rainbowIndex, i, n);
        SetPixelColorWithBrightness(i, Wheel(offset), brightness);
        i := i + 1;
      }
      rainbowIndex := (rainbowIndex + 1) % 0x100;
      var _ := UpdateBlink(draws);
    }

    /** `updateDefault()`: every pixel in the default colour, then update the blink. */
    method UpdateDefault(draws: BlinkDraws)
      requires Valid()
      modifies pixels,
               this`isBlinking, this`blinkCount, this`blinkStartTime, this`blinkDuration,
               this`blinkPhase, this`blinkEndTime, this`nextBlinkDelay, this`lastBlinkEnd
      ensures Valid()
      ensures forall i :: 0 <= i < pixels.Length ==> pixels[i] == ScaleColor(defaultColor, brightness)
      ensures BlinkFields() == BlinkStep(old(BlinkFields()), currentTime, draws).0
    {
      SetAllPixelsColor(defaultColor);
      var _ := UpdateBlink(draws);
    }
  }
}
