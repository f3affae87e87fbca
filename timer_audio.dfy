/**
 * The playback cursor of lib/TimerAudio: where playback of a WAV image
 * starts (after the RIFF `data` chunk header), how each timer tick emits one
 * 8-bit sample as a differential PWM pair, and when playback stops.
 *
 * The timer interrupt, the PWM set-up and the `volatile` qualifiers are not
 * modelled: UpdateSample is one sequential step. PWM levels written by a step
 * are returned.
 */
module TimerAudio {
  import opened Arduino
  import opened Options

  /** Standard WAV header size in bytes (TimerAudio.h). */
  const WAV_HEADER_SIZE: nat := 44
  /** PWM value for silence: the 8-bit centre (TimerAudio.h). */
  const SILENCE_LEVEL: u8 := 128
  /** The header scan looks at most this many start offsets. */
  const HEADER_SCAN_LIMIT: nat := 100
  /** A RIFF chunk is a 4-byte ID followed by a 4-byte size. */
  const CHUNK_HEADER_SIZE: nat := 8

  /** The levels of the two PWM outputs (A+ and A-). */
  datatype PwmLevels = PwmLevels(pos: u8, neg: u8)

  const SILENCE: PwmLevels := PwmLevels(SILENCE_LEVEL, SILENCE_LEVEL)

  /** Bytes `i .. i+3` are the ASCII chunk ID "data". */
  predicate DataMarkerAt(data: seq<u8>, i: nat)
    requires i + 4 <= |data|
  {
    data[i] == 'd' as u8 && data[i + 1] == 'a' as u8 && data[i + 2] == 't' as u8 && data[i + 3] == 'a' as u8
  }

  /** The first offset in [from, limit) that holds a "data" marker. */
  function FindDataChunk(data: seq<u8>, from: nat, limit: nat): (r: Option<nat>)
    requires limit + 3 <= |data|
    decreases limit - from
    ensures r.Some? ==> from <= r.value < limit && DataMarkerAt(data, r.value)
  {
    if from >= limit then None
    else if DataMarkerAt(data, from) then Some(from)
    else FindDataChunk(data, from + 1, limit)
  }

  /**
   * FindDataChunk finds the first marker of the range, and answers None
   * exactly when the range holds no marker.
   */
  lemma {:induction false} FindDataChunkFirst(data: seq<u8>, from: nat, limit: nat)
    requires limit + 3 <= |data|
    decreases limit - from
    ensures FindDataChunk(data, from, limit).Some? ==>
              var i := FindDataChunk(data, from, limit).value;
              && from <= i < limit
              && DataMarkerAt(data, i)
              && forall j :: from <= j < i ==> !DataMarkerAt(data, j)
    ensures FindDataChunk(data, from, limit).None? <==>
              forall j :: from <= j < limit ==> !DataMarkerAt(data, j)
  {
    if from < limit && !DataMarkerAt(data, from) {
      FindDataChunkFirst(data, from + 1, limit);
    }
  }

  /** The number of offsets the scan examines: `min(100, size - 4)`. */
  function ScanLimit(size: nat): (n: nat)
    requires size > WAV_HEADER_SIZE
    ensures n <= HEADER_SCAN_LIMIT && n + 4 <= size
  {
    if HEADER_SCAN_LIMIT < size - 4 then HEADER_SCAN_LIMIT else size - 4
  }

  /**
   * The position playback starts from: with the skip flag set and more than a
   * header's worth of bytes, just past the first "data" chunk header found in
   * the scan, else 44; otherwise 0.
   */
  function StartPosition(data: seq<u8>, size: nat, skipHeader: bool): (p: nat)
    requires size <= |data|
    ensures !(skipHeader && size > WAV_HEADER_SIZE) ==> p == 0
    ensures skipHeader && size > WAV_HEADER_SIZE ==>
              p == WAV_HEADER_SIZE
              || (CHUNK_HEADER_SIZE <= p < HEADER_SCAN_LIMIT + CHUNK_HEADER_SIZE
                  && p - CHUNK_HEADER_SIZE + 4 <= size
                  && DataMarkerAt(data, p - CHUNK_HEADER_SIZE))
  {
    if skipHeader && size > WAV_HEADER_SIZE then
      FindDataChunkFirst(data, 0, ScanLimit(size));
      match FindDataChunk(data, 0, ScanLimit(size))
      case Some(i) => i + CHUNK_HEADER_SIZE
      case None => WAV_HEADER_SIZE
    else 0
  }

  /** The first marker of the scanned range decides the start position. */
  lemma StartAfterFirstMarker(data: seq<u8>, size: nat, i: nat)
    requires size <= |data| && size > WAV_HEADER_SIZE
    requires i < ScanLimit(size) && DataMarkerAt(data, i)
    requires forall j :: 0 <= j < i ==> !DataMarkerAt(data, j)
    ensures StartPosition(data, size, true) == i + CHUNK_HEADER_SIZE
  {
    FindDataChunkFirst(data, 0, ScanLimit(size));
  }

  /** Without a marker in the scanned range, playback starts after a canonical 44-byte header. */
  lemma StartWithoutMarker(data: seq<u8>, size: nat)
    requires size <= |data| && size > WAV_HEADER_SIZE
    requires forall j :: 0 <= j < ScanLimit(size) ==> !DataMarkerAt(data, j)
    ensures StartPosition(data, size, true) == WAV_HEADER_SIZE
  {
    FindDataChunkFirst(data, 0, ScanLimit(size));
  }

  /** The scan of [from, limit) reads no byte at or after `limit + 3`. */
  lemma {:induction false} FindDataChunkPrefix(data: seq<u8>, from: nat, limit: nat, size: nat)
    requires limit + 3 <= size <= |data|
    decreases limit - from
    ensures FindDataChunk(data, from, limit) == FindDataChunk(data[..size], from, limit)
  {
    if from < limit {
      assert DataMarkerAt(data, from) == DataMarkerAt(data[..size], from);
      FindDataChunkPrefix(data, from + 1, limit, size);
    }
  }

  /**
   * The start position depends only on the first `size` bytes: whatever
   * follows the image in memory is never read.
   */
  lemma StartPositionReadsBelowSize(data: seq<u8>, size: nat, skipHeader: bool)
    requires size <= |data|
    ensures StartPosition(data, size, skipHeader) == StartPosition(data[..size], size, skipHeader)
  {
    if skipHeader && size > WAV_HEADER_SIZE {
      FindDataChunkPrefix(data, 0, ScanLimit(size), size);
    }
  }

  /** The differential pair for one sample: A+ gets the sample, A- its complement. */
  function SampleLevels(sample: u8): (l: PwmLevels)
    ensures l.pos + l.neg == 0xFF
    ensures l.pos == sample
  {
    PwmLevels(sample, 0xFF - sample)
  }

  class TimerAudio {
    /** The WAV image being played; None is a null reference. */
    var currentWavData: Option<seq<u8>>
    var currentWavSize: nat
    var currentPosition: nat
    var isPlaying: bool
    /** Set by the constructor; nothing in the source changes it. */
    const skipWavHeader: bool

    /** The size never exceeds the image it describes. */
    ghost predicate Valid()
      reads this
    {
      currentWavData.Some? ==> currentWavSize <= |currentWavData.value|
    }

    constructor ()
      ensures Valid()
      ensures currentWavData == None && currentWavSize == 0 && currentPosition == 0
      ensures !isPlaying && skipWavHeader
    {
      currentWavData := None;
      currentWavSize := 0;
      currentPosition := 0;
      isPlaying := false;
      skipWavHeader := true;
    }

    /** `stop()`: not playing, cursor back to 0, both outputs at silence. */
    method Stop() returns (levels: PwmLevels)
      modifies this
      ensures !isPlaying && currentPosition == 0
      ensures currentWavData == old(currentWavData) && currentWavSize == old(currentWavSize)
      ensures levels == SILENCE
    {
      isPlaying := false;
      currentPosition := 0;
      levels := SILENCE;
    }

    /**
     * `playWAV`: stop, take the image (what `getWavData`/`getWavSize` return
     * for the index), and start playing it when it is non-null and non-empty,
     * from StartPosition. The header scan reads only bytes below `size`.
     */
    method PlayWAV(data: Option<seq<u8>>, size: nat)
      requires data.Some? ==> size <= |data.value|
      modifies this
      ensures Valid()
      ensures currentWavData == data && currentWavSize == size
      ensures isPlaying <==> data.Some? && size > 0
      ensures currentPosition == if isPlaying then StartPosition(data.value, size, skipWavHeader) else 0
    {
      var _ := Stop();
      currentWavData := data;
      currentWavSize := size;
      if data.Some? && size > 0 {
        var bytes := data.value;
        if skipWavHeader && size > WAV_HEADER_SIZE {
          var limit := ScanLimit(size);
          var i := 0;
          while i < limit
            invariant 0 <= i <= limit
            invariant currentPosition == 0
            invariant FindDataChunk(bytes, 0, limit) == FindDataChunk(bytes, i, limit)
          {
            if bytes[i] == 'd' as u8 && bytes[i + 1] == 'a' as u8
               && bytes[i + 2] == 't' as u8 && bytes[i + 3] == 'a' as u8 {
              currentPosition := i + CHUNK_HEADER_SIZE;
              break;
            }
            i := i + 1;
          }
          if currentPosition == 0 {
            currentPosition := WAV_HEADER_SIZE;
          }
        } else {
          currentPosition := 0;
        }
        isPlaying := true;
      }
    }

    /**
     * `updateSample()`: while playing with a byte under the cursor, emit that
     * byte and advance by one; while playing past the end (or without data),
     * stop; when not playing, do nothing. Answers the PWM levels written, if
     * any.
     */
    method UpdateSample() returns (levels: Option<PwmLevels>)
      requires Valid()
      modifies this
      ensures Valid()
      ensures currentWavData == old(currentWavData) && currentWavSize == old(currentWavSize)
      ensures !old(isPlaying) ==> !isPlaying && currentPosition == old(currentPosition) && levels == None
      ensures old(isPlaying) && (currentWavData.None? || old(currentPosition) >= currentWavSize) ==>
                !isPlaying && currentPosition == 0 && levels == Some(SILENCE)
      ensures old(isPlaying) && currentWavData.Some? && old(currentPosition) < currentWavSize ==>
                && isPlaying
                && currentPosition == old(currentPosition) + 1
                && levels == Some(SampleLevels(currentWavData.value[old(currentPosition)]))
    {
      if !isPlaying || currentWavData.None? || currentPosition >= currentWavSize {
        if isPlaying {
          var silence := Stop();
          return Some(silence);
        }
        return None;
      }
      var sample := currentWavData.value[currentPosition];
      currentPosition := currentPosition + 1;
      levels := Some(SampleLevels(sample));
    }
  }
}
