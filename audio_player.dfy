/**
 * lib/AudioPlayer: a two-state player (Stopped, Playing) over a table of
 * NUM_SOUND_FILES sounds, driving a background WAV backend.
 *
 * The backend is the library's ROMBackgroundAudioWAV object. The model keeps
 * the calls the player makes on it (`begin`, `write`, `flush`) as a log, and
 * takes the backend's answer to `playing()` as a parameter.
 */
module AudioPlayer {
  import opened Arduino
  import opened Options

  /** NUM_SOUND_FILES of lib/WavData/WavData.h. */
  const NUM_SOUND_FILES: int := 3

  /** `RAND_MAX` of the C library on the native (non-Arduino) build: glibc's value. */
  const RAND_MAX: int := 0x7FFF_FFFF

  datatype WAVState = Stopped | Playing | Paused

  /** One call on the backend. */
  datatype BackendCall = Begin | Write(data: seq<u8>, size: nat) | Flush

  /**
   * The rejection bound of the native branch of playRandomSound: the
   * largest multiple of NUM_SOUND_FILES that is at most RAND_MAX.
   */
  function RejectionBound(): (max: int)
    ensures max % NUM_SOUND_FILES == 0
    ensures 0 < max <= RAND_MAX < max + NUM_SOUND_FILES
  {
    RAND_MAX / NUM_SOUND_FILES * NUM_SOUND_FILES
  }

  /** Draw `k` is the first one of `draws` below the rejection bound. */
  predicate FirstAccepted(draws: seq<int>, k: int)
  {
    && 0 <= k < |draws|
    && draws[k] < RejectionBound()
    && forall j :: 0 <= j < k ==> draws[j] >= RejectionBound()
  }

  /**
   * The native branch's `do { index = rand(); } while (index >= max);`
   * followed by `index % NUM_SOUND_FILES`, over a finite supply of `rand()`
   * results. It answers None when every draw of the supply is rejected
   * (the source would keep drawing); otherwise `used` is the number of draws
   * consumed, the last of them is the accepted one.
   */
  method RejectionSample(draws: seq<int>) returns (index: Option<int>, used: nat)
    requires forall k :: 0 <= k < |draws| ==> 0 <= draws[k] <= RAND_MAX
    ensures used <= |draws|
    ensures forall k :: 0 <= k < |draws| && k < used - 1 ==> draws[k] >= RejectionBound()
    ensures index.None? <==> forall k :: 0 <= k < |draws| ==> draws[k] >= RejectionBound()
    ensures index.Some? ==>
              && 0 < used
              && draws[used - 1] < RejectionBound()
              && index.value == draws[used - 1] % NUM_SOUND_FILES
              && 0 <= index.value < NUM_SOUND_FILES
  {
    var max := RejectionBound();
    used := 0;
    while used < |draws|
      invariant used <= |draws|
      invariant forall k :: 0 <= k < used ==> draws[k] >= max
    {
      var r := draws[used];
      used := used + 1;
      if r < max {
        return Some(r % NUM_SOUND_FILES), used;
      }
    }
    index := None;
  }

  class AudioPlayer {
    /** `m_player != nullptr`. */
    const hasBackend: bool
    var state: WAVState
    var currentSoundIndex: int
    /** The copies of the sound table kept by the player (`m_soundData`, `m_soundDataSizes`). */
    const soundData: array<seq<u8>>
    const soundDataSizes: array<nat>
    /** The calls made on the backend so far, oldest first. */
    var backendLog: seq<BackendCall>

    /**
     * The player's invariant: Paused is never entered, Stopped goes with
     * index -1, Playing with an index of the table, and only a player with a
     * backend can be Playing.
     */
    ghost predicate Valid()
      reads this
    {
      && soundData.Length == NUM_SOUND_FILES
      && soundDataSizes.Length == NUM_SOUND_FILES
      && state != Paused
      && (state == Stopped <==> currentSoundIndex == -1)
      && (state == Playing ==> 0 <= currentSoundIndex < NUM_SOUND_FILES && hasBackend)
    }

    /**
     * A new player is Stopped with index -1. With a backend, `begin` is
     * called and the table is copied entry by entry; without one, neither
     * happens (the copies are then left as allocated).
     */
    constructor (hasBackend: bool, soundDataTable: seq<seq<u8>>, soundDataSizesTable: seq<nat>)
      requires |soundDataTable| == NUM_SOUND_FILES && |soundDataSizesTable| == NUM_SOUND_FILES
      ensures Valid()
      ensures this.hasBackend == hasBackend
      ensures state == Stopped && currentSoundIndex == -1
      ensures fresh(soundData) && fresh(soundDataSizes)
      ensures hasBackend ==> soundData[..] == soundDataTable && soundDataSizes[..] == soundDataSizesTable
      ensures backendLog == if hasBackend then [Begin] else []
    {
      var data := new seq<u8>[NUM_SOUND_FILES];
      var sizes := new nat[NUM_SOUND_FILES];
      if hasBackend {
        var i := 0;
        while i < NUM_SOUND_FILES
          invariant 0 <= i <= NUM_SOUND_FILES
          invariant data[..i] == soundDataTable[..i]
          invariant sizes[..i] == soundDataSizesTable[..i]
        {
          data[i] := soundDataTable[i];
          sizes[i] := soundDataSizesTable[i];
          i := i + 1;
        }
      }
      this.hasBackend := hasBackend;
      soundData := data;
      soundDataSizes := sizes;
      state := Stopped;
      currentSoundIndex := -1;
      backendLog := if hasBackend then [Begin] else [];
    }

    /** `isPlaying()`: for a valid player, playing is having a current sound. */
    function IsPlaying(): (b: bool)
      reads this
      requires Valid()
      ensures b <==> 0 <= currentSoundIndex < NUM_SOUND_FILES
      ensures b <==> state == Playing
    {
      state == Playing
    }

    /** `getState()`. */
    function GetState(): (s: WAVState)
      reads this
      requires Valid()
      ensures s != Paused
      ensures s == Stopped <==> currentSoundIndex == -1
    {
      state
    }

    /** `getCurrentSoundIndex()`. */
    function GetCurrentSoundIndex(): (i: int)
      reads this
      requires Valid()
      ensures -1 <= i < NUM_SOUND_FILES
      ensures i == -1 <==> !IsPlaying()
    {
      currentSoundIndex
    }

    /**
     * `play(index)`: an index outside the table is ignored; otherwise the
     * player is Playing that sound and the table entry is written to the
     * backend. Only a valid index dereferences the backend.
     */
    method Play(index: int)
      requires Valid()
      requires 0 <= index < NUM_SOUND_FILES ==> hasBackend
      modifies this
      ensures Valid()
      ensures !(0 <= index < NUM_SOUND_FILES) ==>
                state == old(state) && currentSoundIndex == old(currentSoundIndex)
                && backendLog == old(backendLog)
      ensures 0 <= index < NUM_SOUND_FILES ==>
                && state == Playing && currentSoundIndex == index
                && backendLog == old(backendLog) + [Write(soundData[index], soundDataSizes[index])]
    {
      if index < 0 || index >= NUM_SOUND_FILES {
        return;
      }
      state := Playing;
      currentSoundIndex := index;
      backendLog := backendLog + [Write(soundData[index], soundDataSizes[index])];
    }

    /** `stop()`: always ends Stopped with index -1, and flushes the backend. */
    method Stop()
      requires Valid()
      requires hasBackend
      modifies this
      ensures Valid()
      ensures state == Stopped && currentSoundIndex == -1
      ensures backendLog == old(backendLog) + [Flush]
    {
      state := Stopped;
      currentSoundIndex := -1;
      backendLog := backendLog + [Flush];
    }

    /**
     * `update()`: when Playing and the backend reports it has finished, stop;
     * in every other case nothing changes. `backendPlaying` is the backend's
     * answer to `playing()`, which is asked only while Playing.
     */
    method Update(backendPlaying: bool)
      requires Valid()
      modifies this
      ensures Valid()
      ensures old(state) == Playing && !backendPlaying ==>
                state == Stopped && currentSoundIndex == -1 && backendLog == old(backendLog) + [Flush]
      ensures !(old(state) == Playing && !backendPlaying) ==>
                state == old(state) && currentSoundIndex == old(currentSoundIndex)
                && backendLog == old(backendLog)
    {
      if state == Playing && !backendPlaying {
        Stop();
      }
    }

    /** `playRandomSound()` as built for the board: `play(random(0, NUM_SOUND_FILES))`. */
    method PlayRandomSound(draw: nat)
      requires Valid()
      requires hasBackend
      modifies this
      ensures Valid()
      ensures state == Playing
      ensures currentSoundIndex == Random(0, NUM_SOUND_FILES, draw)
      ensures backendLog == old(backendLog) + [Write(soundData[currentSoundIndex], soundDataSizes[currentSoundIndex])]
    {
      var index := Random(0, NUM_SOUND_FILES, draw);
      Play(index);
    }

    /**
     * `playRandomSound()` as built natively: rejection sampling over the
     * `rand()` results in `draws`, then `play` of the accepted index. If the
     * supply is exhausted before a draw is accepted, nothing is played.
     */
    method PlayRandomSoundNative(draws: seq<int>)
      requires Valid()
      requires hasBackend
      requires forall k :: 0 <= k < |draws| ==> 0 <= draws[k] <= RAND_MAX
      modifies this
      ensures Valid()
      ensures (exists k :: 0 <= k < |draws| && draws[k] < RejectionBound()) ==>
                state == Playing && 0 <= currentSoundIndex < NUM_SOUND_FILES
      ensures forall k :: FirstAccepted(draws, k) ==>
                  && currentSoundIndex == draws[k] % NUM_SOUND_FILES
                  && backendLog == old(backendLog)
                       + [Write(soundData[currentSoundIndex], soundDataSizes[currentSoundIndex])]
      ensures (forall k :: 0 <= k < |draws| ==> draws[k] >= RejectionBound()) ==>
                state == old(state) && currentSoundIndex == old(currentSoundIndex)
                && backendLog == old(backendLog)
    {
      var index, _ := RejectionSample(draws);
      if index.Some? {
        Play(index.value);
      }
    }
  }
}
