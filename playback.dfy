/** The two playback devices the taiko layer drives: wcore's `SyncClock`
    and `Audio`. Their implementations are not part of this model; each is
    kept as the state the layer reads and writes, and each operation states
    only what its name and its use by the layer commit it to. Audio
    positions are whole milliseconds. */
module Playback {
  import opened Wrappers

  /** `as u32` of a millisecond count: truncation modulo 2^32. */
  function AsU32(ms: nat): (v: U32)
    ensures ms < 0x1_0000_0000 ==> v == ms
    ensures (v - ms) % 0x1_0000_0000 == 0
  {
    ms % 0x1_0000_0000
  }

  /** The clock the conveyor reads its frame time from, in `u32` ms. */
  class SyncClock {
    var time: U32
    var paused: bool
    var length: U32

    constructor ()
    {
    }

    method SetTime(value: U32)
      modifies this
      ensures time == value && paused == old(paused) && length == old(length)
    {
      time := value;
    }

    /** `set_paused(value, now)`: pause or resume, pinned at `now`. */
    method SetPaused(value: bool, now: U32)
      modifies this
      ensures paused == value && time == now && length == old(length)
    {
      paused := value;
      time := now;
    }

    /** `toggle_paused(now)`: flip the pause state, pinned at `now`. */
    method TogglePaused(now: U32)
      modifies this
      ensures paused == !old(paused) && time == now && length == old(length)
    {
      paused := !paused;
      time := now;
    }

    method SetLength(value: U32)
      modifies this
      ensures length == value && time == old(time) && paused == old(paused)
    {
      length := value;
    }
  }

  /** The audio output: whether a track is loaded and playing, its length,
      whether it is paused and where it is. */
  class Audio {
    var position: nat
    var paused: bool
    var playing: bool
    var length: nat

    constructor ()
      ensures !playing
    {
      playing := false;
    }

    /** `play(data)`: load a track of `trackLength` ms and start it; where
        it starts and whether it starts paused are the device's own. */
    method Play(trackLength: nat)
      modifies this
      ensures playing && length == trackLength
    {
      playing := true;
      length := trackLength;
      position := *;
      paused := *;
    }

    /** `stop()`: unload the track; the position it leaves is the device's
        own. */
    method Stop()
      modifies this
      ensures !playing && paused == old(paused) && length == old(length)
    {
      playing := false;
      position := *;
    }

    method SetTime(ms: nat)
      modifies this
      ensures position == ms
      ensures paused == old(paused) && playing == old(playing) && length == old(length)
    {
      position := ms;
    }

    /** `pause()`: the layer calls it to toggle; what it does to the pause
        state is the device's own. Nothing else changes. */
    method Pause()
      modifies this
      ensures position == old(position) && playing == old(playing) && length == old(length)
    {
      paused := *;
    }

    method SetPaused(value: bool)
      modifies this
      ensures paused == value
      ensures position == old(position) && playing == old(playing) && length == old(length)
    {
      paused := value;
    }
  }
}
