/** The taiko layer: it owns the audio output, the playback clock, the
    loaded beatmap and the conveyor, and drives them from the UI's
    requests and once per frame. */
module Layer {
  import opened Wrappers
  import opened Vectors
  import opened Times
  import opened TaikoCircle
  import opened Parser
  import opened Settings
  import opened Playback
  import opened Conveyor
  import opened Model

  class TaikoLayer {
    const audio: Audio
    const clock: SyncClock
    var beatmap: Option<Beatmap>
    const conveyor: Conveyor

    /** `TaikoLayer::new`: nothing loaded, a fresh conveyor. */
    constructor (width: U32, height: U32, deviceScale: real)
      ensures beatmap.None? && !audio.playing
      ensures fresh(audio) && fresh(clock) && fresh(conveyor) && fresh(conveyor.camera) && fresh(conveyor.projection)
      ensures conveyor.circleInstances == [] && conveyor.cullBack == 0
    {
      audio := new Audio();
      clock := new SyncClock();
      beatmap := None;
      conveyor := new Conveyor(width, height, deviceScale);
    }

    /** The conveyor is consistent with the loaded beatmap: its cull cursor
        lies within the beatmap's objects, and unless a rebuild is pending
        it holds one instance per object. This is what keeps the drawn
        count `instances - cull_back` from underflowing. */
    predicate InSync(pending: bool)
      reads this, conveyor
    {
      beatmap.Some? ==>
        conveyor.cullBack <= |beatmap.value.objects|
        && (pending || |conveyor.circleInstances| == |beatmap.value.objects|)
    }

    /** `Layer::draw`: consume the rebuild flag, then, when a beatmap is
        loaded, draw it at the clock's time, rebuilding when the flag or
        `force_rebuild` asked for it, and upload the baked buffer, the time
        offset and the camera. Returns the drawn count, or `None` when
        nothing is loaded. */
    method Draw(state: TaikoState, deviceScale: real) returns (frame: Option<DrawCount>)
      modifies state, conveyor, conveyor.camera
      ensures !state.rebuildPending
      ensures state.scale == old(state.scale) && state.audioOffset == old(state.audioOffset)
      ensures state.hitPosition == old(state.hitPosition) && state.zoom == old(state.zoom)
      ensures state.donColor == old(state.donColor) && state.katColor == old(state.katColor)
      ensures state.forceRebuild == old(state.forceRebuild) && state.hitCircles == old(state.hitCircles)
      ensures beatmap.None? ==> frame.None? && unchanged(conveyor, conveyor.camera)
      ensures beatmap.Some? ==>
        var b := beatmap.value;
        (old(state.rebuildPending) || state.forceRebuild ==> conveyor.circleInstances == Instances(state, WithDefaultVelocity(b), |b.objects|))
        && (!(old(state.rebuildPending) || state.forceRebuild) ==> conveyor.circleInstances == old(conveyor.circleInstances))
        && conveyor.cullBack == (if state.hitCircles then CullFrom(b.objects, state.audioOffset, clock.time, old(conveyor.cullBack))
                                 else old(conveyor.cullBack))
        && frame == Some(DrawnCount(|conveyor.circleInstances|, conveyor.cullBack))
        && (old(state.rebuildPending) || state.forceRebuild ==> conveyor.instanceData == BakeAll(conveyor.circleInstances))
        && (!(old(state.rebuildPending) || state.forceRebuild) ==> conveyor.instanceData == old(conveyor.instanceData))
        && conveyor.timeOffset == TimeOffset(clock.time, state.audioOffset, state.zoom, b.velocityMultiplier)
        && (var s := deviceScale * state.scale; conveyor.camera.scale == Vector3(s, s, 1.0))
        && conveyor.camera.position == Vector3(state.hitPosition.x, state.hitPosition.y, old(conveyor.camera.position.z))
        && conveyor.camera.rotation == old(conveyor.camera.rotation)
      ensures old(InSync(state.rebuildPending)) ==> InSync(false) && frame != Some(Underflow)
    {
      var rebuild := state.rebuildPending || state.forceRebuild;
      state.rebuildPending := false;
      if beatmap.None? {
        return None;
      }
      var b := beatmap.value;
      var timeMs := clock.time;
      var drawn := conveyor.Draw(rebuild, state, b, timeMs, deviceScale);
      frame := Some(drawn);
    }

    /** `Layer::resize`: only the projection's size changes. */
    method Resize(width: U32, height: U32)
      modifies conveyor.projection
      ensures conveyor.projection.width == width as real && conveyor.projection.height == height as real
      ensures conveyor.projection.znear == old(conveyor.projection.znear)
      ensures conveyor.projection.zfar == old(conveyor.projection.zfar)
    {
      conveyor.projection.Resize(width, height);
    }

    /** `Layer::scale`: only the camera's scale changes. */
    method Scale(scale: real)
      modifies conveyor.camera
      ensures conveyor.camera.scale == Vector3(scale, scale, 1.0)
      ensures conveyor.camera.position == old(conveyor.camera.position)
      ensures conveyor.camera.rotation == old(conveyor.camera.rotation)
    {
      conveyor.camera.SetScale(Vector3(scale, scale, 1.0));
    }

    /** `close_beatmap`: clock at 0, paused, no length; audio stopped and
        at 0; nothing loaded. The conveyor is left as it is. */
    method CloseBeatmap()
      modifies this, clock, audio
      ensures beatmap.None?
      ensures clock.time == 0 && clock.paused && clock.length == 0
      ensures !audio.playing && audio.position == 0
    {
      clock.SetTime(0);
      clock.SetPaused(true, 0);
      clock.SetLength(0);
      audio.Stop();
      audio.SetTime(0);
      beatmap := None;
    }

    /** `toggle_paused`: flip the clock's pause state at the audio's
        position (in ms, as `u32`) and toggle the audio; at or past the end
        of the track, rewind to 0. */
    method TogglePaused()
      modifies clock, audio, conveyor
      ensures beatmap == old(beatmap)
      ensures clock.paused == !old(clock.paused) && clock.length == old(clock.length)
      ensures audio.playing == old(audio.playing) && audio.length == old(audio.length)
      ensures conveyor.circleInstances == old(conveyor.circleInstances)
      ensures conveyor.instanceData == old(conveyor.instanceData) && conveyor.timeOffset == old(conveyor.timeOffset)
      ensures var now := AsU32(old(audio.position));
        if now >= old(clock.length) then
          clock.time == 0 && audio.position == 0 && conveyor.cullBack == 0
        else
          clock.time == now && audio.position == old(audio.position) && conveyor.cullBack == old(conveyor.cullBack)
    {
      var now := AsU32(audio.position);
      clock.TogglePaused(now);
      audio.Pause();
      if now >= clock.length {
        SetTime(0);
      }
    }

    /** `set_paused`: pause or resume clock and audio together, the clock
        pinned at the audio's position. */
    method SetPaused(value: bool)
      modifies clock, audio
      ensures IsPaused() == value && audio.paused == value
      ensures clock.time == AsU32(old(audio.position)) && clock.length == old(clock.length)
      ensures audio.position == old(audio.position) && audio.playing == old(audio.playing)
    {
      var now := AsU32(audio.position);
      clock.SetPaused(value, now);
      audio.SetPaused(value);
    }

    function IsPaused(): bool
      reads this, clock
    {
      clock.paused
    }

    /** `set_time`: move clock and audio to `ms`; the cull cursor restarts
        from the first object, in case this was a rewind. */
    method SetTime(ms: U32)
      modifies clock, audio, conveyor
      ensures clock.time == ms && audio.position == ms && conveyor.cullBack == 0
      ensures GetTime() == FromMs(ms as real)
      ensures clock.paused == old(clock.paused) && clock.length == old(clock.length)
      ensures audio.paused == old(audio.paused) && audio.playing == old(audio.playing) && audio.length == old(audio.length)
      ensures conveyor.circleInstances == old(conveyor.circleInstances)
      ensures conveyor.instanceData == old(conveyor.instanceData) && conveyor.timeOffset == old(conveyor.timeOffset)
    {
      clock.SetTime(ms);
      audio.SetTime(ms);
      conveyor.cullBack := 0;
    }

    /** `get_time`: the clock's time as a `Time`; it projects back to the
        clock's milliseconds. */
    function GetTime(): (t: Time)
      reads this, clock
      ensures ToMs(t) == clock.time
    {
      FromMsToMs(clock.time);
      FromMs(clock.time as real)
    }

    function GetLength(): U32
      reads this, clock
    {
      clock.length
    }

    /** Loading a beatmap from the file dialog, as written: store it, play
        its track, reset the clock to 0, paused, with the track's length,
        and ask for a rebuild. The cull cursor is not touched. */
    method OpenBeatmap(state: TaikoState, b: Beatmap, trackLength: nat)
      modifies this, clock, audio, state
      ensures beatmap == Some(b) && state.rebuildPending
      ensures state.scale == old(state.scale) && state.audioOffset == old(state.audioOffset)
      ensures state.hitPosition == old(state.hitPosition) && state.zoom == old(state.zoom)
      ensures state.donColor == old(state.donColor) && state.katColor == old(state.katColor)
      ensures state.forceRebuild == old(state.forceRebuild) && state.hitCircles == old(state.hitCircles)
      ensures clock.time == 0 && clock.paused && clock.length == AsU32(trackLength)
      ensures audio.playing && audio.length == trackLength
      ensures conveyor.cullBack == old(conveyor.cullBack)
    {
      beatmap := Some(b);
      audio.Play(trackLength);
      clock.SetTime(0);
      clock.SetPaused(true, 0);
      clock.SetLength(AsU32(audio.length));
      state.rebuildPending := true;
    }

    /** Loading a beatmap with the cull cursor restarted, as `set_time`
        does: the conveyor is in sync with the new beatmap whatever was
        loaded before. */
    method OpenBeatmapResetting(state: TaikoState, b: Beatmap, trackLength: nat)
      modifies this, clock, audio, state, conveyor
      ensures beatmap == Some(b) && state.rebuildPending
      ensures state.scale == old(state.scale) && state.audioOffset == old(state.audioOffset)
      ensures state.hitPosition == old(state.hitPosition) && state.zoom == old(state.zoom)
      ensures state.donColor == old(state.donColor) && state.katColor == old(state.katColor)
      ensures state.forceRebuild == old(state.forceRebuild) && state.hitCircles == old(state.hitCircles)
      ensures clock.time == 0 && clock.paused && clock.length == AsU32(trackLength)
      ensures audio.playing && audio.length == trackLength
      ensures conveyor.cullBack == 0 && conveyor.circleInstances == old(conveyor.circleInstances)
      ensures conveyor.instanceData == old(conveyor.instanceData) && conveyor.timeOffset == old(conveyor.timeOffset)
      ensures InSync(state.rebuildPending)
    {
      OpenBeatmap(state, b, trackLength);
      conveyor.cullBack := 0;
    }
  }

  /** A beatmap of `n` DON circles at 0 ms with one velocity point. */
  function CirclesAtZero(n: nat): (b: Beatmap)
    ensures |b.objects| == n && |b.velocity| == 1
    ensures forall i :: 0 <= i < n ==> b.objects[i].time == FromMs(0.0)
  {
    Beatmap(seq(n, _ => Circle(FromMs(0.0), false, DON)), [], [VelocityPoint(FromMs(0.0), 1.0)], 1.0, "audio.mp3")
  }

  /** Loading a beatmap after drawing another one past some circles, as
      written, leaves the old cull cursor in place: with three circles
      culled at 1000 ms and then an empty beatmap loaded, the next frame's
      count `instances - cull_back` is 0 - 3. */
  method StaleCullCursor() returns (frame: Option<DrawCount>)
    ensures frame == Some(Underflow)
  {
    var state := new TaikoState();
    var layer := new TaikoLayer(800, 600, 1.0);
    var first := CirclesAtZero(3);
    layer.OpenBeatmap(state, first, 10000);
    layer.SetTime(1000);
    frame := layer.Draw(state, 1.0);
    FromMsToMs(0);
    assert layer.conveyor.cullBack == 3 by {
      assert Passed(first.objects[0], 45, 1000);
      assert Passed(first.objects[1], 45, 1000);
      assert Passed(first.objects[2], 45, 1000);
      assert CullFrom(first.objects, 45, 1000, 0) == 3;
    }
    layer.OpenBeatmap(state, CirclesAtZero(0), 10000);
    frame := layer.Draw(state, 1.0);
  }

  /** With the cursor restarted on load, the same sequence draws nothing
      and does not underflow. */
  method FreshCullCursor() returns (frame: Option<DrawCount>)
    ensures frame == Some(Count(0))
  {
    var state := new TaikoState();
    var layer := new TaikoLayer(800, 600, 1.0);
    layer.OpenBeatmapResetting(state, CirclesAtZero(3), 10000);
    layer.SetTime(1000);
    frame := layer.Draw(state, 1.0);
    layer.OpenBeatmapResetting(state, CirclesAtZero(0), 10000);
    frame := layer.Draw(state, 1.0);
  }
}
