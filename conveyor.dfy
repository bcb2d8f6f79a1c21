/** The conveyor: the list of circle instances built from a beatmap (newest
    object first, each with the scroll velocity of its segment), the cull
    cursor that skips circles whose time has passed, and the camera and time
    offset set up before each frame. Textures, pipelines and GPU buffers are
    not part of this model; the uploaded buffer is kept as the baked list. */
module Conveyor {
  import opened Wrappers
  import opened Vectors
  import opened Colors
  import opened Times
  import opened TaikoCircle
  import opened Parser
  import opened Model
  import opened Settings
  import opened Camera
  import Float

  const CIRCLE_SIZE: real := 128.0
  const BIG_FACTOR: real := 1.55

  /** Height of a circle's quad: big circles are 1.55 times larger. */
  function BaseSize(big: bool): real {
    if big then CIRCLE_SIZE * BIG_FACTOR else CIRCLE_SIZE
  }

  // ---------------------------------------------------------------------
  // The velocity cursor

  /** Beatmap objects in time order. */
  predicate ObjectsSorted(objects: seq<Circle>) {
    forall i, j :: 0 <= i < j < |objects| ==> objects[i].time.seconds <= objects[j].time.seconds
  }

  /** `k` is the segment in force at `t`: every later point starts after
      `t`, and point `k` itself starts no later than `t` unless it is point
      0, which also stands for times before the first point. */
  predicate IsActiveSegment(vel: seq<VelocityPoint>, t: Time, k: nat) {
    k < |vel|
    && (k == 0 || vel[k].time.seconds <= t.seconds)
    && forall j :: k < j < |vel| ==> vel[j].time.seconds > t.seconds
  }

  /** The inner `while`: step the cursor back while its point starts after
      `t` and it is not at point 0. */
  function StopAt(vel: seq<VelocityPoint>, idx: nat, t: Time): (k: nat)
    requires idx < |vel|
    ensures k <= idx
    ensures k == 0 || vel[k].time.seconds <= t.seconds
    ensures forall j :: k < j <= idx ==> vel[j].time.seconds > t.seconds
    decreases idx
  {
    if vel[idx].time.seconds > t.seconds && idx != 0 then StopAt(vel, idx - 1, t) else idx
  }

  /** The inner loop of `rebuild_instances_beatmap` itself. */
  method SeekBack(vel: seq<VelocityPoint>, start: nat, t: Time) returns (idx: nat)
    requires start < |vel|
    ensures idx == StopAt(vel, start, t)
  {
    idx := start;
    while vel[idx].time.seconds > t.seconds && idx != 0
      invariant idx <= start
      invariant StopAt(vel, idx, t) == StopAt(vel, start, t)
      decreases idx
    {
      idx := idx - 1;
    }
  }

  /** Where the cursor stands after the last `m` objects, walked from the
      last one backwards; it starts at the last velocity point. */
  function CursorAfter(vel: seq<VelocityPoint>, objects: seq<Circle>, m: nat): (k: nat)
    requires |vel| > 0 && m <= |objects|
    ensures k < |vel|
    decreases m
  {
    if m == 0 then |vel| - 1
    else StopAt(vel, CursorAfter(vel, objects, m - 1), objects[|objects| - m].time)
  }

  /** Walking more objects never moves the cursor forward. */
  lemma {:induction false} CursorNeverIncreases(vel: seq<VelocityPoint>, objects: seq<Circle>, m1: nat, m2: nat)
    requires |vel| > 0 && m1 <= m2 <= |objects|
    ensures CursorAfter(vel, objects, m2) <= CursorAfter(vel, objects, m1)
    decreases m2 - m1
  {
    if m1 < m2 {
      CursorNeverIncreases(vel, objects, m1, m2 - 1);
    }
  }

  /** There is one segment in force at any time. */
  lemma ActiveSegmentUnique(vel: seq<VelocityPoint>, t: Time, k1: nat, k2: nat)
    requires IsActiveSegment(vel, t, k1) && IsActiveSegment(vel, t, k2)
    ensures k1 == k2
  {
  }

  /** A fresh search from the last point finds the segment in force. */
  lemma SearchFindsActiveSegment(vel: seq<VelocityPoint>, t: Time)
    requires |vel| > 0
    ensures IsActiveSegment(vel, t, StopAt(vel, |vel| - 1, t))
  {
  }

  /** With the objects in time order, the cursor after the last `m` objects
      stands at the segment in force at the time of the `m`-th object from
      the end; the velocity points need not be sorted. */
  lemma {:induction false} CursorFindsActiveSegment(vel: seq<VelocityPoint>, objects: seq<Circle>, m: nat)
    requires |vel| > 0 && 0 < m <= |objects|
    requires ObjectsSorted(objects)
    ensures IsActiveSegment(vel, objects[|objects| - m].time, CursorAfter(vel, objects, m))
    decreases m
  {
    var n := |objects|;
    var t := objects[n - m].time;
    var prev := CursorAfter(vel, objects, m - 1);
    if m > 1 {
      CursorFindsActiveSegment(vel, objects, m - 1);
      assert objects[n - m].time.seconds <= objects[n - m + 1].time.seconds;
      assert forall j :: prev < j < |vel| ==> vel[j].time.seconds > t.seconds;
    }
  }

  /** Hence the incremental cursor agrees with a fresh search per object. */
  lemma CursorIsFreshSearch(vel: seq<VelocityPoint>, objects: seq<Circle>, m: nat)
    requires |vel| > 0 && 0 < m <= |objects|
    requires ObjectsSorted(objects)
    ensures CursorAfter(vel, objects, m) == StopAt(vel, |vel| - 1, objects[|objects| - m].time)
  {
    var t := objects[|objects| - m].time;
    CursorFindsActiveSegment(vel, objects, m);
    SearchFindsActiveSegment(vel, t);
    ActiveSegmentUnique(vel, t, CursorAfter(vel, objects, m), StopAt(vel, |vel| - 1, t));
  }

  // ---------------------------------------------------------------------
  // The instance list

  /** The instance record of `obj` drawn at scroll velocity `v`. */
  function InstanceFor(state: TaikoState, multiplier: real, obj: Circle, v: real): (m: HitObjectModel)
    reads state
    ensures m.time == ToMs(obj.time) as real * state.zoom * multiplier
    ensures m.size.y == BaseSize(obj.big) && (v != 0.0 ==> m.size.x * v == m.size.y)
    ensures m.color == (if obj.color == KAT then state.katColor else state.donColor)
    ensures m.finisher == obj.big && m.velocity == v
  {
    var base := BaseSize(obj.big);
    HitObjectModel(ToMs(obj.time) as real * state.zoom * multiplier, Vector2(Float.Div(base, v), base),
                   if obj.color == KAT then state.katColor else state.donColor, obj.big, v)
  }

  /** The instances of the last `m` objects, last object first. */
  function Instances(state: TaikoState, beatmap: Beatmap, m: nat): (ms: seq<HitObjectModel>)
    requires |beatmap.velocity| > 0 && m <= |beatmap.objects|
    reads state
    ensures |ms| == m
    decreases m
  {
    if m == 0 then []
    else
      var obj := beatmap.objects[|beatmap.objects| - m];
      var k := CursorAfter(beatmap.velocity, beatmap.objects, m);
      Instances(state, beatmap, m - 1) + [InstanceFor(state, beatmap.velocityMultiplier, obj, beatmap.velocity[k].velocity)]
  }

  /** One more object moves the cursor from where it stood to `StopAt` the
      next object's time. */
  lemma CursorStep(vel: seq<VelocityPoint>, objects: seq<Circle>, m: nat)
    requires |vel| > 0 && m < |objects|
    ensures CursorAfter(vel, objects, m + 1) == StopAt(vel, CursorAfter(vel, objects, m), objects[|objects| - 1 - m].time)
  {
  }

  /** One more object appends one more instance. */
  lemma InstancesStep(state: TaikoState, beatmap: Beatmap, m: nat)
    requires |beatmap.velocity| > 0 && m < |beatmap.objects|
    ensures var n := |beatmap.objects|;
      Instances(state, beatmap, m + 1) == Instances(state, beatmap, m)
        + [InstanceFor(state, beatmap.velocityMultiplier, beatmap.objects[n - 1 - m],
                       beatmap.velocity[CursorAfter(beatmap.velocity, beatmap.objects, m + 1)].velocity)]
  {
  }

  /** Instance `i` is drawn from object `n - 1 - i` at the velocity under the
      cursor after that object. */
  lemma {:induction false} InstanceOrder(state: TaikoState, beatmap: Beatmap, m: nat, i: nat)
    requires |beatmap.velocity| > 0 && i < m <= |beatmap.objects|
    ensures var k := CursorAfter(beatmap.velocity, beatmap.objects, i + 1);
      Instances(state, beatmap, m)[i]
        == InstanceFor(state, beatmap.velocityMultiplier, beatmap.objects[|beatmap.objects| - 1 - i], beatmap.velocity[k].velocity)
    decreases m
  {
    if i < m - 1 {
      InstanceOrder(state, beatmap, m - 1, i);
    }
  }

  /** With the objects in time order, every instance has the velocity of the
      segment in force at its object's time. */
  lemma InstanceVelocity(state: TaikoState, beatmap: Beatmap, i: nat, k: nat)
    requires |beatmap.velocity| > 0 && i < |beatmap.objects|
    requires ObjectsSorted(beatmap.objects)
    requires IsActiveSegment(beatmap.velocity, beatmap.objects[|beatmap.objects| - 1 - i].time, k)
    ensures Instances(state, beatmap, |beatmap.objects|)[i].velocity == beatmap.velocity[k].velocity
  {
    var t := beatmap.objects[|beatmap.objects| - 1 - i].time;
    var cursor := CursorAfter(beatmap.velocity, beatmap.objects, i + 1);
    InstanceOrder(state, beatmap, |beatmap.objects|, i);
    CursorFindsActiveSegment(beatmap.velocity, beatmap.objects, i + 1);
    ActiveSegmentUnique(beatmap.velocity, t, cursor, k);
  }

  // ---------------------------------------------------------------------
  // Culling

  /** A circle whose time, shifted by the audio offset, is not after
      `timeMs` has scrolled past the hit position. */
  predicate Passed(c: Circle, audioOffset: int, timeMs: int) {
    ToMs(c.time) + audioOffset <= timeMs
  }

  /** The cull loop from cursor `k`: skip objects while they have passed. */
  function CullFrom(objects: seq<Circle>, audioOffset: int, timeMs: int, k: nat): (r: nat)
    ensures k <= r
    ensures k <= |objects| ==> r <= |objects|
    ensures r >= |objects| || !Passed(objects[r], audioOffset, timeMs)
    ensures forall j :: k <= j < r ==> j < |objects| && Passed(objects[j], audioOffset, timeMs)
    decreases |objects| - k
  {
    if k < |objects| && Passed(objects[k], audioOffset, timeMs) then CullFrom(objects, audioOffset, timeMs, k + 1)
    else k
  }

  /** Number of objects that have passed. */
  function PassedCount(objects: seq<Circle>, audioOffset: int, timeMs: int): (n: nat)
    ensures n <= |objects|
  {
    if objects == [] then 0
    else (if Passed(objects[0], audioOffset, timeMs) then 1 else 0) + PassedCount(objects[1..], audioOffset, timeMs)
  }

  lemma {:induction false} PassedCountAppend(a: seq<Circle>, b: seq<Circle>, audioOffset: int, timeMs: int)
    ensures PassedCount(a + b, audioOffset, timeMs) == PassedCount(a, audioOffset, timeMs) + PassedCount(b, audioOffset, timeMs)
    decreases |a|
  {
    if a == [] {
      assert a + b == b;
    } else {
      assert (a + b)[0] == a[0];
      assert (a + b)[1..] == a[1..] + b;
      PassedCountAppend(a[1..], b, audioOffset, timeMs);
    }
  }

  /** `PassedCount` is `|objects|` when all have passed and 0 when none has. */
  lemma {:induction false} PassedCountUniform(objects: seq<Circle>, audioOffset: int, timeMs: int, all: bool)
    requires forall j :: 0 <= j < |objects| ==> Passed(objects[j], audioOffset, timeMs) == all
    ensures PassedCount(objects, audioOffset, timeMs) == if all then |objects| else 0
    decreases |objects|
  {
    if objects != [] {
      PassedCountUniform(objects[1..], audioOffset, timeMs, all);
    }
  }

  /** With the objects in time order, the cull loop started at 0 stops at the
      number of passed objects: the passed ones are exactly a prefix. */
  lemma CullCountsPassed(objects: seq<Circle>, audioOffset: int, timeMs: int)
    requires ObjectsSorted(objects)
    ensures CullFrom(objects, audioOffset, timeMs, 0) == PassedCount(objects, audioOffset, timeMs)
  {
    var r := CullFrom(objects, audioOffset, timeMs, 0);
    assert objects == objects[..r] + objects[r..];
    PassedCountAppend(objects[..r], objects[r..], audioOffset, timeMs);
    PassedCountUniform(objects[..r], audioOffset, timeMs, true);
    forall j | 0 <= j < |objects[r..]|
      ensures !Passed(objects[r..][j], audioOffset, timeMs)
    {
      ToMsMonotone(objects[r].time, objects[r + j].time);
    }
    PassedCountUniform(objects[r..], audioOffset, timeMs, false);
  }

  /** The loop of `rebuild_instances_beatmap`: one instance per object,
      last object first, each with the velocity found by walking a cursor
      back from the last velocity point. */
  method BuildInstances(state: TaikoState, beatmap: Beatmap) returns (ms: seq<HitObjectModel>)
    requires |beatmap.velocity| > 0
    ensures ms == Instances(state, beatmap, |beatmap.objects|)
  {
    var vel := beatmap.velocity;
    var objects := beatmap.objects;
    var n := |objects|;
    ms := [];
    var idx: nat := |vel| - 1;
    var i := 0;
    while i < n
      invariant 0 <= i <= n
      invariant idx == CursorAfter(vel, objects, i)
      invariant ms == Instances(state, beatmap, i)
    {
      var obj := objects[n - 1 - i];
      CursorStep(vel, objects, i);
      idx := SeekBack(vel, idx, obj.time);
      var instance := InstanceFor(state, beatmap.velocityMultiplier, obj, vel[idx].velocity);
      assert Instances(state, beatmap, i + 1) == ms + [instance] by {
        InstancesStep(state, beatmap, i);
      }
      ms := ms + [instance];
      i := i + 1;
    }
  }

  // ---------------------------------------------------------------------
  // A beatmap without velocity points

  /** `beatmap.velocity.len() - 1`, where the cursor starts, as the `usize`
      subtraction it is: `None` where it goes below zero. A debug build
      panics there; a release build wraps to `usize::MAX`, and the first
      `velocity[idx]` of the loop then indexes out of bounds. */
  function StartCursor(vel: seq<VelocityPoint>): (k: Option<nat>)
    ensures k.Some? <==> |vel| > 0
    ensures k.Some? ==> k.value < |vel| && k.value + 1 == |vel|
  {
    if |vel| == 0 then None else Some(|vel| - 1)
  }

  /** As written, a beatmap read from a text with no inherited timing row,
      such as one whose only row is `0,500,4,2,0,100,1,0`, has no velocity
      point, so the rebuild that loading it asks for has no point to start
      its cursor at. */
  lemma NoInheritedRowNoCursor(lines: seq<string>)
    requires ParseLines(lines).Success?
    requires forall k :: 0 <= k < |lines| ==> !IsInheritedRow(lines[k])
    ensures StartCursor(ParseLines(lines).value.velocity).None?
  {
    NoInheritedRowNoVelocity(lines);
  }

  /** The beatmap the rebuild scrolls by: the beatmap itself, or, when it
      has no velocity point, the beatmap with one point at 0 ms at the base
      velocity 1 (an inherited beat length of -100). */
  function WithDefaultVelocity(beatmap: Beatmap): (b: Beatmap)
    ensures |b.velocity| > 0
    ensures b.objects == beatmap.objects && b.velocityMultiplier == beatmap.velocityMultiplier
    ensures beatmap.velocity != [] ==> b == beatmap
  {
    if beatmap.velocity == [] then beatmap.(velocity := [VelocityPoint(Zero(), VelocityOf(-100.0))]) else beatmap
  }

  /** With the default, a beatmap without velocity points draws every
      circle at the base velocity 1; with velocity points, each circle still
      gets the velocity of its segment (`InstanceVelocity`). */
  lemma DefaultVelocityIsBase(state: TaikoState, beatmap: Beatmap, i: nat)
    requires beatmap.velocity == [] && i < |beatmap.objects|
    ensures Instances(state, WithDefaultVelocity(beatmap), |beatmap.objects|)[i].velocity == 1.0
  {
    var b := WithDefaultVelocity(beatmap);
    InstanceOrder(state, b, |b.objects|, i);
  }

  // ---------------------------------------------------------------------
  // Scrolling

  /** The time uniform: added to every instance's time in the vertex shader,
      it scrolls the playfield so that `timeMs` sits at the hit position. */
  function TimeOffset(timeMs: int, audioOffset: int, zoom: real, multiplier: real): real {
    (-(timeMs as real) + audioOffset as real) * zoom * multiplier
  }

  /** A circle's distance from the hit position is its remaining time,
      shifted by the audio offset and scaled by zoom and multiplier. */
  lemma ScrollDistance(state: TaikoState, multiplier: real, obj: Circle, v: real, timeMs: int)
    ensures InstanceFor(state, multiplier, obj, v).time + TimeOffset(timeMs, state.audioOffset, state.zoom, multiplier)
            == (ToMs(obj.time) + state.audioOffset - timeMs) as real * state.zoom * multiplier
  {
    var ms := ToMs(obj.time) as real;
    calc {
      InstanceFor(state, multiplier, obj, v).time + TimeOffset(timeMs, state.audioOffset, state.zoom, multiplier);
      ms * state.zoom * multiplier + (-(timeMs as real) + state.audioOffset as real) * state.zoom * multiplier;
      (ms - timeMs as real + state.audioOffset as real) * state.zoom * multiplier;
    }
  }

  /** So with a non-negative zoom and multiplier, the circles the cull loop
      skips are at or behind the hit position. */
  lemma PassedCirclesAreBehind(state: TaikoState, multiplier: real, obj: Circle, v: real, timeMs: int)
    requires state.zoom >= 0.0 && multiplier >= 0.0
    requires Passed(obj, state.audioOffset, timeMs)
    ensures InstanceFor(state, multiplier, obj, v).time + TimeOffset(timeMs, state.audioOffset, state.zoom, multiplier) <= 0.0
  {
    ScrollDistance(state, multiplier, obj, v, timeMs);
    var d := (ToMs(obj.time) + state.audioOffset - timeMs) as real;
    assert d <= 0.0;
    assert d * state.zoom <= 0.0;
    assert d * state.zoom * multiplier <= 0.0;
  }

  // ---------------------------------------------------------------------
  // The conveyor

  /** How many circle instances a frame draws: `circle_instances.len() -
      cull_back`, or `Underflow` where that `usize` subtraction would go
      below zero (a panic in a debug build). */
  datatype DrawCount = Count(n: nat) | Underflow

  function DrawnCount(instances: nat, cullBack: nat): (d: DrawCount)
    ensures d.Count? <==> cullBack <= instances
    ensures d.Count? ==> d.n + cullBack == instances
  {
    if cullBack <= instances then Count(instances - cullBack) else Underflow
  }

  class Conveyor {
    var circleInstances: seq<HitObjectModel>
    /** The contents of the instance buffer last uploaded. */
    var instanceData: seq<Baked>
    var cullBack: nat
    /** The x component of the time uniform. */
    var timeOffset: real
    const camera: Camera2D
    const projection: ProjectionOrthographic

    /** `Conveyor::new`, without its textures, pipelines and buffers. */
    constructor (width: U32, height: U32, deviceScale: real)
      ensures circleInstances == [] && instanceData == [] && cullBack == 0 && timeOffset == 0.0
      ensures fresh(camera) && fresh(projection)
      ensures camera.position == Vector3(0.0, 0.0, -50.0) && camera.rotation == ZeroQuaternion
      ensures camera.scale == Vector3(deviceScale, deviceScale, 1.0)
      ensures projection.width == width as real && projection.height == height as real
      ensures projection.znear == -100.0 && projection.zfar == 100.0
    {
      circleInstances := [];
      instanceData := [];
      cullBack := 0;
      timeOffset := 0.0;
      camera := new Camera2D(Vector3(0.0, 0.0, -50.0), ZeroQuaternion, Vector3(deviceScale, deviceScale, 1.0));
      projection := new ProjectionOrthographic(width, height, -100.0, 100.0);
    }

    /** `rebuild_instances_beatmap`: replace the instance list and its
        baked copy for the uniform buffer. A beatmap without velocity
        points scrolls at the base velocity (`WithDefaultVelocity`). */
    method Rebuild(state: TaikoState, beatmap: Beatmap)
      modifies this
      ensures circleInstances == Instances(state, WithDefaultVelocity(beatmap), |beatmap.objects|)
      ensures instanceData == BakeAll(circleInstances)
      ensures cullBack == old(cullBack) && timeOffset == old(timeOffset)
    {
      circleInstances := BuildInstances(state, WithDefaultVelocity(beatmap));
      instanceData := BakeAll(circleInstances);
    }

    /** `Conveyor::draw` without the render-pass calls: rebuild when asked,
        advance the cull cursor past the circles that have passed (when
        `hit_circles` is on), then place the camera at the hit position and
        set the time offset. Returns how many instances are drawn. */
    method Draw(rebuild: bool, state: TaikoState, beatmap: Beatmap, timeMs: U32, deviceScale: real)
      returns (drawn: DrawCount)
      modifies this, camera
      ensures rebuild ==> circleInstances == Instances(state, WithDefaultVelocity(beatmap), |beatmap.objects|)
                          && instanceData == BakeAll(circleInstances)
      ensures !rebuild ==> circleInstances == old(circleInstances) && instanceData == old(instanceData)
      ensures cullBack == if state.hitCircles then CullFrom(beatmap.objects, state.audioOffset, timeMs, old(cullBack)) else old(cullBack)
      ensures drawn == DrawnCount(|circleInstances|, cullBack)
      ensures var s := deviceScale * state.scale; camera.scale == Vector3(s, s, 1.0)
      ensures camera.position == Vector3(state.hitPosition.x, state.hitPosition.y, old(camera.position.z))
      ensures camera.rotation == old(camera.rotation)
      ensures timeOffset == TimeOffset(timeMs, state.audioOffset, state.zoom, beatmap.velocityMultiplier)
    {
      if rebuild {
        Rebuild(state, beatmap);
      }

      if state.hitCircles {
        ghost var instances, data, offset := circleInstances, instanceData, timeOffset;
        while cullBack < |beatmap.objects|
          invariant circleInstances == instances && instanceData == data && timeOffset == offset
          invariant unchanged(camera)
          invariant old(cullBack) <= cullBack
          invariant CullFrom(beatmap.objects, state.audioOffset, timeMs, cullBack)
                    == CullFrom(beatmap.objects, state.audioOffset, timeMs, old(cullBack))
          decreases |beatmap.objects| - cullBack
        {
          var circle := beatmap.objects[cullBack];
          if Passed(circle, state.audioOffset, timeMs) {
            cullBack := cullBack + 1;
          } else {
            break;
          }
        }
      }

      var s := deviceScale * state.scale;
      camera.SetScale(Vector3(s, s, 1.0));
      camera.SetX(state.hitPosition.x);
      camera.SetY(state.hitPosition.y);

      timeOffset := (-(timeMs as real) + state.audioOffset as real) * state.zoom * beatmap.velocityMultiplier;
      assert timeOffset == TimeOffset(timeMs, state.audioOffset, state.zoom, beatmap.velocityMultiplier);
      drawn := DrawnCount(|circleInstances|, cullBack);
    }
  }
}
