# apex taiko pipeline — a Dafny model

apex is a viewer for osu! taiko beatmaps. This project models its pipeline:

- **Parsing.** `try_parse` reads a `.osu` text into hit circles, tempo points and velocity points. It works section by section and keeps a key/value table for the other sections.
- **Instance building.** The conveyor turns the circles into one instance record per circle. A cursor walks back through the velocity list to find each circle's scroll velocity, and each record is baked into the layout the vertex shader reads.
- **Per-frame work.** The conveyor advances a cull cursor past the circles whose time has passed, places the camera at the hit position and sets the time offset. The number of instances it draws is `instances - cull_back`.
- **The taiko layer.** It owns the clock, the audio, the loaded beatmap and the conveyor. It consumes the rebuild flag once per frame and serves the timeline's pause and seek requests.
- **Value types.** `Time` (seconds with a millisecond projection), `Color` (byte and hex unpacking), `TaikoColor`, and the `Camera2D` / `ProjectionOrthographic` setters.

Files, one module each:

| file | module |
|---|---|
| `wrappers.dfy` | `Wrappers` (Option, Result, the `u32` type) |
| `float.dfy` | `Float` |
| `text.dfy` | `Text` (the `str` functions the parser uses) |
| `vectors.dfy` | `Vectors` |
| `time.dfy` | `Times` |
| `color.dfy` | `Colors` |
| `camera.dfy` | `Camera` |
| `taiko_circle.dfy` | `TaikoCircle` |
| `model.dfy` | `Model` |
| `parser.dfy` | `Parser` |
| `settings.dfy` | `Settings` (`TaikoState`) |
| `conveyor.dfy` | `Conveyor` |
| `playback.dfy` | `Playback` (clock and audio devices) |
| `layer.dfy` | `Layer` (`TaikoLayer`) |

The imperative code keeps its form. The following are methods with loops, each proved equal to a recursive specification function whose properties are proved as lemmas:

- `try_parse` (`Parser.TryParse` against `Parse`, which is built from `Feed`/`FeedAll`/`Finish`);
- the velocity cursor (`Conveyor.SeekBack` against `StopAt`);
- the instance loop (`Conveyor.BuildInstances` against `Instances`);
- the cull loop inside `Conveyor.Conveyor.Draw` (against `CullFrom`).

Objects whose fields the source updates in place are classes with `modifies` frames: `Camera2D`, `ProjectionOrthographic`, `TaikoState`, `Conveyor`, `SyncClock`, `Audio` and `TaikoLayer`. Every `f32`/`f64` is a `real`.

Points where the code does something other than what one might expect, each followed as written:

- The hit-object type is read from field 4, which is `hitSound` in the osu! row layout `x,y,time,type,hitSound,...`; the layout's `type` is field 3.
- `to_ms` uses Rust's `f64::round`, which rounds halves away from zero, not to even.
- Nothing the parser returns is sorted; the lists are in file order.
- A beatmap without velocity points cannot be rebuilt as written: `velocity.len() - 1` panics in a debug build, and in a release build it wraps and the first `velocity[idx]` panics once there is a circle. The model records this (`Conveyor.StartCursor`) and rebuilds such a beatmap at the base velocity instead (see Findings).
- A missing `[General]` `Mode`, `AudioFilename` or mode-3 `[Difficulty]` `CircleSize` panics on map indexing in the source. Here each is the error `MissingEntry`.

## Model

| member | source | states |
|---|---|---|
| Float.Div | apex-client/src/taiko/parser.rs:57 | quotient is exact for a non-zero divisor (`q * b == a`); a zero divisor gives 0 |
| Text.Lines | apex-client/src/taiko/parser.rs:40 | no line holds a line feed; empty text has no lines |
| Text.LinesUnlinesCrlf | apex-client/src/taiko/parser.rs:40 | lines written out with CR LF endings are read back unchanged: the carriage return before each line feed is dropped |
| Text.LinesUnlines | apex-client/src/taiko/parser.rs:40 | lines written out one per line feed are read back unchanged |
| Text.TrimStart | apex-client/src/taiko/parser.rs:129 | result is a suffix, starts with non-whitespace, and everything dropped is whitespace |
| Text.TrimEnd | apex-client/src/taiko/parser.rs:129 | result is a prefix, ends with non-whitespace, and everything dropped is whitespace |
| Text.Trim | apex-client/src/taiko/parser.rs:129 | no longer than the input, no whitespace at either end, and empty exactly when the input is all whitespace |
| Text.IsBlank | apex-client/src/taiko/parser.rs:49 | `trim().is_empty()`; no contract of its own, `BlankIffAllWhitespace` characterises it |
| Text.BlankIffAllWhitespace | apex-client/src/taiko/parser.rs:49 | `trim().is_empty()` holds exactly when every character is whitespace |
| Text.TrimIdempotent | apex-client/src/taiko/parser.rs:129 | trimming twice equals trimming once |
| Text.Split | apex-client/src/taiko/parser.rs:51 | at least one piece; no piece holds the separator; joining the pieces gives the input back |
| Text.SplitJoin | apex-client/src/taiko/parser.rs:51 | splitting the join of separator-free pieces returns exactly those pieces |
| Text.SplitWithoutSeparator | apex-client/src/taiko/parser.rs:122-124 | text without the separator splits into itself alone |
| Text.Field | apex-client/src/taiko/parser.rs:52-54 | `nth(k)` is present iff there are more than `k` pieces, and is piece `k` |
| Text.ParseI32 | apex-client/src/taiko/parser.rs:52 | an accepted value lies in the `i32` range |
| Text.ParseU8 | apex-client/src/taiko/parser.rs:78 | an accepted value lies in the `u8` range |
| Text.ParseI32RoundTrip | apex-client/src/taiko/parser.rs:52 | every `i32` printed in decimal parses back to itself |
| Text.ParseU8RoundTrip | apex-client/src/taiko/parser.rs:78 | every `u8` printed in decimal parses back to itself |
| Text.ParseF64 | apex-client/src/taiko/parser.rs:53 | an accepted text is non-empty; with a leading `-` the value is at most 0, otherwise at least 0 |
| Text.DecimalOfDigits | apex-client/src/taiko/parser.rs:53 | a run of digits parses as a float to the number it denotes |
| Text.DigitsValueAppend | apex-client/src/taiko/parser.rs:53 | the digits of `a` then `b` denote `a`'s number shifted left by as many places as `b` has digits, plus `b`'s |
| Text.UnsignedDecimalWithPoint | apex-client/src/taiko/parser.rs:53 | `whole.fraction` denotes the digits of both read as one number, scaled down by the fraction's length |
| Text.FractionOfDigits | apex-client/src/taiko/parser.rs:53 | that scaled number equals the whole part plus the fraction over 10^length |
| Text.UnsignedDecimalOfPoint | apex-client/src/taiko/parser.rs:53 | the unsigned text `w.f` parses to `w` plus `f` over 10 to the number of digits of `f` |
| Text.ParseF64Unsigned | apex-client/src/taiko/parser.rs:53 | text starting with a digit parses as the unsigned decimal it is |
| Text.ParseF64Negative | apex-client/src/taiko/parser.rs:53 | a leading `-` negates the unsigned decimal after it, and rejects what it rejects |
| Text.ParseF64OfDecimal | apex-client/src/taiko/parser.rs:53 | decimal text `w.f`, such as a beat length `333.333333333333`, parses to `w` plus `f` over 10 to the number of digits of `f` |
| Text.UnsignedDecimalWithExponent | apex-client/src/taiko/parser.rs:77 | `m e k` with digit-only `m` is `m`'s number times 10^k |
| Text.ParseExponentOfInteger | apex-client/src/taiko/parser.rs:77 | the exponent after `e` reads back as the integer printed there, negative or not |
| Text.ParseF64OfExponent | apex-client/src/taiko/parser.rs:77 | exponent text `m e k`, such as `15e2`, parses to `m * 10^k` |
| Text.ParseF64OfInteger | apex-client/src/taiko/parser.rs:77 | every integer printed in decimal parses as an `f64` to itself |
| Times.Zero | wcore/src/time.rs:6-8 | zero is 0 seconds |
| Times.ToSeconds | wcore/src/time.rs:18-20 | the seconds held; no contract of its own, `FromSecondsRoundTrip` pairs it with `from_seconds` |
| Times.FromSeconds | wcore/src/time.rs:10-12 | holds exactly the seconds given |
| Times.FromMs | wcore/src/time.rs:14-16 | seconds times 1000 is the milliseconds given |
| Times.ToMs | wcore/src/time.rs:22-24 | nearest whole millisecond, halves up; 0 for negative times; saturates at `u64::MAX` |
| Times.Add | wcore/src/time.rs:27-33 | seconds add |
| Times.Sub | wcore/src/time.rs:35-41 | seconds subtract |
| Times.Mul | wcore/src/time.rs:43-49 | seconds multiply |
| Times.Div | wcore/src/time.rs:51-57 | seconds divide (when the divisor is non-zero) |
| Times.FromMsToMs | wcore/src/time.rs:14-24 | every whole number of ms up to `u64::MAX` survives `from_ms` then `to_ms` |
| Times.FromSecondsRoundTrip | wcore/src/time.rs:10-20 | `from_seconds(x).to_seconds() == x` |
| Times.ToMsMonotone | wcore/src/time.rs:22-24 | a later time never projects to fewer milliseconds |
| Times.AddSubInverse | wcore/src/time.rs:27-41 | subtracting undoes adding; zero is neutral on both sides |
| Times.MulDivInverse | wcore/src/time.rs:43-57 | dividing by a non-zero time undoes multiplying by it |
| Times.OrderIsTotal | wcore/src/time.rs:2-3 | the derived order is the total order of the seconds; `<=` is the negation of the reversed `<` |
| Colors.Unit | wcore/src/color.rs:15-18 | `byte / 255` lies in [0, 1] and times 255 gives the byte back |
| Colors.New | wcore/src/color.rs:10-12 | the four components are stored unchanged |
| Colors.FromRgba | wcore/src/color.rs:14-20 | every component in [0, 1], and each is its byte over 255 |
| Colors.FromRgb | wcore/src/color.rs:22-27 | as `from_rgba` with alpha 255, so alpha is 1 |
| Colors.ToVector4 | wcore/src/color.rs:47-51 | components kept in the order r, g, b, a |
| Colors.FromHex | wcore/src/color.rs:30-35 | every component in [0, 1] and alpha 1 |
| Colors.FromHexAlpha | wcore/src/color.rs:38-44 | as written (red from `v >> 25`), every component in [0, 1] |
| Colors.PackRgba | wcore/src/color.rs:37 | the `0xRRGGBBAA` packing; no contract of its own, `PackedBytes` states where each byte sits |
| Colors.FromHexIsFromRgb | wcore/src/color.rs:22-35 | `from_hex(v)` is `from_rgb` of bytes 2, 1, 0 of `v`, and bits 24 to 31 do not matter |
| Colors.FromHexAlphaRedBound | wcore/src/color.rs:38-44 | as written, red is never above 127/255 |
| Colors.FromHexAlphaLosesRed | wcore/src/color.rs:37-44 | as written, packed `0xFF0000FF` does not come back as opaque full red |
| Colors.PackedBytes | wcore/src/color.rs:37-44 | in the documented `0xRRGGBBAA` format, each byte sits at shift 24, 16, 8 and 0 |
| Colors.FromHexAlphaIntendedRoundTrip | wcore/src/color.rs:37-44 | with red read at shift 24, unpacking a packed colour recovers its four bytes |
| Camera.Camera2D.constructor | wcore/src/graphics/camera.rs:33-42 | position, rotation and scale stored as given |
| Camera.Camera2D.SetPosition | wcore/src/graphics/camera.rs:50 | reads back the new position; scale and rotation unchanged |
| Camera.Camera2D.SetScale | wcore/src/graphics/camera.rs:51 | reads back the new scale; position and rotation unchanged |
| Camera.Camera2D.SetRotation | wcore/src/graphics/camera.rs:52 | reads back the new rotation; position and scale unchanged |
| Camera.Camera2D.SetX | wcore/src/graphics/camera.rs:57 | x reads back as set; y, z, scale and rotation unchanged |
| Camera.Camera2D.SetY | wcore/src/graphics/camera.rs:58 | y reads back as set; x, z, scale and rotation unchanged |
| Camera.Camera2D.SetZ | wcore/src/graphics/camera.rs:59 | z reads back as set; x, y, scale and rotation unchanged |
| Camera.ProjectionOrthographic.constructor | wcore/src/graphics/camera.rs:86-93 | width and height are the `u32` arguments as reals; znear and zfar as given |
| Camera.ProjectionOrthographic.Resize | wcore/src/graphics/camera.rs:97-100 | width and height replaced; znear and zfar unchanged |
| TaikoCircle.Toggle | apex-client/src/taiko/taiko_circle.rs:19-24 | toggling always changes the colour |
| TaikoCircle.ToggleInvolution | apex-client/src/taiko/taiko_circle.rs:19-24 | toggling twice restores the colour |
| TaikoCircle.ToggleSwaps | apex-client/src/taiko/taiko_circle.rs:19-24 | KAT becomes DON and DON becomes KAT |
| Model.Bake | apex-client/src/graphics/taiko/model.rs:43-50 | size_offset is (size.x, size.y, time); velocity kept; colour as r, g, b, a; finisher 1 iff set, else 0 |
| Model.BakeUnbake | apex-client/src/graphics/taiko/model.rs:43-50 | baking loses nothing: the record is recovered from its baked form |
| Model.BakeAll | apex-client/src/graphics/taiko/conveyor.rs:290 | one baked record per instance, each the bake of the instance at the same index |
| Parser.Lookup | apex-client/src/taiko/parser.rs:140 | `table[section][key]` is present exactly when both keys are |
| Parser.Insert | apex-client/src/taiko/parser.rs:126-129 | the inserted value reads back; every other (section, key) reads as before |
| Parser.BpmOf | apex-client/src/taiko/parser.rs:57 | `60 / (beat_length / 1000)`: bpm times beat length is 60000 |
| Parser.VelocityOf | apex-client/src/taiko/parser.rs:63 | `-100 / beat_length`: velocity times beat length is -100 |
| Parser.Finish | apex-client/src/taiko/parser.rs:140-159 | success iff Mode is "1" and AudioFilename exists; then the lists, multiplier 1.0 and that file name; any other present Mode is `Err` |
| Parser.TryParse | apex-client/src/taiko/parser.rs:31-160 | the loop over lines computes exactly `Parse(data)` |
| Parser.HeaderOnlyNamesSection | apex-client/src/taiko/parser.rs:41-45 | a line starting with `[` becomes the section verbatim and changes nothing else |
| Parser.KeyValueLine | apex-client/src/taiko/parser.rs:119-130 | `key:value[:more]` stores trimmed key → trimmed value; text after a second `:` is dropped |
| Parser.KeyValueStored | apex-client/src/taiko/parser.rs:119-130 | in a key/value section such a line stores that entry under the current section |
| Parser.LineWithoutColonIgnored | apex-client/src/taiko/parser.rs:122-124 | in a key/value section a line without `:` changes nothing |
| Parser.LaterDuplicateKeyWins | apex-client/src/taiko/parser.rs:126-129 | of two lines with the same key, the later value is kept |
| Parser.ParsedI32EndsInDigit | apex-client/src/taiko/parser.rs:52 | an accepted `i32` text ends in a digit |
| Parser.ParseTimingRow | apex-client/src/taiko/parser.rs:51-68 | a kept row has at least seven fields, and is a tempo point exactly when field 6 is "1" |
| Parser.ParseHitObject | apex-client/src/taiko/parser.rs:72-86 | a kept row has at least five fields; `HitObjectFields` states the rest |
| Parser.FeedTiming | apex-client/src/taiko/parser.rs:48-69 | a `[TimingPoints]` line adds at most one point, to one of the two lists, which stay extensions of the old; section, table and objects unchanged |
| Parser.FeedHitObject | apex-client/src/taiko/parser.rs:71-117 | fails only with a missing table entry, and with no `Mode` fails on it; otherwise adds at most one circle, none unless Mode is "1"; nothing else changes |
| Parser.FeedKeyValue | apex-client/src/taiko/parser.rs:119-130 | only the current section's entries can change; section and the three lists unchanged |
| Parser.Feed | apex-client/src/taiko/parser.rs:40-137 | fails only with a missing table entry; a header line becomes the section, any other line keeps it |
| Parser.FeedAll | apex-client/src/taiko/parser.rs:40-138 | the loop over lines fails only with a missing table entry (never `Unsupported`) |
| Parser.ParseLines | apex-client/src/taiko/parser.rs:31-160 | a parsed beatmap has velocity multiplier 1.0 |
| Parser.Parse | apex-client/src/taiko/parser.rs:31-160 | `try_parse`: a parsed beatmap has velocity multiplier 1.0; `ParseOfUnlines`, `ParseOfUnlinesCrlf` and `Finish` state the rest |
| Parser.TimingRowFields | apex-client/src/taiko/parser.rs:51-68 | a row is kept iff field 0 is an `i32`, field 1 an `f64` and field 6 exists; field 6 "1" gives a tempo point with `BpmOf`, otherwise a velocity point with `VelocityOf`, both at field 0 ms |
| Parser.TimingLine | apex-client/src/taiko/parser.rs:48-69 | in `[TimingPoints]` a kept row is appended to the tempo or velocity list; any other row changes nothing |
| Parser.KeptRowNotBlank | apex-client/src/taiko/parser.rs:49-53 | a row with an `i32` first field and a second field is never skipped as blank |
| Parser.HitObjectFields | apex-client/src/taiko/parser.rs:77-86 | a circle iff field 2 is an `f64` and field 4 a `u8`; time is field 2 ms; big iff field 4 is 4 or 6; DON iff 0 or 4 |
| Parser.FeedAppends | apex-client/src/taiko/parser.rs:47-117 | one line only appends to the three lists; under a Mode other than "1" no object is added |
| Parser.FeedAllAppends | apex-client/src/taiko/parser.rs:40-138 | what was read so far stays a prefix of each list, in file order |
| Parser.PreambleIgnored | apex-client/src/taiko/parser.rs:132-136 | lines before the first header have no effect on the state |
| Parser.ParseIgnoresPreamble | apex-client/src/taiko/parser.rs:132-136 | the parse result does not depend on lines before the first header |
| Parser.ParseOfUnlines | apex-client/src/taiko/parser.rs:40 | text made of lines ended by line feeds parses as those lines |
| Parser.ParseOfUnlinesCrlf | apex-client/src/taiko/parser.rs:40 | the same for lines ended by CR LF |
| Parser.UninheritedFieldNotInherited | apex-client/src/taiko/parser.rs:54-62 | a row whose field 6 is "1" never yields a velocity point |
| Parser.VelocityOnlyFromInheritedRows | apex-client/src/taiko/parser.rs:62-67 | lines without an inherited timing row leave the velocity list as it was |
| Parser.NoInheritedRowNoVelocity | apex-client/src/taiko/parser.rs:62-67 | a map without an inherited timing row parses with no velocity point |
| Settings.TaikoState.constructor | apex-client/src/layer/taiko.rs:30-45 | scale 0.8, offset 45, hit position (256, 256), zoom 1.0, the two colours, `force_rebuild` off, `hit_circles` on, no rebuild pending |
| Settings.TaikoState.EditZoom | apex-client/src/state.rs:63-66 | zoom set and a rebuild requested; every other setting unchanged |
| Settings.TaikoState.EditDonColor | apex-client/src/state.rs:76-79 | DON colour becomes `from_rgb` of the picked bytes and a rebuild is requested; the rest unchanged |
| Settings.TaikoState.EditKatColor | apex-client/src/state.rs:89-92 | KAT colour becomes `from_rgb` of the picked bytes and a rebuild is requested; the rest unchanged |
| Conveyor.StartCursor | apex-client/src/graphics/taiko/conveyor.rs:272 | the start index `len() - 1` exists exactly when there is a velocity point, and is then the last one |
| Conveyor.NoInheritedRowNoCursor | apex-client/src/graphics/taiko/conveyor.rs:272 | as written, a parsed map without an inherited timing row leaves the rebuild no start index |
| Conveyor.WithDefaultVelocity | apex-client/src/graphics/taiko/conveyor.rs:272-275 | the beatmap scrolled by always has a velocity point; objects and multiplier kept; a beatmap with points is used unchanged |
| Conveyor.DefaultVelocityIsBase | apex-client/src/graphics/taiko/conveyor.rs:272-286 | with the default, every circle of a beatmap without velocity points is built at velocity 1 |
| Conveyor.StopAt | apex-client/src/graphics/taiko/conveyor.rs:274 | the inner `while` stops at or before its start, at point 0 or at a point not after `t`, and every point it stepped past starts after `t` |
| Conveyor.SeekBack | apex-client/src/graphics/taiko/conveyor.rs:274 | the loop computes `StopAt` |
| Conveyor.CursorAfter | apex-client/src/graphics/taiko/conveyor.rs:272-274 | the cursor always indexes the velocity list |
| Conveyor.CursorNeverIncreases | apex-client/src/graphics/taiko/conveyor.rs:272-274 | walking more objects never moves the cursor forward |
| Conveyor.ActiveSegmentUnique | apex-client/src/graphics/taiko/conveyor.rs:272-275 | at most one segment is in force at any time |
| Conveyor.SearchFindsActiveSegment | apex-client/src/graphics/taiko/conveyor.rs:272-275 | a search from the last point finds the segment in force: the last point not after `t`, or point 0 |
| Conveyor.CursorFindsActiveSegment | apex-client/src/graphics/taiko/conveyor.rs:272-275 | with objects in time order, the shared cursor stands at each object's segment in force |
| Conveyor.CursorIsFreshSearch | apex-client/src/graphics/taiko/conveyor.rs:272-275 | with objects in time order, the incremental cursor equals a fresh search per object |
| Conveyor.InstanceFor | apex-client/src/graphics/taiko/conveyor.rs:277-287 | time is `to_ms * zoom * multiplier`; height 128 (×1.55 when big) and width times velocity equals height; KAT colour iff KAT, else DON; finisher iff big; velocity kept |
| Conveyor.Instances | apex-client/src/graphics/taiko/conveyor.rs:270-288 | one instance per object walked |
| Conveyor.InstanceOrder | apex-client/src/graphics/taiko/conveyor.rs:273-275 | instance `i` is built from object `n-1-i` at the cursor's velocity for it |
| Conveyor.InstanceVelocity | apex-client/src/graphics/taiko/conveyor.rs:272-286 | with objects in time order, instance `i` has the velocity of the segment in force at its object's time |
| Conveyor.BuildInstances | apex-client/src/graphics/taiko/conveyor.rs:269-288 | the nested loops compute `Instances` for all objects |
| Conveyor.Passed | apex-client/src/graphics/taiko/conveyor.rs:225 | `to_ms + audio_offset <= time_ms`; no contract of its own, `CullFrom` and `PassedCirclesAreBehind` use it |
| Conveyor.CullFrom | apex-client/src/graphics/taiko/conveyor.rs:223-229 | the cursor never moves back and stays within the objects; it stops at the end or at an object not yet passed; every object skipped has passed |
| Conveyor.PassedCount | apex-client/src/graphics/taiko/conveyor.rs:225 | the number of objects that have passed is at most their count |
| Conveyor.CullCountsPassed | apex-client/src/graphics/taiko/conveyor.rs:223-229 | with objects in time order, culling from 0 skips exactly the passed objects |
| Conveyor.ScrollDistance | apex-client/src/graphics/taiko/conveyor.rs:239 | instance time plus time offset is (object ms + audio offset - frame ms) × zoom × multiplier |
| Conveyor.TimeOffset | apex-client/src/graphics/taiko/conveyor.rs:239 | the time uniform; no contract of its own, `ScrollDistance` states what it measures |
| Conveyor.PassedCirclesAreBehind | apex-client/src/graphics/taiko/conveyor.rs:225-239 | with non-negative zoom and multiplier, a circle the cull loop skips is at or behind the hit position |
| Conveyor.DrawnCount | apex-client/src/graphics/taiko/conveyor.rs:266 | `instances - cull_back` is a count iff the cursor is within the instances, and then count plus cursor is the number of instances |
| Conveyor.Conveyor.constructor | apex-client/src/graphics/taiko/conveyor.rs:66-79 | no instances, cursor 0, camera at (0, 0, -50) with zero rotation and the device scale, projection sized to the surface with depth -100 to 100 |
| Conveyor.Conveyor.Rebuild | apex-client/src/graphics/taiko/conveyor.rs:269-290 | old instances discarded; the list becomes `Instances` of all objects, over `WithDefaultVelocity` of the beatmap, and its baked copy; cursor and time offset unchanged |
| Conveyor.Conveyor.Draw | apex-client/src/graphics/taiko/conveyor.rs:219-241 | rebuilds iff asked (over `WithDefaultVelocity`); the cull loop runs only with `hit_circles` on; camera scale and hit position set with z and rotation kept; time offset set; drawn count is `DrawnCount` |
| Playback.AsU32 | apex-client/src/layer/taiko.rs:116 | `as u32` is the value itself below 2^32 and is congruent to it modulo 2^32 |
| Playback.SyncClock.SetTime | apex-client/src/layer/taiko.rs:134 | clock time set; pause state and length unchanged |
| Playback.SyncClock.SetPaused | apex-client/src/layer/taiko.rs:125 | pause state set, time pinned to `now`; length unchanged |
| Playback.SyncClock.TogglePaused | apex-client/src/layer/taiko.rs:116 | pause state flipped, time pinned to `now`; length unchanged |
| Playback.SyncClock.SetLength | apex-client/src/layer/taiko.rs:96 | length set; time and pause state unchanged |
| Playback.Audio.constructor | apex-client/src/layer/taiko.rs:60 | nothing playing |
| Playback.Audio.Play | apex-client/src/view/window/file_dialog.rs:79 | playing, with the track's length |
| Playback.Audio.Stop | apex-client/src/layer/taiko.rs:99 | not playing; length and pause state unchanged |
| Playback.Audio.SetTime | apex-client/src/layer/taiko.rs:135 | position set; the rest unchanged |
| Playback.Audio.Pause | apex-client/src/layer/taiko.rs:117 | position, playing and length unchanged |
| Playback.Audio.SetPaused | apex-client/src/layer/taiko.rs:126 | pause state set; the rest unchanged |
| Layer.TaikoLayer.constructor | apex-client/src/layer/taiko.rs:58-67 | no beatmap, nothing playing, fresh devices and conveyor with no instances and cursor 0 |
| Layer.TaikoLayer.Draw | apex-client/src/layer/taiko.rs:71-78 | the flag is cleared even with nothing loaded; no beatmap leaves the conveyor untouched; otherwise the conveyor draws at the clock's time, rebuilding over `WithDefaultVelocity` iff the flag or `force_rebuild` was set; the baked buffer is `BakeAll` of the new instances after a rebuild and kept otherwise, the time offset is `TimeOffset` of the clock's time, and the camera takes scale `deviceScale * state.scale` and the hit position's x and y, with its z and rotation kept; from an in-sync state it stays in sync and never underflows |
| Layer.TaikoLayer.Resize | apex-client/src/layer/taiko.rs:80-83 | only the projection's width and height change |
| Layer.TaikoLayer.Scale | apex-client/src/layer/taiko.rs:85-88 | only the camera's scale changes, to (s, s, 1) |
| Layer.TaikoLayer.CloseBeatmap | apex-client/src/layer/taiko.rs:92-104 | no beatmap; clock at 0, paused, length 0; audio stopped at 0 |
| Layer.TaikoLayer.TogglePaused | apex-client/src/layer/taiko.rs:114-122 | pause flipped; at or past the clock length, rewinds clock, audio and cull cursor to 0, otherwise the clock is pinned at the audio's ms and the cursor kept; instances, baked data and time offset unchanged |
| Layer.TaikoLayer.SetPaused | apex-client/src/layer/taiko.rs:123-130 | clock and audio both take the value; the clock is pinned at the audio's ms |
| Layer.TaikoLayer.SetTime | apex-client/src/layer/taiko.rs:132-139 | clock and audio at `t`, cull cursor 0, `get_time` is `from_ms(t)`; instances, baked data and time offset unchanged |
| Layer.TaikoLayer.IsPaused | apex-client/src/layer/taiko.rs:128-130 | the clock's pause state; no contract of its own, `SetPaused` states it after a change |
| Layer.TaikoLayer.GetTime | apex-client/src/layer/taiko.rs:140-142 | the returned time projects back to the clock's ms |
| Layer.TaikoLayer.GetLength | apex-client/src/layer/taiko.rs:144-146 | the clock's length; no contract of its own, `OpenBeatmap` and `CloseBeatmap` state what it becomes |
| Layer.TaikoLayer.OpenBeatmap | apex-client/src/view/window/file_dialog.rs:72-87 | as written: beatmap stored, track playing, clock at 0 paused with the track length, rebuild requested, cull cursor left as it was |
| Layer.TaikoLayer.OpenBeatmapResetting | apex-client/src/view/window/file_dialog.rs:72-87 | the same with the cull cursor reset, which puts the layer in sync; instances, baked data and time offset unchanged |
| Layer.StaleCullCursor | apex-client/src/view/window/file_dialog.rs:82-87 | as written, culling 3 circles and then loading an empty beatmap makes the next frame's count underflow |
| Layer.FreshCullCursor | apex-client/src/view/window/file_dialog.rs:82-87 | with the reset, the same sequence draws 0 instances |

## Left out

- GPU work: textures, pipelines, buffers, uniforms, bind groups and render passes. The uploaded instance buffer is kept as the baked list, and the time uniform as the conveyor's `timeOffset`.
- Matrix maths: the `apply` functions of the camera, the projection and the scene.
- The window, event loop, GUI, archive loading, CLI parsing and audio decoding. Zoom and colour edits are modelled as the `TaikoState` edit methods; the loading steps after the archive is read are `OpenBeatmap`.
- Floating-point rounding: every float is a `real`.
- Float.Div: IEEE division by zero gives an infinity or NaN, which a `real` cannot hold; the model gives 0 instead.
- Text.ParseF64: accepts the decimal and exponent notation only, not the `inf`/`nan` spellings that Rust also accepts.
- The `version_string` of `try_parse` is written but never read, so it is not modelled.
- Mode "3" rows: the model keeps only the `CircleSize` lookup, whose panic is the one effect, because the rest of the branch parses fields and discards them.
- Conveyor.Passed: compares `to_ms` plus the audio offset over unbounded integers. The source casts the `u64` to `i64`, which would wrap above `i64::MAX` milliseconds.
- Conveyor.DrawnCount: an underflow is reported as `Underflow`. The source's `usize` subtraction panics in a debug build and wraps in a release build, and the count is then truncated to `u32`.
- Conveyor.Conveyor.constructor: the time offset starts at 0.0, taken as the initial value of the time uniform.
- Playback: the clock and audio implementations are not part of this model. The model takes only this from them:
  - the `now` argument of `set_paused`/`toggle_paused` is the time the clock is pinned to;
  - `Audio::pause` leaves the pause state to the device (unknown in the model);
  - `stop` and `play` leave the position to the device.
- Playback: the clock's own advance with wall time is not modelled; a frame reads `clock.time`. Audio positions are whole milliseconds, so `Duration`'s sub-millisecond part is dropped.
- `is_paused` and `get_length` are plain reads of the clock (`IsPaused`, `GetLength`).
- Conveyor.BuildInstances: requires a velocity point, as do `Instances` and `CursorAfter`; the rebuild always supplies one through `WithDefaultVelocity`, and the as-written failure is `StartCursor`.
- Conveyor.Conveyor.Rebuild: does not model the panic of a beatmap without velocity points; it rebuilds at the base velocity (see Findings).
- Conveyor.Conveyor.Draw: the same as `Rebuild` when it rebuilds.
- Layer.TaikoLayer.Draw: the same as `Rebuild` when it rebuilds.
- `timeline_move_forward` and `timeline_move_back` have empty bodies in the source.
- `Conveyor::new`'s textures and pipelines are not modelled; the constructor takes the surface size and device scale.

## Findings

| source | as written | input that shows it | evidently intended | confidence | as-written member | corrected member |
|---|---|---|---|---|---|---|
| wcore/src/color.rs:39 | `from_hex_alpha` reads red from `value >> 25` | `0xFF0000FF` (opaque red) yields red 127/255 | red from `value >> 24`, as the `0xRRGGBBAA` format comment states | high (not executed) | Colors.FromHexAlphaLosesRed | Colors.FromHexAlphaIntendedRoundTrip |
| apex-client/src/graphics/taiko/conveyor.rs:272-274 | the velocity cursor starts at `velocity.len() - 1` and indexes `velocity[idx]` | a map whose only timing row is `0,500,4,2,0,100,1,0` (uninherited) and with one hit object: no velocity point, so the subtraction panics (debug) or the index does (release) | scroll such a map at the base velocity, as an osu! map without inherited points does | medium (not executed) | Conveyor.NoInheritedRowNoCursor | Conveyor.DefaultVelocityIsBase |
| apex-client/src/view/window/file_dialog.rs:82-87 | loading a beatmap resets the clock but not the conveyor's `cull_back` | draw a 3-circle beatmap at 1000 ms (3 culled), then load a beatmap with no circles: `0 - 3` | reset `cull_back` with the clock, as `set_time` does "in case of rewind" | medium (not executed) | Layer.StaleCullCursor | Layer.TaikoLayer.OpenBeatmapResetting |
