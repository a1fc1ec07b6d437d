# js-raycaster core, modelled in Dafny

This project models the computational core of a browser raycaster written in TypeScript. The raycaster draws a first-person view of an 8x8 tile grid by marching one ray per column of six pixels. The model covers these parts, one Dafny module each:

- **MathExt** (`extension/math.ts`): `Math.clamp`, the single-wrap `Math.clampAngle` and the degree/radian conversions. π, `cos`, `sin` and `sqrt` are abstract constants. All the model knows is that π > 0 and cos(0) = 1.
- **Vectors** (`model/vector2.ts`):
  - the value type `Vec` holds the static operations, `dot`, `cross`, the squared length and squared distance, and the constant vectors;
  - the class `Vector2` holds the in-place mutators, `equals` and `clone`.
- **Colors** (`util/color.ts`): `Color.darken`. It models `parseInt(_, 16)` with its white-space, sign, `0x` and NaN rules, the floor scaling, the cap at 255 and the two-digit lower-case hex output.
- **Maps** (`controller/map.ts`): the `MapController` class with its grid field. It covers the fixed level, `init`/`destroy`, the bounds-checked `get` on floored coordinates (both overloads), `width`/`height`, the cell-size scaling and `getColor`.
- **Inputs** (`util/input.ts`): the `Input` class.
  - Key events are de-duplicated through an event buffer that holds one entry per code.
  - Held keys are kept in a list without duplicates, restricted to the game's key set.
  - The pointer position and its per-frame step are tracked, and there are reset operations.
- **Player** (`controller/player.ts`): the `PlayerController` class.
  - `init` puts the player at the centre of the map.
  - `update` runs its seven guarded blocks in source order. It is proved against a pure step function `Step`.
- **Frames** (`controller/frame.ts`): the `FrameController` class. It covers frame timing, the frames-per-second counter and the delay before the next frame.
- **Raycaster** (`main.ts`):
  - `castRay` is a fixed-step march of a cloned position. It is proved equal to a first-hit specification.
  - the fisheye correction;
  - the shade, wall height and slab geometry of `drawRayWall`;
  - the loop of `castRays`, which is proved to cast the fan of angles `start, clampAngle(start + gap), …` and to draw one column per ray.

Notes on what the code does:

- The only ray caster is a fixed-step marcher (`main.ts:97-115`). There is no DDA traversal.
- Leaving the grid counts as a hit: `get` returns `null` out of bounds, and `null != Blocks.Air` (`main.ts:108`, `map.ts:84-85`).
- `width` is `grid.length` and `height` is `grid[0].length` (`map.ts:91-97`). The lookup indexes `grid[floor(y)][floor(x)]`. This is consistent only because the level is square.
- `clampAngle` wraps once and lands in the closed range [0, 2π]. It keeps 2π and does not reduce a full modulo.
- `init` sets the angle to -π/2, which lies outside [0, 2π).
- There is no extra darkening for horizontal hits, and no pointer-delta decay: `resetAxis` zeroes the axis.

## Model

| member | source | states |
|---|---|---|
| MathExt.Clamp | src/scripts/extension/math.ts:3-5 | When min <= max the result lies in [min, max]. It is the value itself inside the range, min at or below it and max at or above it. When max < min, `Math.max` makes the result min. |
| MathExt.ClampMonotone | src/scripts/extension/math.ts:3-5 | Clamping is monotone in the clamped value. |
| MathExt.ClampAngle | src/scripts/extension/math.ts:7-15 | The result is the input, or the input plus or minus 2π. For inputs in [-2π, 4π] it lies in [0, 2π], and exactly 2π is kept. It is the identity on [0, 2π]. It wraps only once: an input below -2π stays negative, and one above 4π stays above 2π. |
| MathExt.ClampAngleIdempotent | src/scripts/extension/math.ts:7-15 | For inputs in [-2π, 4π], applying clampAngle twice is the same as applying it once. |
| MathExt.DegreesRadiansRoundTrip | src/scripts/extension/math.ts:17-23 | `toDegrees(toRadians(x)) == x` and `toRadians(toDegrees(x)) == x`. |
| MathExt.ToRadians | src/scripts/extension/math.ts:17-19 | No contract of its own; DegreesRadiansRoundTrip states that ToDegrees undoes it. |
| MathExt.ToDegrees | src/scripts/extension/math.ts:21-23 | No contract of its own; DegreesRadiansRoundTrip states that ToRadians undoes it. |
| Vectors.Vec.LengthSquared | src/scripts/model/vector2.ts:71-73 | The squared length is never negative. |
| Vectors.Vec.DistanceSquared | src/scripts/model/vector2.ts:47-49 | The squared distance is never negative, and is 0 between equal vectors. |
| Vectors.SubtractUndoesAdd | src/scripts/model/vector2.ts:16-27 | `(a + b) - b == a` and `(a - b) + b == a` for the static operations. |
| Vectors.DivideUndoesMultiply | src/scripts/model/vector2.ts:34-45 | Componentwise division by b undoes componentwise multiplication by b, when b has no zero component. |
| Vectors.DotCrossSymmetry | src/scripts/model/vector2.ts:59-65 | `dot` is symmetric, `cross` is antisymmetric, and `a.cross(a) == 0`. |
| Vectors.LengthSquaredIsDot | src/scripts/model/vector2.ts:71-73 | The squared length equals `a.dot(a)` and the squared distance to `zero()`. |
| Vectors.DistanceSquaredIsLengthOfDifference | src/scripts/model/vector2.ts:47-49 | The squared distance is the squared length of `subtract(a, b)`, and is symmetric. |
| Vectors.ConstantVectors | src/scripts/model/vector2.ts:88-110 | `zero` is the identity for add and `one` for multiply. `up`/`down` and `left`/`right` are opposite unit vectors, `up` is orthogonal to `right`, and `right + down == one` (y grows downwards). |
| Vectors.Vec.Add | src/scripts/model/vector2.ts:16-18 | No contract of its own; SubtractUndoesAdd (inverse of Subtract), ConstantVectors (Zero is its identity) and Vector2.Add (the in-place add agrees with it) state its properties. |
| Vectors.Vec.Subtract | src/scripts/model/vector2.ts:25-27 | No contract of its own; SubtractUndoesAdd and DistanceSquaredIsLengthOfDifference state its properties. |
| Vectors.Vec.Multiply | src/scripts/model/vector2.ts:34-36 | No contract of its own; DivideUndoesMultiply and ConstantVectors (One is its identity) state its properties. |
| Vectors.Vec.Divide | src/scripts/model/vector2.ts:43-45 | No contract of its own; DivideUndoesMultiply states that it undoes Multiply; it requires non-zero components (see Left out). |
| Vectors.Vec.Dot | src/scripts/model/vector2.ts:59-61 | No contract of its own; DotCrossSymmetry (symmetric) and LengthSquaredIsDot state its properties. |
| Vectors.Vec.Cross | src/scripts/model/vector2.ts:63-65 | No contract of its own; DotCrossSymmetry (antisymmetric, a×a = 0) states its properties. |
| Vectors.Vec.Distance | src/scripts/model/vector2.ts:51-53 | No contract of its own: the square root of DistanceSquared, whose contract and DistanceSquaredIsLengthOfDifference carry the properties; the square root itself is abstract. |
| Vectors.Vec.Zero | src/scripts/model/vector2.ts:88-90 | No contract of its own; ConstantVectors and LengthSquaredIsDot state its properties. |
| Vectors.Vec.One | src/scripts/model/vector2.ts:92-94 | No contract of its own; ConstantVectors states its properties. |
| Vectors.Vec.Up | src/scripts/model/vector2.ts:96-98 | No contract of its own; ConstantVectors states its properties. |
| Vectors.Vec.Down | src/scripts/model/vector2.ts:100-102 | No contract of its own; ConstantVectors states its properties. |
| Vectors.Vec.Left | src/scripts/model/vector2.ts:104-106 | No contract of its own; ConstantVectors states its properties. |
| Vectors.Vec.Right | src/scripts/model/vector2.ts:108-110 | No contract of its own; ConstantVectors states its properties. |
| Vectors.Vector2.constructor | src/scripts/model/vector2.ts:6-9 | The new object holds (x, y). |
| Vectors.Vector2.Add | src/scripts/model/vector2.ts:11-14 | After the in-place `a.add(b)`, a holds what the static `Vector2.add(a, b)` returns. Only a changes. |
| Vectors.Vector2.Subtract | src/scripts/model/vector2.ts:20-23 | In-place subtract agrees with the static subtract. |
| Vectors.Vector2.Multiply | src/scripts/model/vector2.ts:29-32 | In-place multiply agrees with the static multiply. |
| Vectors.Vector2.Divide | src/scripts/model/vector2.ts:38-41 | In-place divide agrees with the static divide. |
| Vectors.Vector2.Equals | src/scripts/model/vector2.ts:55-57 | True exactly when the two objects hold equal coordinates, whether or not they are the same object. |
| Vectors.Vector2.Clone | src/scripts/model/vector2.ts:80-82 | The clone is a new object that equals the original. |
| Vectors.AddToClone | src/scripts/model/vector2.ts:80-82 | Adding to a clone leaves the original's value unchanged. The clone holds the original plus the addend. |
| Colors.Substring | src/scripts/util/color.ts:4-6 | `substring(start, end)` of a string at least `end` long is the slice `[start, end)`. |
| Colors.Scale | src/scripts/util/color.ts:8-14 | A channel after scaling and capping is at most 255. A NaN channel becomes 255. A non-negative channel darkened by an amount in [0, 100] stays in [0, channel]. |
| Colors.ScaledWithin | src/scripts/util/color.ts:8-10 | `floor(c * (100 - amount) / 100)` lies in [0, c] for c >= 0 and amount in [0, 100]. |
| Colors.ScaledMonotone | src/scripts/util/color.ts:8-10 | A larger amount never gives a larger scaled channel. |
| Colors.ScaledEnds | src/scripts/util/color.ts:8-10 | An amount of 0 keeps the channel, and 100 gives 0. |
| Colors.FormatByte | src/scripts/util/color.ts:16-18 | `toString(16)` zero-padded to two characters is the byte's two lower-case hex digits. |
| Colors.ParseTwoDigits | src/scripts/util/color.ts:4-6 | `parseInt(_, 16)` of two hex digits is 16 times the first digit plus the second. |
| Colors.ByteRoundTrip | src/scripts/util/color.ts:16-18 | Parsing the two digits written for a byte gives the byte back. |
| Colors.FormatChannel | src/scripts/util/color.ts:16-18 | A channel in [0, 255] is written as exactly two lower-case hex digits that parse back to it. |
| Colors.WellFormedChannel | src/scripts/util/color.ts:4-6 | The three channels are read from the digit pairs at positions 1–2, 3–4 and 5–6. |
| Colors.ReadFormattedBytes | src/scripts/util/color.ts:4-6 | Reading channel i of `"#" + RR + GG + BB` gives back byte i. |
| Colors.DarkenOfChannels | src/scripts/util/color.ts:16-20 | With byte channels r, g and b, the result is `"#"` followed by their two-digit forms. |
| Colors.DarkenBytes | src/scripts/util/color.ts:16-20 | When every computed channel is a byte, darken returns `"#"` and the three formatted bytes. |
| Colors.DarkenRoundTrip | src/scripts/util/color.ts:3-21 | Parsing a channel of the darkened colour back yields exactly the computed channel value. |
| Colors.DarkenIsLowerHex | src/scripts/util/color.ts:16-20 | When the channels are bytes, the result is `"#"` followed by six lower-case hex digits. |
| Colors.WellFormedChannelsAreBytes | src/scripts/util/color.ts:8-14 | A colour with six hex digits after its first character, darkened by an amount in [0, 100], has three channels in [0, 255]. |
| Colors.DarkenFormat | src/scripts/util/color.ts:3-21 | Darkening such a colour by an amount in [0, 100] yields `"#"` and six lower-case hex digits. |
| Colors.ByteOfDigits | src/scripts/util/color.ts:16-18 | A byte read from two hex digits is written back as the same digits in lower case. |
| Colors.ChannelByZero | src/scripts/util/color.ts:8-14 | Darkening by 0 keeps each channel's value. |
| Colors.DarkenByZero | src/scripts/util/color.ts:3-21 | `darken(c, 0)` is `"#"` followed by c's six digits in lower case. |
| Colors.DarkenByHundred | src/scripts/util/color.ts:3-21 | `darken(c, 100)` is `"#000000"`. |
| Colors.DarkenMonotone | src/scripts/util/color.ts:8-14 | For 0 <= a <= b <= 100, each channel of `darken(c, b)` is at most that of `darken(c, a)`, which is at most the input channel. |
| Colors.ShortColorIsWhite | src/scripts/util/color.ts:4-14 | In a colour of at most one character every channel parses to NaN, and the result is `"#ffffff"` for any amount. |
| Colors.Darken | src/scripts/util/color.ts:3-21 | No contract of its own; DarkenFormat, DarkenRoundTrip, DarkenIsLowerHex, DarkenMonotone, DarkenByZero, DarkenByHundred and ShortColorIsWhite state its properties. |
| Colors.ParseHex | src/scripts/util/color.ts:4-6 | No contract of its own; ParseTwoDigits, ByteRoundTrip and ShortColorIsWhite (an empty string is NaN) state its properties. |
| Colors.ReadChannel | src/scripts/util/color.ts:4-6 | No contract of its own; WellFormedChannel, ReadFormattedBytes and DarkenRoundTrip state its properties. |
| Colors.Scaled | src/scripts/util/color.ts:8-10 | No contract of its own; ScaledWithin, ScaledMonotone and ScaledEnds state its properties. |
| Colors.Channel | src/scripts/util/color.ts:4-14 | No contract of its own; ChannelByZero, WellFormedChannelsAreBytes and DarkenMonotone state its properties. |
| Colors.ToHex | src/scripts/util/color.ts:16-18 | No contract of its own; FormatByte and FormatChannel state its properties. |
| Colors.Pad | src/scripts/util/color.ts:16-18 | No contract of its own; FormatByte and FormatChannel state its properties. |
| Maps.LevelShape | src/scripts/controller/map.ts:13-22 | The level is an 8x8 square. Rows 0 and 7 and columns 0 and 7 are solid, and cell (4, 4) is air. |
| Maps.PaletteDistinguishesBlocks | src/scripts/controller/map.ts:51-61 | Air and solid blocks get different fills and different strokes. |
| Maps.MapController.constructor | src/scripts/controller/map.ts:9 | A new controller holds no grid. |
| Maps.MapController.Init | src/scripts/controller/map.ts:11-23 | Installs the fixed level, which leaves the controller ready for lookups. |
| Maps.MapController.Destroy | src/scripts/controller/map.ts:25-27 | Releases the grid. |
| Maps.MapController.Get | src/scripts/controller/map.ts:84-88 | Returns null exactly when x < 0, x >= width, y < 0 or y >= height. Otherwise it returns `grid[floor(y)][floor(x)]`, so rows are indexed by y. |
| Maps.MapController.GetAt | src/scripts/controller/map.ts:78-82 | The vector overload is the coordinate overload applied to (v.x, v.y). |
| Maps.MapController.GetCellWidth | src/scripts/controller/map.ts:63-65 | width cells of the result span the canvas width. |
| Maps.MapController.GetCellHeight | src/scripts/controller/map.ts:67-69 | height cells of the result span the canvas height. |
| Maps.MapController.GetCellSize | src/scripts/controller/map.ts:71-76 | Returns a new vector (canvas.width / width, canvas.height / height). |
| Maps.SquareDimensions | src/scripts/controller/map.ts:91-97 | On a square grid, `width` (the number of rows) equals `height` (the length of the first row). |
| Maps.LevelBorderIsSolid | src/scripts/controller/map.ts:13-22 | On the installed level, `get` at any point of the outer ring of cells is solid. |
| Maps.Level | src/scripts/controller/map.ts:13-22 | No contract of its own; LevelShape and LevelBorderIsSolid state its properties. |
| Maps.GetColor | src/scripts/controller/map.ts:51-61 | No contract of its own; PaletteDistinguishesBlocks states its properties. |
| Maps.MapController.Width | src/scripts/controller/map.ts:91-93 | No contract of its own; SquareDimensions, GetCellWidth and Get (its bound on x) state its properties. |
| Maps.MapController.Height | src/scripts/controller/map.ts:95-97 | No contract of its own; SquareDimensions, GetCellHeight and Get (its bound on y) state its properties. |
| Inputs.NormalizedCodeJoinsSides | src/scripts/util/input.ts:34-35 | Shift, Control and Alt events are filed under `event.key`, so both sides share one code. Every other event is filed under `event.code`. |
| Inputs.IndexOf | src/scripts/util/input.ts:56-60 | `indexOf` is -1 exactly when the element is absent. Otherwise it is the first position holding the element. |
| Inputs.RepeatedEventIgnored | src/scripts/util/input.ts:41-45 | An event whose type equals the buffered type for its code is dropped, and the buffer is unchanged. |
| Inputs.BufferAfterOneEntryPerCode | src/scripts/util/input.ts:41-53 | The buffer keeps one entry per code. Afterwards the entry for the code holds the new type and all other entries are untouched. |
| Inputs.RemoveAtDistinct | src/scripts/util/input.ts:65-67 | Splicing one element out of a duplicate-free list removes it, keeps every other element and keeps the list duplicate-free. |
| Inputs.PressedAfterProperties | src/scripts/util/input.ts:56-71 | Held keys stay duplicate-free and within the key set, and a code outside the key set changes nothing. After keyup the code is not held and after keydown it is. No other key changes. |
| Inputs.Input.constructor | src/scripts/util/input.ts:6-13 | Nothing held, nothing buffered, and pointer and axis at zero. The invariant holds. |
| Inputs.Input.OnKey | src/scripts/util/input.ts:32-72 | Keeps the invariant. The buffer becomes its update for the normalised code. The held keys change as specified only when the event was not a repeat, and the pointer is untouched. |
| Inputs.Input.IsKeyDown | src/scripts/util/input.ts:74-76 | True exactly when the key is held. |
| Inputs.Input.IsAnyKeyDown | src/scripts/util/input.ts:78-80 | True exactly when some key is held. |
| Inputs.Input.ResetKey | src/scripts/util/input.ts:82-85 | The key is no longer held and every other key keeps its state. The buffer and pointer are untouched. |
| Inputs.Input.ResetAllKeys | src/scripts/util/input.ts:87-89 | No key is held. The buffer and pointer are untouched. |
| Inputs.Input.OnMouseMove | src/scripts/util/input.ts:93-99 | The axis becomes the new position minus the old one, and the pointer becomes the new position. So old position plus axis is the new position. |
| Inputs.Input.ResetAxis | src/scripts/util/input.ts:101-103 | The axis is exactly (0, 0), and nothing else changes. |
| Inputs.OnKeyIdempotent | src/scripts/util/input.ts:41-53 | Delivering the same event twice has the effect of delivering it once: the second copy is not accepted. |
| Inputs.NormalizedCode | src/scripts/util/input.ts:34-35 | No contract of its own; NormalizedCodeJoinsSides states its properties. |
| Inputs.BufferAfter | src/scripts/util/input.ts:41-53 | No contract of its own; RepeatedEventIgnored, BufferAfterOneEntryPerCode and OnKeyIdempotent state its properties. |
| Inputs.PressedAfter | src/scripts/util/input.ts:56-71 | No contract of its own; PressedAfterProperties states its properties. |
| Inputs.RemoveAt | src/scripts/util/input.ts:65-67 | No contract of its own; RemoveAtDistinct states its properties. |
| Player.SpeedMultiplier | src/scripts/controller/player.ts:31-33 | The multiplier is 2.5 while Shift is held and 1 otherwise. |
| Player.PlayerController.constructor | src/scripts/controller/player.ts:10-17 | The field initialisers: position (0, 0) and angle 0. |
| Player.PlayerController.Init | src/scripts/controller/player.ts:20-24 | A new position (width/2, height/2) and angle -π/2. |
| Player.PlayerController.Update | src/scripts/controller/player.ts:30-72 | The new pose is `Step` of the old pose, the held keys, the pointer's x step and the frame time. `Step` runs the pointer turn and the A, left, D, right, forward and back blocks in that order. |
| Player.PlayerController.TurnByPointer | src/scripts/controller/player.ts:37-41 | With a non-zero pointer step, the angle becomes `clampAngle(angle + axis.x * (w / 4) * dt)`. |
| Player.PlayerController.StrafeLeftBy | src/scripts/controller/player.ts:43-46 | Moves by `(cos, sin)(angle - π/2) * v * dt`. The angle is unchanged. |
| Player.PlayerController.TurnLeftBy | src/scripts/controller/player.ts:48-51 | Turns by `-w * dt`, adding one turn when the angle drops below 0. |
| Player.PlayerController.StrafeRightBy | src/scripts/controller/player.ts:53-56 | Moves by `-(cos, sin)(angle - π/2) * v * dt`. |
| Player.PlayerController.TurnRightBy | src/scripts/controller/player.ts:58-61 | Turns by `w * dt`, removing one turn when the angle reaches 2π. |
| Player.PlayerController.ForwardBy | src/scripts/controller/player.ts:63-66 | Moves by `v * (cos, sin)(angle) * dt`. |
| Player.PlayerController.BackBy | src/scripts/controller/player.ts:68-71 | Moves by `-v * (cos, sin)(angle) * dt`. |
| Player.StepStages | src/scripts/controller/player.ts:30-72 | The poses after the seven guarded blocks, taken in order, compose to `Step`. |
| Player.IdleStep | src/scripts/controller/player.ts:37-71 | With no key held and no pointer step, an update changes nothing. |
| Player.MovementKeepsAngle | src/scripts/controller/player.ts:43-71 | Without the arrow turn keys and the pointer, the angle does not change. |
| Player.RotationKeepsPosition | src/scripts/controller/player.ts:43-71 | Without movement keys, the position does not change. |
| Player.ForwardBackCancel | src/scripts/controller/player.ts:63-71 | Forward followed by back at the same angle returns to the start. |
| Player.StrafeCancel | src/scripts/controller/player.ts:43-56 | Strafing left then right at the same angle returns to the start. |
| Player.OpposedKeysCancel | src/scripts/controller/player.ts:43-71 | Holding A, D, W and S together, with no turn, leaves the pose unchanged. |
| Player.BlockScale | src/scripts/controller/player.ts:31-71 | Each guarded block run with both speeds multiplied by k over dt acts exactly as the same block over k·dt at the base speeds, with Shift taken out of the held keys. |
| Player.StagesScale | src/scripts/controller/player.ts:31-71 | The seven blocks in source order, with both speeds multiplied by k over dt, act exactly as the same blocks at the base speeds over k·dt, with Shift taken out of the held keys. |
| Player.SprintIsLongerFrame | src/scripts/controller/player.ts:31-72 | With Shift held, an update (pointer turn included) equals the update without Shift over a frame 2.5 times as long, whatever other keys are held. |
| Player.TurnLeftStaysInRange | src/scripts/controller/player.ts:48-51 | The left arrow keeps an angle in [0, 2π) within it, for a turn of at most 2π. |
| Player.TurnRightStaysInRange | src/scripts/controller/player.ts:58-61 | The right arrow keeps an angle in [0, 2π) within it, for a turn of at most 2π. |
| Player.LookStaysInRange | src/scripts/controller/player.ts:37-41 | A pointer turn of at most one revolution from an angle in [0, 2π] lands in [0, 2π]. It never moves the player. |
| Player.Step | src/scripts/controller/player.ts:30-72 | No contract of its own; StepStages, IdleStep, MovementKeepsAngle, RotationKeepsPosition, OpposedKeysCancel and SprintIsLongerFrame state its properties, and PlayerController.Update is proved against it. |
| Player.Stages | src/scripts/controller/player.ts:37-71 | No contract of its own; StagesScale states its properties. |
| Player.Guarded | src/scripts/controller/player.ts:37-71 | No contract of its own; BlockScale states its properties. |
| Player.Look | src/scripts/controller/player.ts:37-41 | No contract of its own; LookStaysInRange and LookScale state its properties. |
| Player.StrafeLeft | src/scripts/controller/player.ts:43-46 | No contract of its own; StrafeCancel and MoveScale state its properties. |
| Player.TurnLeft | src/scripts/controller/player.ts:48-51 | No contract of its own; TurnLeftStaysInRange and TurnScale state its properties. |
| Player.StrafeRight | src/scripts/controller/player.ts:53-56 | No contract of its own; StrafeCancel and MoveScale state its properties. |
| Player.TurnRight | src/scripts/controller/player.ts:58-61 | No contract of its own; TurnRightStaysInRange and TurnScale state its properties. |
| Player.Forward | src/scripts/controller/player.ts:63-66 | No contract of its own; ForwardBackCancel and MoveScale state its properties. |
| Player.Back | src/scripts/controller/player.ts:68-71 | No contract of its own; ForwardBackCancel and MoveScale state its properties. |
| Player.LookScale | src/scripts/controller/player.ts:37-41 | A pointer turn at angular speed w·k over dt equals the turn at w over k·dt. |
| Player.MoveScale | src/scripts/controller/player.ts:43-71 | Each of the four moves at speed v·k over dt equals the move at v over k·dt. |
| Player.TurnScale | src/scripts/controller/player.ts:48-61 | Each arrow turn at angular speed w·k over dt equals the turn at w over k·dt. |
| Frames.FrameController.constructor | src/scripts/controller/frame.ts:19-26 | deltaTime is `targetFrameTime / 1000` (= 1/60). The start and last frame times are both the given time, and the counter is zero. |
| Frames.FrameController.StartFrame | src/scripts/controller/frame.ts:28-41 | Stamps the start, sets `deltaTime = (now - lastFrameTime) / 1000` and advances the FPS counter by `CountFrame`. |
| Frames.CountFrameInvariant | src/scripts/controller/frame.ts:34-40 | A timer in [0, 1) stays in [0, 1) after a frame of at most a second. The frame either increments the count, or publishes count + 1 as fps and resets the count to 0. |
| Frames.CountsFramesWithinSecond | src/scripts/controller/frame.ts:34-40 | Frames whose durations total less than the rest of the second are all counted, the timer advances by their sum, and fps is unchanged. |
| Frames.FrameController.CalculateNextTimeDelay | src/scripts/controller/frame.ts:72-75 | An integer in [0, 16] (= floor(1000/60)). It is 0 once the elapsed time reaches the frame budget, and otherwise the floor of what is left of it. |
| Frames.FrameController.EndFrame | src/scripts/controller/frame.ts:43-46 | Stamps `lastFrameTime` first, then returns the delay computed from the new stamp. |
| Frames.Abs | src/scripts/controller/frame.ts:73 | `Math.abs` is non-negative and is x or -x. |
| Frames.CountFrame | src/scripts/controller/frame.ts:34-40 | No contract of its own; CountFrameInvariant and CountsFramesWithinSecond state its properties, and FrameController.StartFrame is proved against it. |
| Raycaster.SampleClosedForm | src/scripts/main.ts:104-106 | The k-th sample of the march is `origin + k * direction`. |
| Raycaster.FirstStop | src/scripts/main.ts:104-111 | The first step in [k, last] whose sample is not air; every earlier step is air. It is last + 1 when there is no such step. |
| Raycaster.CastIsFirstHit | src/scripts/main.ts:97-115 | A hit is the first of the samples 1 .. 20·precision whose cell is not air, carrying its distance from the player, and all earlier samples are air. No hit means every sample was air. |
| Raycaster.OutsideStops | src/scripts/main.ts:107-108 | A sample outside the grid stops the ray, because `get` gives null and null is not air. |
| Raycaster.MarchStep | src/scripts/main.ts:104-111 | One more step adds the direction. It is the first hit if its cell is not air, and otherwise the first hit lies further on. |
| Raycaster.CastRay | src/scripts/main.ts:97-115 | `castRay` returns exactly the first-hit specification `Cast`. It marches a clone, so the player's position is unchanged. |
| Raycaster.FishEyeCentralRay | src/scripts/main.ts:142-145 | The correction keeps the hit position and leaves the distance of a ray at the player's own angle unchanged, since cos(0) = 1. |
| Raycaster.MaxDistance | src/scripts/main.ts:127 | The maximum shade distance, 2π, is positive. |
| Raycaster.Shade | src/scripts/main.ts:137 | The shade lies in [13.5, 90] for every distance. |
| Raycaster.ShadeMonotone | src/scripts/main.ts:127-137 | A farther wall is never shaded lighter, and from 2π on the shade is 90. |
| Raycaster.WallHeightDecreasing | src/scripts/main.ts:131 | `(canvas.height / 2) / distance` is positive and strictly decreasing in a positive distance. |
| Raycaster.WallColumnVertical | src/scripts/main.ts:131-139 | The slab is centred on the canvas's middle row and is the wall height plus one pixel above and below. |
| Raycaster.WallColumnHorizontal | src/scripts/main.ts:128-139 | The slab is `width / rayCount` plus one pixel of padding wide, and slab i + 1 starts one ray width after slab i. |
| Raycaster.WallColumnColor | src/scripts/main.ts:137-138 | The fill is `darken("#ff4757", shade)`, a `"#rrggbb"` lower-case colour. |
| Raycaster.RayCount | src/scripts/main.ts:162-169 | The loop `for (i = 0; i < count; i++)` runs ceil(count) times for count > 0 and not at all otherwise. |
| Raycaster.RayAngles | src/scripts/main.ts:165-178 | The fan has n angles, and the first is the start angle. |
| Raycaster.RayAnglesNext | src/scripts/main.ts:178 | Each later angle is `clampAngle(previous + gap)`. |
| Raycaster.RayAnglesInRange | src/scripts/main.ts:178 | With a gap of at most 2π and the first step within one turn of [0, 2π], every angle after the first lies in [0, 2π]. |
| Raycaster.Columns | src/scripts/main.ts:169-177 | One column per ray angle. |
| Raycaster.ColumnsAppend | src/scripts/main.ts:169-177 | Casting one more ray appends exactly its column. |
| Raycaster.ColumnsAt | src/scripts/main.ts:169-177 | Column k is the corrected, drawn hit of ray k, or nothing when ray k hits nothing. |
| Raycaster.CastColumn | src/scripts/main.ts:170-176 | One loop body: cast, correct for fisheye, and build the slab, exactly as `Column` specifies. |
| Raycaster.CastRays | src/scripts/main.ts:159-180 | Casts `RayCount(width / 6)` rays. Their angles are the fan from `angle - fov/2` stepping by `fov / count`, and their columns are `Columns` of those angles. |
| Raycaster.FanStep | src/scripts/main.ts:169-179 | One round of the loop keeps "angles cast so far followed by the angles to come make up the fan, with one column per angle cast". |
| Raycaster.Cast | src/scripts/main.ts:97-115 | No contract of its own; CastIsFirstHit and OutsideStops state its properties, and CastRay is proved equal to it. |
| Raycaster.CompensateFishEye | src/scripts/main.ts:142-145 | No contract of its own; FishEyeCentralRay states its properties. |
| Raycaster.WallHeight | src/scripts/main.ts:131 | No contract of its own; WallHeightDecreasing states its properties. |
| Raycaster.DrawRayWall | src/scripts/main.ts:125-140 | No contract of its own; WallColumnVertical, WallColumnHorizontal and WallColumnColor state its properties. |
| Raycaster.Column | src/scripts/main.ts:170-176 | No contract of its own (a cast, then the fisheye correction, then DrawRayWall, or nothing without a hit); ColumnsAt places it as column k of the fan, and CastColumn is proved equal to it. |

## Left out

- Drawing and the DOM are not modelled. This covers `fillRect`/`fillStyle`, `drawRayMinimap`, `drawCeilingAndFloor`, `map.draw`, `player.renderMinimap`, `frame.renderFPSCounter` and the canvas widgets. These are side effects on a canvas with no result to state. Column geometry and colour are returned as `Slab` values instead.
- Browser wiring is not modelled: the `Main` constructor, window set-up, resize and unload handlers, `requestAnimationFrame`/`setTimeout` scheduling, and listener registration in `Input.init`/`destroy`.
- `performance.now()`, event objects and the canvas size are inputs. They are method parameters.
- Colors.Substring: strings are sequences of Unicode scalar values, while JavaScript's `substring` counts UTF-16 code units. A colour holding a character outside the Basic Multilingual Plane before position 7 is read at other offsets than in JavaScript. `Colors.WellFormed` therefore asks for a first character inside that plane; the lemmas about other strings use scalar-value positions.
- Numbers are modelled as reals. Floating-point rounding, Infinity and NaN are not modelled, except the NaN that `parseInt` yields. `Math.PI`, `Math.cos`, `Math.sin` and `Math.sqrt` are abstract. The model knows only π > 0 and cos(0) = 1.
- `Vector2.length`, `normalize` and `toString` are not modelled: they go through the abstract square root or through number formatting.
- Vectors.Vector2.Divide: requires non-zero components of the divisor. The static divide requires the same. JavaScript's Infinity/NaN results are not modelled.
- Maps.MapController.Get: requires a square grid. `width` and `height` are the row count and the first row's length, and the fixed level is square. Lookups on a non-square grid, which can read `undefined` in JavaScript, are not modelled.
- Inputs.Input.OnKey: requires the class invariant. It holds from construction: one buffer entry per code, and held keys distinct and in the key set. The `Keys` enum is modelled as a set of codes fixed at construction.
- Player.PlayerController.Update: the held keys are a set of an enumerated `Key` type. The pointer's x step and the frame time are parameters instead of reads of `Input` and `main.frame`. Each guarded block is a small method. There is no collision with walls, as in the source.
- Player.PlayerController.Init: takes the map controller rather than `Main` and requires a grid to be installed. `main.map.width` needs one.
- Raycaster.CastRay: requires precision > 0. The only caller passes 64. With 0, the source divides by zero and casts no step.
- Raycaster.CompensateFishEye: the source multiplies `hit.distance` in place. The model returns the updated hit record. The record is created by `castRay` and used only by its caller, so no other reference sees the change.
- Raycaster.DrawRayWall: requires a non-zero distance. In JavaScript a zero distance gives a wall of infinite height. `Raycaster.Column` draws nothing for it.
- Raycaster.CastRays: when `count` is 0 the gap is taken as 0 instead of JavaScript's Infinity. No ray is cast then, so the gap is never used. The `getCellSize` call and the minimap line are drawing and are left out. The method returns the angles and columns it would draw.
- The commented-out draft caster in `main.ts`, `extension/window.ts` (type declarations only), `model/ray-hit.ts` (unused) and `gulpfile.js` are not part of this model.
