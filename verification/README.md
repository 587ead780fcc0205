# mb-metaverse loader: a Dafny model

This project models the decision logic inside `src/Loader.js` of mb-metaverse.
That file builds a terraced circular island out of three jittered ring
outlines (grass, dirt, stone), lights it, places the camera, and lets the
viewer move the camera up and down and turn the island with the keyboard. It
also holds the block palette that turns integer type and rotation codes into
primitive solids.

The model is functional. Every operation is a pure function over small
datatypes. JavaScript numbers become Dafny `real`s, and no claim depends on
floating-point rounding.

- `Palette` (`palette.dfy`): `setBaseMesh` and `setMeshRotation`. Both are
  total maps from an integer code to a `Shape` or a `Rotation`. Each has a
  decoder back to the code, and round-trip lemmas connect the two.
- `Controls` (`controls.dfy`): the key handlers `OnKeyDown_` and `OnKeyUp_`
  act on a four-flag `KeyState`. Their contracts say which flag each code sets
  or clears. A replay lemma shows that the latest relevant event decides each
  flag.
- `Locomotion` (`locomotion.dfy`): `updateCamera` as a step function over a
  `Velocity` pair. Run lemmas cover sequences of frames: how far a velocity
  can go past its clamp under a clock that never runs backwards, and the
  geometric decay, which never reaches zero, once every key is released.
- `Island` (`island.dfy`): `returnRandomPointOnCircle`, `drawIslandSegment`
  and the 24-step loop of `createIsland`. The loop is a method whose
  invariants show that each outline traces its layer's 24 points; by
  `TracedCounts` that is one move followed by 24 lines. The
  lemmas prove the per-angle nesting of the three rings, and one record gives
  the extrusion arguments of each layer.
- `Staging` (`staging.dfy`): the position and intensity formulas of
  `addLights` and `addCamera`, with their inverses, and the concrete staging
  that `createIsland` uses.
- `Common` (`common.dfy`): `Option` and `Abs`. `RealArith` (`realarith.dfy`)
  holds small order facts about real products that the island proofs use.

Inputs the source takes from its environment are parameters here:

- Each of the 24 angles gets a `Sample` holding its sine, its cosine and the
  six `Math.random()` draws it consumes. x and y use separate draws.
- `Math.sqrt` is a `real -> real` argument. Lemmas that need its meaning
  require `IsSqrt`.
- The sine and cosine are required only to satisfy `sin^2 + cos^2 = 1`.
- `elapsedTime` is an argument of every frame.

`returnRandomPointOnCircle` reads the global loop variable `a` rather than its
`angle` parameter. The two are always equal at its only call sites, so the
model passes the sample for the current angle.

The model follows the code in these details:

- Each frame's acceleration is scaled by `clock.getElapsedTime()`, the total
  time since the clock started (src/Loader.js:505), not by the time since the
  previous frame. `Locomotion` takes the value as given and assumes nothing
  about it beyond the clock never running backwards (`ClockFrom`). The run
  lemmas show that the overshoot past a clamp grows with that reading.
- The clamp is tested before the increment is added, so holding a key does
  not cap the velocity at its clamp: a vertical velocity of exactly 0.5 goes
  to 0.5 + 0.0005 t for any elapsed time t > 0 (`ClampIsNotACeiling`).
- `setBaseMesh` has no case 6, so code 6, like every code outside 0..5,
  gives the empty box.
- `returnRandomPointOnCircle` jitters x and y with separate draws, so a
  sample's realised distance lies in `[radius, radius + variance)`
  (`DistanceBounds`) but is not the radius of one draw.

## Model

| member | source | states |
|---|---|---|
| Palette.BaseMesh | src/Loader.js:237-254 | every integer resolves to a shape; the shape has volume exactly when the code is 0..5, and every other code (6, negatives) gives the zero-size box |
| Palette.ShapeCode | src/Loader.js:237-254 | a descriptor decodes to a code only if that palette code produces it; no palette code produces an undecodable descriptor |
| Palette.ShapeCodeRoundTrip | src/Loader.js:237-254 | decoding the shape of a palette code returns that code; the placeholder decodes to nothing |
| Palette.BaseMeshInjective | src/Loader.js:237-254 | two codes give the same shape exactly when they are equal or both fall back to the placeholder |
| Palette.MeshRotation | src/Loader.js:257-278 | every code yields a quarter turn (angle 1.570796 either way); codes 0/1 turn about X and 2/3 about Y; the turn is positive exactly for codes 0, 2 and 4; every code outside 0..4 turns -1.570796 about Z |
| Palette.RotationCode | src/Loader.js:257-278 | a rotation decodes to a code in 0..5 that produces it, or to nothing when no code does |
| Palette.RotationCodeRoundTrip | src/Loader.js:257-278 | codes 0..5 round-trip through their rotation; every other code decodes as the default 5 |
| Palette.PairedCodesAreInverse | src/Loader.js:259-276 | codes 0/1, 2/3 and 4/5 share an axis and undo each other; 0, 2 and 4 turn +1.570796 about X, Y and Z respectively |
| Controls.OnKeyDown | src/Loader.js:360-379 | after a key-down, a direction is held exactly when the code is bound to it (38/87 forward, 37/65 left, 40/83 backward, 39/68 right) or it was held before |
| Controls.OnKeyUp | src/Loader.js:381-400 | after a key-up, a direction is held exactly when it was held before and the code is not bound to it |
| Controls.CodesDisjoint | src/Loader.js:360-400 | no key code selects two directions, so a handler changes at most one flag |
| Controls.UnboundKeyIgnored | src/Loader.js:360-400 | any code outside the eight bound codes leaves the state unchanged on press and on release |
| Controls.PressThenRelease | src/Loader.js:360-400 | pressing and then releasing a key equals just releasing it; a repeated press changes nothing; from all keys up, press then release restores the state |
| Controls.ReplayLastEventWins | src/Loader.js:355-400 | after any sequence of key events, each flag is decided by the latest event whose code is bound to it, or keeps its initial value if there is none |
| Controls.DistinctDirectionsCommute | src/Loader.js:360-400 | events for different directions can be handled in either order with the same result |
| Locomotion.UpdateCamera | src/Loader.js:470-493 | within clamp 0.5, forward adds 0.0005*t even when backward is also held; backward alone subtracts it; otherwise, or above the clamp, the velocity becomes 0.8*v; the same holds for rotation with clamp 0.05, increment 0.00005, and left before right |
| Locomotion.ChannelsIndependent | src/Loader.js:470-493 | the vertical result depends only on the vertical velocity and forward/backward; the rotational result depends only on the rotational velocity and left/right |
| Locomotion.DecayShrinks | src/Loader.js:477-492 | decay keeps the sign and strictly shrinks the magnitude of every non-zero velocity |
| Locomotion.ClampIsNotACeiling | src/Loader.js:471-484 | at every positive elapsed time t, a channel exactly at its clamp with its key held ends at clamp + increment * t, above the clamp (0.5 + 0.0005 t vertically, 0.05 + 0.00005 t in rotation) |
| Locomotion.StepWithinReach | src/Loader.js:470-493 | one step keeps each channel within clamp + increment * t when the clock does not run backwards |
| Locomotion.RunWithinReach | src/Loader.js:502-531 | over any run of frames whose clock never runs backwards, each channel stays within its clamp plus its increment times the latest clock reading |
| Locomotion.RunFromRestWithinReach | src/Loader.js:466-531 | from the initial zero velocities, |vertical| <= 0.5 + 0.0005*T and |rotation| <= 0.05 + 0.00005*T, where T is the latest clock reading |
| Locomotion.ReleasedRunDecays | src/Loader.js:477-492 | with all keys released, n frames scale both velocities by 0.8^n whatever the elapsed times |
| Locomotion.ReleasedRunNeverStops | src/Loader.js:477-492 | with all keys released, a moving channel keeps its sign forever and never reaches zero |
| Island.DrawIslandSegment | src/Loader.js:168-173 | the outline is extended, never rewritten; angle 0 adds one move to the point, and every angle ends with a line to the point |
| Island.DrawExtendsTrace | src/Loader.js:168-173 | drawing the first point at angle 0, or a later point at a non-zero angle, extends a traced outline by exactly that point |
| Island.TracedCounts | src/Loader.js:133-142 | an outline traced through n > 0 points starts with its only move and holds exactly n lines |
| Island.SampleColumn | src/Loader.js:134-141 | the grass, dirt and stone points at one angle share its sine and cosine, so each point whose two draws coincide lies on the line through the axis at that angle; dirt's base radius is grass's realised distance + 1.5 and stone's is dirt's + 0, whose nesting `ColumnNesting` states |
| Island.Ring | src/Loader.js:133-141 | a layer's ring holds one point per sample, in angle order |
| Island.RingAt | src/Loader.js:133-141 | a layer's ring holds, at index i, that layer's point computed from sample i alone |
| Island.DrawNextRingPoint | src/Loader.js:126-142 | one pass of the angle loop extends each layer's outline from tracing the first k ring points to tracing the first k + 1, starting it with a move only at angle 0 |
| Island.CreateIsland | src/Loader.js:126-142 | the loop over 0, 15, ..., 345 traces each of the three outlines through its layer's 24 points in angle order, so each outline has 25 commands and starts with a move; with `TracedCounts` that move is its only one and the other 24 are lines |
| Island.RandomPointOnCircle | src/Loader.js:162-166 | x and y are the base radius jittered by separate draws, times the sine and cosine; with draws in [0,1), r >= 0, v > 0 and sin^2+cos^2 = 1 the point's squared distance lies in [r^2, (r+v)^2) |
| Island.SquaredDistanceBounds | src/Loader.js:162-166 | radii r + v*ux and r + v*uy times sine and cosine, under the same conditions, give r^2 <= x^2+y^2 < (r+v)^2 |
| Island.DistanceBounds | src/Loader.js:162-166 | under the same conditions the realised distance lies in [r, r+v) |
| Island.ColumnNesting | src/Loader.js:133-141 | at every angle grass lies in [12, 13.5); dirt is at least grass + 1.5 and below grass + 2.5; stone is at least dirt and below dirt + 2 |
| Island.StoneWithinMaxRadius | src/Loader.js:108-142 | at every angle the grass, dirt and stone points all lie strictly within 18 of the axis |
| Island.LayerExtrusion | src/Loader.js:144-150 | each layer is extruded with positive depth, bevel thickness and bevel segment count |
| Island.LayersStackDownwards | src/Loader.js:144-150 | stone sits below dirt below grass; dirt is lowered by its height less the 0.01 clip guard, stone by its height |
| Staging.FalloffIntensity | src/Loader.js:315-320 | the intensity is non-negative and zero exactly at 12 |
| Staging.FalloffSymmetric | src/Loader.js:315-320 | values equally far either side of 12 give equal intensity |
| Staging.AddLights | src/Loader.js:313-342 | four side lights share the colour, intensity 0.05*|12-r| and height 1+h/2, and sit exactly at the corners (+-(1+r), +-(1+r)): every corner holds a side light and every side light is at a corner; the top light is at (0, 2+h, 0) with intensity 0.05*|12-h| |
| Staging.SideLightsDistinct | src/Loader.js:316-330 | unless r = -1 the four side lights are at four different positions |
| Staging.SideLightsMirrorSymmetric | src/Loader.js:323-330 | mirroring any side light across x = 0 or z = 0 lands on another side light |
| Staging.RigParametersRoundTrip | src/Loader.js:313-333 | the radius and height are recovered from the rig, for every radius |
| Staging.AddCamera | src/Loader.js:345-349 | the camera sits on x = 0 at (0, 4+h/12, 8+r), and radius and height are recovered from its position |
| Staging.CameraPlacementRoundTrip | src/Loader.js:345-349 | every position on the x = 0 plane is the camera position for the radius and height read back from it |
| Staging.IslandStaging | src/Loader.js:154-156 | the island scene puts side lights at (+-15.4, 2, +-15.4) with intensity 0.12, the top light at (0, 4, 0) with intensity 0.5, and the camera at (0, 6, 26) |
| Staging.CameraOutsideIsland | src/Loader.js:133-156 | whatever the draws, the camera (26 from the axis) is farther from the island axis than the grass, dirt and stone points at every angle |

## Left out

- Rendering-library object construction is left out: geometries, materials, `ExtrudeGeometry`, meshes and adding nodes to the scene or a group. These are foreign library calls, so only the descriptors and numbers passed to them are modelled. This covers `getMesh` (src/Loader.js:229-234) and `setMaterial` (src/Loader.js:281-292), and the `rotateX` and `translateY` of each extruded layer.
- The renderer, canvas, resize handler, fog, clock and the `tick`/`requestAnimationFrame` loop (src/Loader.js:4-47, 459-460, 502-542) are platform I/O and frame scheduling. The `outputReady` flag that makes `createIsland` run once lives there too. The frame loop appears only as a sequence of `(keys, elapsedTime)` frames in `Locomotion.Run`.
- Applying the velocities is left out: `camera.translateY` and `island.rotateOnWorldAxis` in `tick` are library transforms.
- DOM event registration (src/Loader.js:355-356) is left out. Only the handler bodies are modelled.
- GLB and PNG export (src/Loader.js:416-455) is file I/O.
- `createStructure`, `buildStructure` and `addMesh` (src/Loader.js:187-227) are left out. `createStructure` reads `shapeX`/`shapeZ`, which are never defined, and its only call is commented out. The other two only forward records to `getMesh` and the scene.
- The shape presets `rightTriangle` and `imageFrame` (src/Loader.js:69-87) are never used by the palette.
- `Math.random`, `Math.sin`, `Math.cos` and `Math.sqrt` are inputs, not implementations. The model does not relate a sample's sine and cosine to its angle, and makes no floating-point claims. Constants such as `grassRadius * 1.2` are exact reals here.
- The flag initialiser `var forward, left, right, backward = false` leaves three flags `undefined`. They are modelled as `false`, which is how every reader of the flags treats them.
- Palette.BaseMesh: the case 4 cylinder passes only four arguments. Its height segments (1), open-ended flag (false) and start angle (0) are filled in with the rendering library's defaults.
- Island.DistanceBounds: requires a positive variance, because with variance 0 the upper bound is not strict. All three layers use positive variances (1.5, 1 and 2).
- Island.CreateIsland: requires exactly 24 samples, one per angle of the loop, because the samples stand for the draws the loop consumes.

