# Gravitation, modelled in Dafny

A model of the core of a small SFML N-body toy: four bodies (earth, moon,
iss, sun) pulled by pairwise gravity and moved once per frame, an overlay
that shows the timestep and zoom in readable units, a tooltip, a
right-click camera-focus handler (which `main` never calls), and the keys
that zoom, pan, pause and change the playback speed. Floats are modelled as reals. The per-pair gravitational
acceleration is abstract; it is a `Pull` function parameter.

Modules, one per part of the program:

- `Graphics` (graphics.dfy): the SFML value types the core uses. These are
  `sf::Vector2f`, `sf::Color`, and `sf::FloatRect` with its `contains` test.
- `Objects` (objects.dfy): the `Object` record of Program.h. Its
  constructor (`NewObject`) folds a text into a 32-bit unsigned hash with
  `hash = (hash << 5) + hash + c` from 0, and renders the hash in decimal
  as the body's id. The wrap-around is written out with `% 2^32`.
- `Physics` (physics.dfy): what `Program::update` does to the body list, as
  functions. `AfterSteps(objs, k, …)` is the list after k iterations of the
  outer loop. `Updated` is the list after the whole call.
- `Overlay` (overlay.dfy): the unit and plural choices in `Program::drawUI`.
- `Simulator` (simulator.dfy): the class `Program`. It holds the
  constructor, the in-place `Update` loop, and the two first-hit scans.
- `Controls` (controls.dfy): the key handling of `main`. `Released`,
  `Pressed` and `Handle` say what one event does to the playback state.
  The class `Session` holds that state and has one method per key.

Points of the code's behaviour that are easy to misread:

- The update is sequential and in place. Object k's acceleration sees the
  new positions of objects 0..k-1, not a snapshot taken before the step.
  `UpdateIsSequential` states this, and `SequentialDiffersFromSnapshot`
  shows that the two orders give different results.
- Position is advanced with the new velocity (semi-implicit Euler).
- The hash step multiplies by 33, since `(h << 5) + h` is 33·h.
- There is no guard against zero separation. The update method requires
  that no visited pair coincides (`NoCoincidentPair`).

## Model

| member | source | states |
|---|---|---|
| Objects.StepIsTimes33 | Program.h:21 | one loop step, shift by 5 plus self plus the char code, all in unsigned 32-bit arithmetic, equals (33·hash + code) mod 2^32 |
| Objects.FoldHashSnoc | Program.h:19-22 | the hash is a left fold: hashing text + [c] is one more step applied to the hash of text |
| Objects.FoldHashAppend | Program.h:19-22 | hashing a concatenation continues from the first part's hash |
| Objects.EmptyTextHash | Program.h:19-23 | the empty text hashes to 0, so its id is "0" |
| Objects.ToDecimal | Program.h:23 | std::to_string of the unsigned hash: only digits, at least one, no leading zero unless the value is 0 |
| Objects.DecimalRoundTrip | Program.h:23 | reading the decimal id back gives the hash, so the rendering loses nothing |
| Objects.DerivedIdsEqualIffHashesEqual | Program.h:18-23 | two derived ids are equal exactly when the two hashes are; the id depends only on the text |
| Objects.HashIsNotInjective | Program.h:19-22 | the fold is not injective on arbitrary texts: "10" and "0Q" get the same hash, so derived ids can collide |
| Objects.NewObject | Program.h:11-24 | the constructor sets pos to (x, y), mass, radius (default 10) and color (default White); velocity is (0, 0); id is the decimal form of the text's hash, as computed by the loop |
| Physics.UpdateIsSequential | Program.cpp:40-58 | object k is advanced with the acceleration computed on the list whose first k entries are already updated and whose later entries are not |
| Physics.SequentialDiffersFromSnapshot | Program.cpp:40-58 | with two bodies, the in-place update gives the second body a different velocity from a simultaneous update whenever the first body's move changes its pull |
| Physics.TwoBodies | Program.cpp:40-58 | update on two bodies with different ids, written out: the second body feels the first body's new position |
| Physics.UpdateKeepsBodies | Program.cpp:40-58 | update keeps the list's length and order, and every entry's id, mass, radius and color |
| Physics.AfterStepsKeepsBodies | Program.cpp:40-58 | the same after any number of outer-loop iterations |
| Physics.AfterStepsUntouched | Program.cpp:40-58 | objects the outer loop has not reached yet are unchanged |
| Physics.AfterStepsSettled | Program.cpp:40-58 | an object the outer loop has passed no longer changes |
| Physics.AccelerationIgnoresSameId | Program.cpp:43-53 | an object gets no contribution from entries that share its id: changing their position or mass leaves its acceleration unchanged |
| Physics.NoOtherIdNoAcceleration | Program.cpp:41-54 | an object whose id every entry shares has zero acceleration |
| Physics.LoneObjectCoasts | Program.cpp:40-58 | a single object keeps its velocity and moves by deltaTime times it |
| Physics.SemiImplicitOrder | Program.cpp:56-57 | the velocity is updated first; the position uses the new velocity, so it moves by dt·v + dt²·a |
| Physics.ZeroDeltaTimeChangesNothing | Program.cpp:56-57 | with deltaTime 0 no position or velocity changes, whatever the pulls are |
| Physics.AfterStepsZeroDelta | Program.cpp:56-57 | the same after any number of outer-loop iterations |
| Simulator.Program.Update | Program.cpp:38-59 | the nested loops leave the list equal to `Updated` of the old list: each object in turn sums the pulls of objects with a different id, then updates velocity and then position in place |
| Simulator.Program.constructor | Program.cpp:14-35 | exactly four objects in the order earth, moon, iss, sun, with distinct explicit ids; moon and iss copy earth's y-velocity; sun's velocity is zero; deltaTime 10, zoom 0 (Program.h:43-44); no focus |
| Overlay.TimestepReading | Program.cpp:89-103 | deltaTime·60 is divided by the largest of year, day, hour and minute that it reaches, and otherwise stays in seconds |
| Overlay.ZoomReading | Program.cpp:128-133 | zoom is shown in kilometers (divided by 1000) exactly when it is at least 1000, otherwise in meters |
| Overlay.UnitLabel | Program.cpp:108 | the "s" suffix is left off exactly when the converted amount equals 1 |
| Overlay.TimestepSingularIffWholeUnit | Program.cpp:89-108 | the timestep unit is singular exactly when deltaTime·60 is one whole unit |
| Simulator.FirstHit | Program.cpp:152-171 | the first object in list order whose box [pos - r, pos + r) contains the point, or none when no box contains it |
| Simulator.Program.TooltipText | Program.cpp:152-171 | the tooltip shows the id of the first object under the pointer, and nothing when there is none |
| Simulator.Program.MouseButtonReleased | Program.cpp:175-188 | a right click focuses the first object under the pointer; with no hit, or with any other button, the focus is unchanged |
| Controls.HalfStep | main.cpp:82-87 | adding 0.5, or taking 0.5 from at least 0.5, keeps a non-negative multiple of 0.5 |
| Controls.HandleKeepsSpeedsOnGrid | main.cpp:44-88 | every event keeps deltaTime and previousDeltaTime non-negative multiples of 0.5 |
| Controls.HandleKeepsZoomTracking | main.cpp:44-51 | every event keeps the camera's size equal to the window size times program.zoom |
| Controls.RunKeepsInvariants | main.cpp:36-91 | from a state with both invariants, any sequence of events keeps them |
| Controls.StartIsValid | main.cpp:28-34 | the starting state (deltaTime 10, not paused, zoom 780625, camera zoomed by 780625) satisfies both invariants |
| Controls.CommaNeverNegative | main.cpp:82-84 | Comma subtracts 0.5 and clamps any result below 0.5 to 0, so deltaTime never goes negative |
| Controls.SpaceToggles | main.cpp:55-63 | Space while running saves deltaTime, sets it to 0 and pauses; Space while paused restores the saved deltaTime and resumes |
| Controls.SpaceTwiceRestores | main.cpp:55-63 | two Space releases restore deltaTime and paused, unless deltaTime was nonzero while paused |
| Controls.PausedButRunning | main.cpp:52-64 | paused does not imply deltaTime 0: Slash while paused sets 0.5, and the next Space overwrites it with the saved value |
| Controls.SpeedKeysTouchOnlySpeed | main.cpp:52-53 | Slash sets deltaTime to 0.5 and Period adds 0.5; neither changes paused, the saved speed, the zoom or the camera |
| Controls.CameraKeysOnlyMoveCamera | main.cpp:68-80 | W, S, A and D move the camera center by 100000 along one axis and change nothing else |
| Controls.Session.constructor | main.cpp:28-34 | the program is built, its zoom set to 780625, the camera zoomed by as much, not paused, previousDeltaTime equal to deltaTime |
| Controls.Session.HandleEvent | main.cpp:38-90 | one polled event changes the session exactly as `Handle` says and keeps both invariants |
| Controls.Session.ReleaseSpace | main.cpp:55-63 | Space toggles pause in place, as `Released` says, keeping the invariants |
| Controls.Session.PressComma | main.cpp:82-85 | Comma in place, as `Pressed` says, keeping the invariants |
| Controls.Session.PressPeriod | main.cpp:86-87 | Period in place, as `Pressed` says, keeping the invariants |
| Controls.Session.ReleaseSlash | main.cpp:52-53 | Slash in place, as `Released` says, keeping the invariants |
| Controls.Session.ReleaseEqual | main.cpp:44-47 | Equal zooms camera and program.zoom by 0.75 together |
| Controls.Session.ReleaseHyphen | main.cpp:48-51 | Hyphen zooms camera and program.zoom by 1.25 together |
| Controls.Session.PressMove | main.cpp:70-81 | W, S, A and D move the camera, as `Pressed` says |

## Left out

- Floating-point arithmetic: all quantities are reals. Float rounding is not modelled. This includes the rounding of literals such as 384467e3, of `x + y*mass`, of repeated ±0.5 steps, and of the zoom products. Infinities and NaN are not modelled either.
- The pair contribution (Program.cpp:46-52) is an abstract `Pull` parameter of `Update`. It stands for G·m/d² along the direction to the other body, computed there with sqrt, pow, atan2, cos and sin. No physical claim is made: no momentum, energy or orbit shape.
- Zero separation is a division by zero in the source. `Program.Update` requires `NoCoincidentPair` instead of choosing an epsilon policy.
- `std::to_string(x + y*mass)` is a foreign call. The text it renders is a parameter of `NewObject`, and `Program`'s constructor takes that function as `toString`.
- `char` is taken to be signed when a text byte is cast to `unsigned int`. The hashed texts are ASCII, so signedness does not change their hash.
- `sf::FloatRect::contains` follows the SFML 2 convention: the low edges are inside and the high edges are outside.
- `main`'s event switch (main.cpp:38-90) handles only `Closed`, `KeyReleased` and `KeyPressed`, and never calls `Program::mouseButtonReleased`. `Simulator.Program.MouseButtonReleased` therefore models a method with no caller in the source, and `Controls.Session.HandleEvent` treats every mouse event as `OtherEvent`, which leaves the camera focus unchanged.
- `window->mapPixelToCoords` is an SFML call. The scans take the pointer already in world coordinates.
- The camera focus is a pointer into the object vector in the source. Here it is an index, which stays valid because update keeps the list's length.
- The source never initialises `cameraFocusObject`, and its header does not declare it. The model starts with no focus.
- Rendering is not modelled. This covers `draw`, the text and shape set-up in `drawUI`, the `setprecision(2)` formatting, the version label, font loading and `camera->setCenter` in `draw`.
- The window, the event polling, the frame loop and the calls to update/draw each frame (main.cpp:4-27, 36-37, 93-109) are not modelled. Closing the window changes no modelled state.
- The header/source mismatch (`Program(sf::View*)` in Program.h against the two-argument constructor and undeclared members in Program.cpp) is not modelled. The model has the fields the logic uses.
