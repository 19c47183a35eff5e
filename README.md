# card-rpg overworld movement

A Dafny model of the player movement of the card-rpg overworld scene. The
scene reacts to key presses by changing the player's velocity, one unit per
press on the pressed axis, clamped to [-3, 3] (SPEED_LIMIT 3, ACCEL_RATE 1).
On every rendered frame it moves the player. On each axis, a velocity that
would carry the player out of the camera area [0, CAM − 4·TILE_SIZE] is set
to 0. Then the position becomes `pos + vel` clamped to that area.

Everything is in module `OverworldScene` (`overworld.dfy`):

- `PlayerState`, `AfterInput`, `MoveAxis`, `Moved` are the specification
  on plain values: one input event, one axis of a frame, one whole frame.
- `Player` and `Overworld` are classes whose methods update fields in place
  as the Rust code does. `Overworld.HandleInput` builds `deltaX`/`deltaY`
  step by step. `Player.UpdateMovement` zeroes, then clamps. Each method's
  postcondition ties the new player state to the specification function of
  the old state.
- `Run` applies a sequence of inputs and frames, the order in which the game
  loop drives a scene. The invariant lemmas are stated over it.
- The camera constants CAM_W, CAM_H and TILE_SIZE come from a graphics
  module that is not part of this model. They are the parameter `Camera`.
  `Camera.Valid()` requires both bounds to be non-negative, because Rust's
  `clamp` panics when its lower bound exceeds its upper bound.

Two details of the code:

- The zeroed velocity of `update_movement` is written back to the player's
  field (overworld.rs:97, 100), so it stays 0 after the frame until a later
  key press changes it.
- Each `KeyPress` event carries one key code. For velocities in [-3, 3],
  which every reachable state has, one event therefore changes at most one
  axis. Every key press clamps both axes, so a velocity outside [-3, 3] on
  the other axis is pulled back into range by the same event.

## Model

| member | source | states |
|---|---|---|
| OverworldScene.Clamp | card-rpg/src/scenes/overworld.rs:60-63 | `clamp` returns a value in [lo, hi], is the identity on [lo, hi], and returns the point of [lo, hi] nearest the input |
| OverworldScene.AfterInput | card-rpg/src/scenes/overworld.rs:50-67 | after any key press both velocities are in [-3, 3], even if they were out of range before; in-range velocities stay in range; positions never change; a non-key event changes nothing |
| OverworldScene.KeyPressEffect | card-rpg/src/scenes/overworld.rs:56-63 | for in-range velocities, D sets x_vel to min(x_vel+1, 3), A to max(x_vel−1, −3), S sets y_vel to min(y_vel+1, 3), W to max(y_vel−1, −3); the other axis is unchanged; an unrecognised key leaves the player unchanged |
| OverworldScene.KeyPressAccelerates | card-rpg/src/scenes/overworld.rs:56-63 | a W/A/S/D press changes the velocities by at most one unit in total, and changes nothing exactly when that axis is already at the limit in the pressed direction |
| OverworldScene.MoveAxis | card-rpg/src/scenes/overworld.rs:96-105 | the new position is in [0, hi]; the velocity is kept or set to 0; if pos+vel is in bounds, the position becomes pos+vel and the velocity is kept; otherwise the velocity becomes 0 and the position becomes clamp(pos, 0, hi) |
| OverworldScene.BlockedStaysPut | card-rpg/src/scenes/overworld.rs:96-105 | a player inside the bounds whose next position would leave them keeps its position and stops |
| OverworldScene.Moved | card-rpg/src/scenes/overworld.rs:93-106 | after a frame both positions are within the camera bounds for any start; no speed ever increases, so the [-3, 3] bound is preserved |
| OverworldScene.AxesIndependent | card-rpg/src/scenes/overworld.rs:96-105 | the x position and velocity after a frame depend only on the x fields before it, and likewise for y |
| OverworldScene.DriftsWithoutInput | card-rpg/src/scenes/overworld.rs:96-105 | when both next positions are in bounds, a frame adds each velocity to its position and keeps both velocities |
| OverworldScene.InitialSatisfiesInv | card-rpg/src/scenes/overworld.rs:32-38 | the initial player at (0,0) with velocity (0,0) satisfies the position and velocity bounds |
| OverworldScene.RunKeepsVelocityBound | card-rpg/src/scenes/overworld.rs:50-70 | velocities in [-3, 3] stay there through any sequence of inputs and frames |
| OverworldScene.RunBoundsVelocityAfterKeyPress | card-rpg/src/scenes/overworld.rs:55-63 | once any key has been pressed, both velocities are in [-3, 3] at the end of any sequence, whatever they were at the start |
| OverworldScene.RunPreservesInv | card-rpg/src/scenes/overworld.rs:50-70 | the position and velocity bounds hold after any sequence of inputs and frames that starts within them |
| OverworldScene.ReachableSatisfiesInv | card-rpg/src/scenes/overworld.rs:29-70 | every player state reachable from the initial one satisfies the position and velocity bounds |
| OverworldScene.NoI32Overflow | card-rpg/src/scenes/overworld.rs:60-62 | from states within the bounds, with bounds at most i32::MAX − 3, none of the i32 additions of handle_input or update_movement overflows |
| OverworldScene.TapRightThenFrame | card-rpg/src/scenes/overworld.rs:56-70 | from rest at the origin, pressing D and rendering one frame gives position (1,0) and velocity (1,0) |
| OverworldScene.StopsAtRightWall | card-rpg/src/scenes/overworld.rs:96-104 | a player at (CAM_W − 4·TILE_SIZE, 0) with velocity (3,0) keeps its position and ends with velocity (0,0) |
| OverworldScene.Player.constructor | card-rpg/src/scenes/overworld.rs:32-38 | a new player is at (0,0) with velocity (0,0) |
| OverworldScene.Player.UpdateMovement | card-rpg/src/scenes/overworld.rs:93-106 | the fields after the in-place update are exactly `Moved` of the fields before |
| OverworldScene.Overworld.Init | card-rpg/src/scenes/overworld.rs:29-46 | the scene keeps the camera, a tile map of 144 zeros and a fresh player at rest at the origin; it satisfies the invariant exactly when the camera bounds are valid |
| OverworldScene.Overworld.HandleInput | card-rpg/src/scenes/overworld.rs:50-67 | the player after the in-place update is `AfterInput` of the player before; the invariant is preserved |
| OverworldScene.Overworld.Render | card-rpg/src/scenes/overworld.rs:69-70 | the player after the frame is `Moved` of the player before; the invariant is preserved |

## Left out

- Drawing in `render`: filling the background, tiling the sea sprite, drawing the player sprite and presenting the frame. These are SDL graphics calls whose code is not part of this model, and so are the `Err(String)` results they return. `Overworld.Render` models only the movement update that starts each frame.
- Texture loading in `init` (the tile sheet and the player sprite) and its load error. This is file I/O and image decoding in a texture manager that is not part of this model. The shared `Rc`/`RefCell` handles and the borrowed window canvas are ownership plumbing and are left out too.
- The tile map is only created (144 zeros). The scene never reads it.
- The values of CAM_W, CAM_H and TILE_SIZE are not known here. The model takes them as a parameter. It also ignores the `as i32` casts and any overflow in computing `CAM − TILE_SIZE * 4`.
- i32 arithmetic is modelled with unbounded integers. `NoI32Overflow` shows that no addition overflows from states within the bounds, provided both camera bounds are at most i32::MAX − 3. With larger bounds, or outside those states, the model does not capture Rust's overflow panic.
- The game loop that delivers events and calls `render` is not part of this model. It appears only as the action sequences of `Run`.
- `main.rs`, the program entry point that only sets up SDL and the game manager.
