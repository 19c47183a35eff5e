/** The overworld scene of the card-rpg prototype: a player whose velocity
    changes on key presses and whose position advances once per rendered
    frame, kept inside the camera area.

    The pure functions below are the specification (one step of the scene,
    on plain values); the classes Player and Overworld update their fields in
    place, as the scene does, and are proved against those functions. */
module OverworldScene {

  /** Largest speed on either axis (SPEED_LIMIT). */
  const SPEED_LIMIT: int := 3
  /** Change of velocity per key press (ACCEL_RATE). */
  const ACCEL_RATE: int := 1
  /** Tiles are drawn at four times their size, so the player is 4 * TILE_SIZE wide. */
  const TILE_SCALE: int := 4
  /** Number of entries of the (unused) tile map. */
  const TILE_MAP_LEN: int := 144

  const I32_MIN: int := -0x8000_0000
  const I32_MAX: int := 0x7FFF_FFFF

  newtype u8 = x: int | 0 <= x < 0x100

  /** The keys the scene reacts to; every other key code is Other. */
  datatype Keycode = W | A | S | D | Other

  /** Input events delivered by the game loop; only key presses matter here. */
  datatype GameEvent = KeyPress(key: Keycode) | OtherEvent

  /** The camera constants CAM_W, CAM_H and TILE_SIZE of the graphics module. */
  datatype Camera = Camera(camW: int, camH: int, tileSize: int)
  {
    /** Largest x position: CAM_W - TILE_SIZE * 4. */
    function MaxX(): int { camW - tileSize * TILE_SCALE }
    /** Largest y position: CAM_H - TILE_SIZE * 4. */
    function MaxY(): int { camH - tileSize * TILE_SCALE }
    /** The bounds form non-empty ranges; otherwise the position clamp panics. */
    predicate Valid() { 0 <= MaxX() && 0 <= MaxY() }
  }

  /** The movement fields of a player (its sprite is left out). */
  datatype PlayerState = PlayerState(xPos: int, yPos: int, xVel: int, yVel: int)

  /** One axis of a player: a position and the velocity along it. */
  datatype Axis = Axis(pos: int, vel: int)

  function Min(a: int, b: int): int { if a <= b then a else b }
  function Max(a: int, b: int): int { if a >= b then a else b }
  function Dist(a: int, b: int): nat { if a <= b then b - a else a - b }
  predicate IsI32(x: int) { I32_MIN <= x <= I32_MAX }

  /** Ord::clamp: the value of [lo, hi] nearest to v (Rust panics when lo > hi). */
  function Clamp(v: int, lo: int, hi: int): (r: int)
    requires lo <= hi
    ensures lo <= r <= hi
    ensures lo <= v <= hi ==> r == v
    ensures forall y :: lo <= y <= hi ==> Dist(r, v) <= Dist(y, v)
  {
    if v < lo then lo else if v > hi then hi else v
  }

  // ---------------------------------------------------------------------
  // Invariants of the scene

  predicate VelInBounds(p: PlayerState) {
    -SPEED_LIMIT <= p.xVel <= SPEED_LIMIT && -SPEED_LIMIT <= p.yVel <= SPEED_LIMIT
  }

  predicate PosInBounds(p: PlayerState, cam: Camera) {
    0 <= p.xPos <= cam.MaxX() && 0 <= p.yPos <= cam.MaxY()
  }

  predicate Inv(p: PlayerState, cam: Camera) {
    cam.Valid() && VelInBounds(p) && PosInBounds(p, cam)
  }

  // ---------------------------------------------------------------------
  // Overworld::init: the player starts at rest in the top-left corner

  function Initial(): PlayerState { PlayerState(0, 0, 0, 0) }

  /** The initial player satisfies both the position and the velocity bounds. */
  lemma InitialSatisfiesInv(cam: Camera)
    requires cam.Valid()
    ensures Inv(Initial(), cam)
  {
  }

  // ---------------------------------------------------------------------
  // Scene::handle_input: velocity from key presses

  /** Velocity change on the x axis of a key press: A slows down, D speeds up. */
  function DeltaX(k: Keycode): int {
    match k
    case A => -ACCEL_RATE
    case D => ACCEL_RATE
    case _ => 0
  }

  /** Velocity change on the y axis of a key press: W slows down, S speeds up. */
  function DeltaY(k: Keycode): int {
    match k
    case W => -ACCEL_RATE
    case S => ACCEL_RATE
    case _ => 0
  }

  /** The player after one input event. */
  function AfterInput(p: PlayerState, e: GameEvent): (r: PlayerState)
    ensures r.xPos == p.xPos && r.yPos == p.yPos
    ensures e.KeyPress? ==> VelInBounds(r)
    ensures !e.KeyPress? ==> r == p
    ensures VelInBounds(p) ==> VelInBounds(r)
  {
    match e
    case KeyPress(k) =>
      p.(xVel := Clamp(p.xVel + DeltaX(k), -SPEED_LIMIT, SPEED_LIMIT),
         yVel := Clamp(p.yVel + DeltaY(k), -SPEED_LIMIT, SPEED_LIMIT))
    case OtherEvent => p
  }

  /** What each key does to velocities that are already in range. */
  lemma KeyPressEffect(p: PlayerState, k: Keycode)
    requires VelInBounds(p)
    ensures var r := AfterInput(p, KeyPress(k));
      (k == D ==> r == p.(xVel := Min(p.xVel + 1, SPEED_LIMIT))) &&
      (k == A ==> r == p.(xVel := Max(p.xVel - 1, -SPEED_LIMIT))) &&
      (k == S ==> r == p.(yVel := Min(p.yVel + 1, SPEED_LIMIT))) &&
      (k == W ==> r == p.(yVel := Max(p.yVel - 1, -SPEED_LIMIT))) &&
      (k == Other ==> r == p)
  {
  }

  /** A key press pushes the velocity one step toward the pressed direction:
      it moves by exactly one unless it is already at the limit. */
  lemma KeyPressAccelerates(p: PlayerState, k: Keycode)
    requires VelInBounds(p) && k != Other
    ensures var r := AfterInput(p, KeyPress(k));
      Dist(r.xVel, p.xVel) + Dist(r.yVel, p.yVel) <= 1 &&
      (r == p <==>
        (k == D && p.xVel == SPEED_LIMIT) || (k == A && p.xVel == -SPEED_LIMIT) ||
        (k == S && p.yVel == SPEED_LIMIT) || (k == W && p.yVel == -SPEED_LIMIT))
  {
  }

  // ---------------------------------------------------------------------
  // Player::update_movement: position from velocity, one axis at a time

  /** One axis of the movement update: the velocity is zeroed when the next
      position would leave [0, hi]; then the position is clamped to [0, hi]. */
  function MoveAxis(a: Axis, hi: int): (r: Axis)
    requires 0 <= hi
    ensures 0 <= r.pos <= hi
    ensures r.vel == a.vel || r.vel == 0
    ensures 0 <= a.pos + a.vel <= hi ==> r == Axis(a.pos + a.vel, a.vel)
    ensures !(0 <= a.pos + a.vel <= hi) ==> r == Axis(Clamp(a.pos, 0, hi), 0)
  {
    var vel := if a.pos + a.vel > hi || a.pos + a.vel < 0 then 0 else a.vel;
    Axis(Clamp(a.pos + vel, 0, hi), vel)
  }

  /** A player already inside the bounds who is blocked by a wall stays put. */
  lemma BlockedStaysPut(a: Axis, hi: int)
    requires 0 <= a.pos <= hi
    requires !(0 <= a.pos + a.vel <= hi)
    ensures MoveAxis(a, hi) == Axis(a.pos, 0)
  {
  }

  /** The player after one frame's movement update. */
  function Moved(p: PlayerState, cam: Camera): (r: PlayerState)
    requires cam.Valid()
    ensures PosInBounds(r, cam)
    ensures Dist(r.xVel, 0) <= Dist(p.xVel, 0) && Dist(r.yVel, 0) <= Dist(p.yVel, 0)
    ensures VelInBounds(p) ==> VelInBounds(r)
  {
    var x := MoveAxis(Axis(p.xPos, p.xVel), cam.MaxX());
    var y := MoveAxis(Axis(p.yPos, p.yVel), cam.MaxY());
    PlayerState(x.pos, y.pos, x.vel, y.vel)
  }

  /** The x fields after a frame depend only on the x fields before it, and
      likewise for y. */
  lemma AxesIndependent(p: PlayerState, q: PlayerState, cam: Camera)
    requires cam.Valid()
    ensures p.xPos == q.xPos && p.xVel == q.xVel ==>
      Moved(p, cam).xPos == Moved(q, cam).xPos && Moved(p, cam).xVel == Moved(q, cam).xVel
    ensures p.yPos == q.yPos && p.yVel == q.yVel ==>
      Moved(p, cam).yPos == Moved(q, cam).yPos && Moved(p, cam).yVel == Moved(q, cam).yVel
  {
  }

  /** Without input the player drifts: a velocity that keeps the player in
      bounds is applied unchanged, frame after frame. */
  lemma DriftsWithoutInput(p: PlayerState, cam: Camera)
    requires cam.Valid()
    requires 0 <= p.xPos + p.xVel <= cam.MaxX() && 0 <= p.yPos + p.yVel <= cam.MaxY()
    ensures Moved(p, cam) == PlayerState(p.xPos + p.xVel, p.yPos + p.yVel, p.xVel, p.yVel)
  {
  }

  // ---------------------------------------------------------------------
  // The game loop's protocol: input events, then one render per frame

  datatype Action = Input(event: GameEvent) | Frame

  function Step(p: PlayerState, cam: Camera, act: Action): PlayerState
    requires cam.Valid()
  {
    match act
    case Input(e) => AfterInput(p, e)
    case Frame => Moved(p, cam)
  }

  /** The player after a sequence of input events and frames. */
  function Run(p: PlayerState, cam: Camera, acts: seq<Action>): PlayerState
    requires cam.Valid()
    decreases |acts|
  {
    if acts == [] then p else Run(Step(p, cam, acts[0]), cam, acts[1..])
  }

  /** Neither input nor movement ever lets a velocity leave [-3, 3]. */
  lemma {:induction false} RunKeepsVelocityBound(p: PlayerState, cam: Camera, acts: seq<Action>)
    requires cam.Valid() && VelInBounds(p)
    ensures VelInBounds(Run(p, cam, acts))
    decreases |acts|
  {
    if acts != [] {
      RunKeepsVelocityBound(Step(p, cam, acts[0]), cam, acts[1..]);
    }
  }

  /** Once any key has been pressed, the velocities are in [-3, 3] from then
      on, whatever they were before. */
  lemma {:induction false} RunBoundsVelocityAfterKeyPress(p: PlayerState, cam: Camera, acts: seq<Action>, i: nat)
    requires cam.Valid()
    requires i < |acts| && acts[i].Input? && acts[i].event.KeyPress?
    ensures VelInBounds(Run(p, cam, acts))
    decreases i
  {
    if i == 0 {
      RunKeepsVelocityBound(Step(p, cam, acts[0]), cam, acts[1..]);
    } else {
      RunBoundsVelocityAfterKeyPress(Step(p, cam, acts[0]), cam, acts[1..], i - 1);
    }
  }

  /** The scene's invariant (both positions and both velocities in bounds)
      holds after any sequence of inputs and frames. */
  lemma {:induction false} RunPreservesInv(p: PlayerState, cam: Camera, acts: seq<Action>)
    requires Inv(p, cam)
    ensures Inv(Run(p, cam, acts), cam)
    decreases |acts|
  {
    if acts != [] {
      RunPreservesInv(Step(p, cam, acts[0]), cam, acts[1..]);
    }
  }

  /** Every state reachable from the initial player satisfies the invariant. */
  lemma ReachableSatisfiesInv(cam: Camera, acts: seq<Action>)
    requires cam.Valid()
    ensures Inv(Run(Initial(), cam, acts), cam)
  {
    RunPreservesInv(Initial(), cam, acts);
  }

  /** With positions and velocities in bounds and bounds that fit in i32,
      none of the additions of the scene overflows a 32-bit integer. */
  lemma NoI32Overflow(p: PlayerState, cam: Camera, k: Keycode)
    requires Inv(p, cam)
    requires cam.MaxX() <= I32_MAX - SPEED_LIMIT && cam.MaxY() <= I32_MAX - SPEED_LIMIT
    ensures IsI32(p.xVel + DeltaX(k)) && IsI32(p.yVel + DeltaY(k))
    ensures IsI32(p.xPos + p.xVel) && IsI32(p.yPos + p.yVel)
    ensures IsI32(p.xPos) && IsI32(p.yPos)
  {
  }

  /** From rest at the origin, pressing D and rendering one frame moves the
      player one pixel right with velocity (1, 0). */
  lemma TapRightThenFrame(cam: Camera)
    requires cam.Valid() && 1 <= cam.MaxX()
    ensures Run(Initial(), cam, [Input(KeyPress(D)), Frame]) == PlayerState(1, 0, 1, 0)
  {
  }

  /** A player at the right wall moving right at full speed stops there. */
  lemma StopsAtRightWall(cam: Camera)
    requires cam.Valid()
    ensures Moved(PlayerState(cam.MaxX(), 0, SPEED_LIMIT, 0), cam) == PlayerState(cam.MaxX(), 0, 0, 0)
  {
  }

  // ---------------------------------------------------------------------
  // The scene's objects

  /** Player: position and velocity, updated in place each frame. */
  class Player {
    var xPos: int
    var yPos: int
    var xVel: int
    var yVel: int

    constructor ()
      ensures State() == Initial()
    {
      xPos, yPos, xVel, yVel := 0, 0, 0, 0;
    }

    function State(): PlayerState
      reads this
    {
      PlayerState(xPos, yPos, xVel, yVel)
    }

    /** Player::update_movement: first zero each velocity whose next
        position is out of bounds, then advance and clamp each position. */
    method UpdateMovement(cam: Camera)
      requires cam.Valid()
      modifies this
      ensures State() == Moved(old(State()), cam)
    {
      if xPos + xVel > cam.MaxX() || xPos + xVel < 0 {
        xVel := 0;
      }
      if yPos + yVel > cam.MaxY() || yPos + yVel < 0 {
        yVel := 0;
      }
      xPos := Clamp(xPos + xVel, 0, cam.MaxX());
      yPos := Clamp(yPos + yVel, 0, cam.MaxY());
    }
  }

  /** The overworld scene: the camera it moves in, its tile map and its player. */
  class Overworld {
    const cam: Camera
    const tileMap: seq<u8>
    const player: Player

    ghost predicate Valid()
      reads this, player
    {
      Inv(player.State(), cam)
    }

    /** Overworld::init: an all-zero tile map and a player at rest at the origin. */
    constructor Init(cam: Camera)
      ensures this.cam == cam && fresh(player)
      ensures |tileMap| == TILE_MAP_LEN && forall i :: 0 <= i < |tileMap| ==> tileMap[i] == 0
      ensures player.State() == Initial()
      ensures Valid() <==> cam.Valid()
    {
      this.cam := cam;
      tileMap := seq(TILE_MAP_LEN, _ => 0);
      player := new Player();
    }

    /** Scene::handle_input: a key press adds its accelerations, gathered in
        deltaX and deltaY, and clamps both velocities; other events do nothing. */
    method HandleInput(event: GameEvent)
      modifies player
      ensures player.State() == AfterInput(old(player.State()), event)
      ensures old(Valid()) ==> Valid()
    {
      var deltaX := 0;
      var deltaY := 0;
      match event {
        case KeyPress(k) =>
          if k == W { deltaY := deltaY - ACCEL_RATE; }
          if k == A { deltaX := deltaX - ACCEL_RATE; }
          if k == S { deltaY := deltaY + ACCEL_RATE; }
          if k == D { deltaX := deltaX + ACCEL_RATE; }
          player.xVel := Clamp(player.xVel + deltaX, -SPEED_LIMIT, SPEED_LIMIT);
          player.yVel := Clamp(player.yVel + deltaY, -SPEED_LIMIT, SPEED_LIMIT);
        case OtherEvent =>
      }
    }

    /** Scene::render, movement part: advance the player by one frame. */
    method Render()
      requires cam.Valid()
      modifies player
      ensures player.State() == Moved(old(player.State()), cam)
      ensures old(Valid()) ==> Valid()
    {
      player.UpdateMovement(cam);
    }
  }
}
