/**
 * What both player controllers share: 3-vectors, the Idle/Walk/Run
 * classification of the pointer's drag vector, the speed each state drives
 * at, the steering vector built from the camera basis, and the edge trigger
 * that asks for a new animation only when the state changes.
 */
module Motion {
  import opened Wrappers

  datatype Vec3 = Vec3(x: real, y: real, z: real)

  const Origin: Vec3 := Vec3(0.0, 0.0, 0.0)

  function Add(a: Vec3, b: Vec3): Vec3 {
    Vec3(a.x + b.x, a.y + b.y, a.z + b.z)
  }

  function Scale(a: Vec3, k: real): Vec3 {
    Vec3(a.x * k, a.y * k, a.z * k)
  }

  datatype MoveState = Idle | Walk | Run

  /** Below this drag length (in screen pixels) the player stands still. */
  const DeadZone: real := 2.0

  /**
   * The classification exactly as the controllers write it, on the drag's
   * length: Idle unless the pointer is down and the length exceeds the dead
   * zone, then Run from `radius` on and Walk below it.
   */
  function ClassifyByLength(isDown: bool, len: real, radius: real): MoveState {
    if !isDown || !(len > DeadZone) then Idle
    else if len >= radius then Run
    else Walk
  }

  /** len >= radius, decided on len * len; exact for every radius, including non-positive ones. */
  predicate ReachesRadius(lenSq: real, radius: real) {
    radius <= 0.0 || lenSq >= radius * radius
  }

  /** The classification on the squared length of the drag vector (sx, sy), free of square roots. */
  function Classify(isDown: bool, sx: real, sy: real, radius: real): MoveState {
    var lenSq := sx * sx + sy * sy;
    if !isDown || lenSq <= DeadZone * DeadZone then Idle
    else if ReachesRadius(lenSq, radius) then Run
    else Walk
  }

  /** Squaring is strictly increasing on the non-negative reals. */
  lemma SquareStrict(b: real, a: real)
    requires 0.0 <= b < a
    ensures b * b < a * a
  {
    var d := a - b;
    assert a * a == (b + d) * (b + d);
    assert (b + d) * (b + d) == b * b + 2.0 * b * d + d * d;
    assert d * d > 0.0;
    assert b * d >= 0.0;
  }

  /** For non-negative reals, comparing squares compares the values. */
  lemma SquareMonotone(a: real, b: real)
    requires 0.0 <= a && 0.0 <= b
    ensures a <= b <==> a * a <= b * b
  {
    if a < b {
      SquareStrict(a, b);
    } else if b < a {
      SquareStrict(b, a);
    }
  }

  /**
   * Classifying on squared lengths gives the controllers' answer for the
   * true length `len` of the drag vector.
   */
  lemma {:induction false} ClassifyMatchesLength(isDown: bool, sx: real, sy: real, len: real, radius: real)
    requires 0.0 <= len && len * len == sx * sx + sy * sy
    ensures Classify(isDown, sx, sy, radius) == ClassifyByLength(isDown, len, radius)
  {
    SquareMonotone(len, DeadZone);
    if radius > 0.0 {
      SquareMonotone(radius, len);
    }
  }

  /** The classifier's three cases, in terms of the squared drag length, both directions. */
  lemma ClassifyCases(isDown: bool, sx: real, sy: real, radius: real)
    ensures Classify(isDown, sx, sy, radius) == Idle <==> !isDown || sx * sx + sy * sy <= 4.0
    ensures Classify(isDown, sx, sy, radius) == Walk <==>
              isDown && 4.0 < sx * sx + sy * sy && radius > 0.0 && sx * sx + sy * sy < radius * radius
    ensures Classify(isDown, sx, sy, radius) == Run <==>
              isDown && 4.0 < sx * sx + sy * sy && (radius <= 0.0 || radius * radius <= sx * sx + sy * sy)
  {
  }

  /** The speed each state drives at: nothing when Idle. */
  function SpeedFor(state: MoveState, walkSpeed: real, runSpeed: real): real {
    match state
    case Idle => 0.0
    case Walk => walkSpeed
    case Run => runSpeed
  }

  /**
   * The steering vector before normalisation: the camera's flattened right
   * axis scaled by the drag's x plus the flattened forward axis scaled by
   * minus its y, so dragging up the screen walks away from the camera.
   */
  function Steer(right: Vec3, forward: Vec3, sx: real, sy: real): Vec3 {
    Add(Scale(right, sx), Scale(forward, -sy))
  }

  /** The animation request a frame issues: the new state, only when it differs from the stored one. */
  function AnimationRequest(stored: MoveState, desired: MoveState): (r: Option<MoveState>)
    ensures r.Some? <==> stored != desired
    ensures r.Some? ==> r.value == desired
  {
    if desired != stored then Some(desired) else None
  }

  /**
   * The edge trigger seen over a run of frames: feeding the classified
   * states one per frame issues a request exactly at each change, and the
   * stored state always ends as the last classified one.
   */
  function Requests(stored: MoveState, frames: seq<MoveState>): seq<MoveState>
    decreases |frames|
  {
    if frames == [] then []
    else match AnimationRequest(stored, frames[0])
         case Some(s) => [s] + Requests(frames[0], frames[1..])
         case None => Requests(frames[0], frames[1..])
  }

  /** A run of identical states after the first frame issues at most the one request for the first change. */
  lemma {:induction false} RepeatedStateRequestsOnce(stored: MoveState, s: MoveState, n: nat)
    ensures Requests(stored, seq(n, _ => s)) == if n == 0 || stored == s then [] else [s]
  {
    if n > 0 {
      assert seq(n, _ => s)[1..] == seq(n - 1, _ => s);
      RepeatsAfterFirst(s, n - 1);
    }
  }

  /** Once the stored state equals s, more frames of s request nothing. */
  lemma {:induction false} RepeatsAfterFirst(s: MoveState, n: nat)
    ensures Requests(s, seq(n, _ => s)) == []
  {
    if n > 0 {
      assert seq(n, _ => s)[1..] == seq(n - 1, _ => s);
      RepeatsAfterFirst(s, n - 1);
    }
  }

  /** Every request names a state different from the one before it: no animation is requested twice in a row. */
  lemma {:induction false} RequestsAlternate(stored: MoveState, frames: seq<MoveState>)
    ensures var r := Requests(stored, frames);
            (|r| > 0 ==> r[0] != stored) && forall i :: 0 < i < |r| ==> r[i] != r[i - 1]
    decreases |frames|
  {
    if frames != [] {
      RequestsAlternate(frames[0], frames[1..]);
      var rest := Requests(frames[0], frames[1..]);
      if stored != frames[0] {
        assert Requests(stored, frames) == [frames[0]] + rest;
      } else {
        assert Requests(stored, frames) == rest;
      }
    }
  }

  /** The slider settings a controller's tick reads: the two speeds, the run radius and the camera offset. */
  datatype Config = Config(walkSpeed: real, runSpeed: real, radius: real, camOffset: Vec3)

  /** The direction the tick moves in: the normalised steering vector when moving, the zero vector otherwise. */
  function Heading(desired: MoveState, right: Vec3, forward: Vec3, sx: real, sy: real, normalize: Vec3 -> Vec3): Vec3 {
    if desired == Idle then Origin else normalize(Steer(right, forward, sx, sy))
  }

  /**
   * The drive part of the tick: the state the drag asks for, its speed and
   * the heading, computed on squared lengths by the same branches.
   */
  method Drive(cfg: Config, isDown: bool, sx: real, sy: real, right: Vec3, forward: Vec3, normalize: Vec3 -> Vec3)
    returns (desired: MoveState, speed: real, dir: Vec3)
    ensures desired == Classify(isDown, sx, sy, cfg.radius)
    ensures speed == SpeedFor(desired, cfg.walkSpeed, cfg.runSpeed)
    ensures dir == Heading(desired, right, forward, sx, sy, normalize)
  {
    desired, speed, dir := Idle, 0.0, Origin;
    if isDown {
      var lenSq := sx * sx + sy * sy;
      if lenSq > DeadZone * DeadZone {
        desired := if ReachesRadius(lenSq, cfg.radius) then Run else Walk;
        speed := if desired == Run then cfg.runSpeed else cfg.walkSpeed;
        dir := normalize(Steer(right, forward, sx, sy));
      }
    }
  }

  /* ---------------------------------------------------------------- the abstract scene objects */

  /** The dynamic rigid body: the translation the tick reads and the velocity it reads and writes. */
  class RigidBody {
    var translation: Vec3
    var linvel: Vec3

    constructor (translation: Vec3, linvel: Vec3)
      ensures this.translation == translation && this.linvel == linvel
    {
      this.translation := translation;
      this.linvel := linvel;
    }

    /** Rapier's `setLinvel`: replaces the linear velocity; the translation is left to the physics step. */
    method SetLinvel(v: Vec3)
      modifies this
      ensures linvel == v && translation == old(translation)
    {
      linvel := v;
    }
  }

  /** The camera: its position and the point it was last turned to look at. */
  class Camera {
    var position: Vec3
    var target: Vec3

    constructor (position: Vec3)
      ensures this.position == position && target == Origin
    {
      this.position := position;
      target := Origin;
    }

    /** Keeps the camera at a fixed offset from the body, looking at it. */
    method Follow(pos: Vec3, offset: Vec3)
      modifies this
      ensures position == Add(pos, offset) && target == pos
    {
      position := Vec3(pos.x + offset.x, pos.y + offset.y, pos.z + offset.z);
      target := pos;
    }
  }

  /** The player model's imperative handle, seen from the controller: the `setAnimation` calls it received. */
  class AnimationHandle {
    var requests: seq<MoveState>

    constructor ()
      ensures requests == []
    {
      requests := [];
    }
  }

  /** Where both controllers put the body when they mount. */
  const Spawn: Vec3 := Vec3(0.0, 0.0, -47.0)

  /** The spawn effect: the body (when it exists) moves to the spawn point; the camera sits 3 up and 6 behind it, looking at it. */
  method PlaceAtSpawn(body: RigidBody?, camera: Camera)
    modifies body, camera
    ensures body != null ==> body.translation == Spawn && body.linvel == old(body.linvel)
    ensures camera.position == Vec3(Spawn.x, Spawn.y + 3.0, Spawn.z + 6.0) && camera.target == Spawn
  {
    if body != null {
      body.translation := Spawn;
    }
    camera.position := Vec3(Spawn.x, Spawn.y + 3.0, Spawn.z + 6.0);
    camera.target := Spawn;
  }

  /**
   * The pointer-drag refs and their three listeners: `isDown` and the
   * pointer's offset from the canvas centre (`screenVec`).
   */
  class PointerDrag {
    var isDown: bool
    var screenX: real
    var screenY: real

    constructor ()
      ensures !isDown && screenX == 0.0 && screenY == 0.0
    {
      isDown := false;
      screenX, screenY := 0.0, 0.0;
    }

    /** `pointerdown`: the drag starts and records the pointer's offset from the canvas centre. */
    method PointerDown(clientX: real, clientY: real, width: real, height: real)
      modifies this
      ensures isDown && screenX == clientX - width * 0.5 && screenY == clientY - height * 0.5
    {
      isDown := true;
      PointerMove(clientX, clientY, width, height);
    }

    /** `pointermove`: overwrites the offset while the pointer is down, and is ignored otherwise. */
    method PointerMove(clientX: real, clientY: real, width: real, height: real)
      modifies this`screenX, this`screenY
      ensures old(isDown) ==> screenX == clientX - width * 0.5 && screenY == clientY - height * 0.5
      ensures !old(isDown) ==> screenX == old(screenX) && screenY == old(screenY)
    {
      if !isDown {
        return;
      }
      screenX := clientX - width * 0.5;
      screenY := clientY - height * 0.5;
    }

    /** `pointerup`: the drag ends; the last offset stays. */
    method PointerUp()
      modifies this`isDown
      ensures !isDown
    {
      isDown := false;
    }

  }
}
