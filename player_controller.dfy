/**
 * The player controller: pointer-drag state, the per-frame tick that
 * classifies the drag, asks for a new animation on a change of state,
 * picks the footstep channel from the stone mask, drives the rigid body's
 * velocity and places the camera at a fixed offset from the body.
 * The physics body, the camera and the animation handle are abstract
 * objects holding only what the tick reads and writes.
 */
module PlayerController {
  import opened Wrappers
  import opened Motion
  import opened Masks
  import opened Audio

  /* ---------------------------------------------------------------- surface */

  /** The stone mask covers a 150-unit square centred at (0.6, 4.2) in world x/z. */
  const MaskSize: real := 150.0
  const OffsetX: real := 0.6
  const OffsetZ: real := 4.2

  function StoneU(x: real): real {
    (x - OffsetX) / MaskSize + 0.5
  }

  function StoneV(z: real): real {
    (z - OffsetZ) / MaskSize + 0.5
  }

  /**
   * `sampleStone`: the mask's red level under world (x, z), and 0 both
   * while the mask is not loaded and outside the area it covers.
   */
  function SampleStone(mask: Option<Image>, x: real, z: real): (s: real)
    ensures 0.0 <= s <= 1.0
    ensures mask.None? ==> s == 0.0
    ensures !InUnitSquare(StoneU(x), StoneV(z)) ==> s == 0.0
    ensures mask.Some? && InUnitSquare(StoneU(x), StoneV(z)) ==> s == RedAt(mask.value, StoneU(x), StoneV(z))
  {
    if mask.None? then 0.0
    else
      var u := StoneU(x);
      var v := StoneV(z);
      if u < 0.0 || u > 1.0 || v < 0.0 || v > 1.0 then 0.0
      else RedAt(mask.value, u, v)
  }

  /** Footsteps sound on stone where the sample is below one half. */
  predicate OnStone(mask: Option<Image>, x: real, z: real) {
    SampleStone(mask, x, z) < 0.5
  }

  /**
   * The "no data" value 0 falls on the stone side of the test: with no mask
   * loaded, or off the mask, the player hears stone.
   */
  lemma NoDataSoundsLikeStone(mask: Option<Image>, x: real, z: real)
    requires mask.None? || !InUnitSquare(StoneU(x), StoneV(z))
    ensures OnStone(mask, x, z)
  {
  }

  /** On the mask, stone means a pixel darker than one half, and the converse. */
  lemma OnStoneOnMask(img: Image, x: real, z: real)
    requires InUnitSquare(StoneU(x), StoneV(z))
    ensures OnStone(Some(img), x, z) <==> RedAt(img, StoneU(x), StoneV(z)) < 0.5
  {
  }

  /* ---------------------------------------------------------------- footsteps */

  /** The play/pause call each channel gets, branch by branch as the tick issues them. */
  function FootstepCommand(desired: MoveState, onStone: bool, c: Channel): Command {
    match desired
    case Run =>
      if onStone then
        (match c case StoneWalk => PauseCmd case StoneRun => PlayCmd
                 case GrassWalk => PauseCmd case GrassRun => PauseCmd)
      else
        (match c case StoneWalk => PauseCmd case StoneRun => PauseCmd
                 case GrassWalk => PauseCmd case GrassRun => PlayCmd)
    case Walk =>
      if onStone then
        (match c case StoneWalk => PlayCmd case StoneRun => PauseCmd
                 case GrassWalk => PauseCmd case GrassRun => PauseCmd)
      else
        (match c case StoneWalk => PauseCmd case StoneRun => PauseCmd
                 case GrassWalk => PlayCmd case GrassRun => PauseCmd)
    case Idle => PauseCmd
  }

  /**
   * The table plays exactly the intended channel (run or walk, stone or
   * grass) and pauses the other three; when idle it pauses all four.
   */
  lemma FootstepTablePlaysIntended(desired: MoveState, onStone: bool, c: Channel)
    ensures FootstepCommand(desired, onStone, c) == PlayCmd <==>
              Intended(desired != Idle, desired == Run, onStone) == Some(c)
  {
  }

  /** At most one channel is told to play in a tick. */
  lemma AtMostOneFootstep(desired: MoveState, onStone: bool, c1: Channel, c2: Channel)
    requires FootstepCommand(desired, onStone, c1) == PlayCmd
    requires FootstepCommand(desired, onStone, c2) == PlayCmd
    ensures c1 == c2
  {
  }

  /** The four channels after one tick's calls. */
  function StepFootsteps(fs: FootstepStates, desired: MoveState, onStone: bool, now: real): FootstepStates {
    FootstepStates(
      Apply(FootstepCommand(desired, onStone, GrassWalk), fs.grassWalk, now),
      Apply(FootstepCommand(desired, onStone, GrassRun), fs.grassRun, now),
      Apply(FootstepCommand(desired, onStone, StoneWalk), fs.stoneWalk, now),
      Apply(FootstepCommand(desired, onStone, StoneRun), fs.stoneRun, now))
  }

  /** After a tick's calls, a channel plays if and only if it is the intended one, whatever played before. */
  lemma {:induction false} OnlyIntendedPlays(fs: FootstepStates, desired: MoveState, onStone: bool, now: real, c: Channel)
    ensures StepFootsteps(fs, desired, onStone, now).Get(c).IsPlaying() <==>
              Intended(desired != Idle, desired == Run, onStone) == Some(c)
  {
    FootstepTablePlaysIntended(desired, onStone, c);
  }

  /**
   * The footstep branch of the tick: the play and pause calls in the order
   * the source makes them.
   */
  method PlayFootsteps(sounds: Footsteps, desired: MoveState, onStone: bool, now: real)
    requires sounds.Ready() && sounds.Distinct()
    modifies sounds.grassWalk, sounds.grassRun, sounds.stoneWalk, sounds.stoneRun
    ensures sounds.States() == StepFootsteps(old(sounds.States()), desired, onStone, now)
  {
    var gw, gr, sw, sr := sounds.grassWalk, sounds.grassRun, sounds.stoneWalk, sounds.stoneRun;
    if desired == Run {
      if onStone {
        sw.Pause(now); sr.Play(now); gw.Pause(now); gr.Pause(now);
      } else {
        sw.Pause(now); sr.Pause(now); gw.Pause(now); gr.Play(now);
      }
    } else if desired == Walk {
      if onStone {
        sw.Play(now); sr.Pause(now); gw.Pause(now); gr.Pause(now);
      } else {
        sw.Pause(now); sr.Pause(now); gw.Play(now); gr.Pause(now);
      }
    } else {
      sw.Pause(now); sr.Pause(now); gw.Pause(now); gr.Pause(now);
    }
  }

  /* ---------------------------------------------------------------- the frame decision */

  const Defaults: Config := Config(4.0, 8.0, 180.0, Vec3(0.0, 12.0, 17.0))

  /** What one tick decides, from the drag state, the stored state, the mask and the body. */
  datatype Decision = Decision(
    desired: MoveState,
    speed: real,
    request: Option<MoveState>,
    onStone: bool,
    velocity: Vec3,
    camera: Vec3)

  /** The velocity written: horizontal `dir * speed` keeping the current fall speed, or all zero. */
  function PlayerVelocity(speed: real, dir: Vec3, current: Vec3): Vec3 {
    if speed > 0.0 then Vec3(dir.x * speed, current.y, dir.z * speed) else Origin
  }

  function Decide(cfg: Config, isDown: bool, sx: real, sy: real, stored: MoveState,
                  mask: Option<Image>, pos: Vec3, vel: Vec3,
                  right: Vec3, forward: Vec3, normalize: Vec3 -> Vec3): Decision
  {
    var desired := Classify(isDown, sx, sy, cfg.radius);
    var speed := SpeedFor(desired, cfg.walkSpeed, cfg.runSpeed);
    var dir := Heading(desired, right, forward, sx, sy, normalize);
    Decision(desired, speed, AnimationRequest(stored, desired), OnStone(mask, pos.x, pos.z),
             PlayerVelocity(speed, dir, vel), Add(pos, cfg.camOffset))
  }

  /** Pointer up, or a drag within the dead zone: Idle, no speed, and every velocity component zeroed. */
  lemma IdleStops(cfg: Config, isDown: bool, sx: real, sy: real, stored: MoveState,
                  mask: Option<Image>, pos: Vec3, vel: Vec3, right: Vec3, forward: Vec3, normalize: Vec3 -> Vec3)
    requires !isDown || sx * sx + sy * sy <= 4.0
    ensures var d := Decide(cfg, isDown, sx, sy, stored, mask, pos, vel, right, forward, normalize);
            d.desired == Idle && d.speed == 0.0 && d.velocity == Origin
  {
  }

  /**
   * A drag between the dead zone and the radius walks; from the radius on it
   * runs. Moving at a positive speed keeps the body's current y velocity
   * (gravity is left alone) and writes the normalised direction times the
   * speed on x and z.
   */
  lemma {:induction false} MovingKeepsFall(cfg: Config, sx: real, sy: real, len: real, stored: MoveState,
                                           mask: Option<Image>, pos: Vec3, vel: Vec3,
                                           right: Vec3, forward: Vec3, normalize: Vec3 -> Vec3)
    requires 0.0 <= len && len * len == sx * sx + sy * sy && len > 2.0
    ensures var d := Decide(cfg, true, sx, sy, stored, mask, pos, vel, right, forward, normalize);
            var dir := normalize(Steer(right, forward, sx, sy));
            && (len < cfg.radius ==> d.desired == Walk && d.speed == cfg.walkSpeed)
            && (len >= cfg.radius ==> d.desired == Run && d.speed == cfg.runSpeed)
            && (d.speed > 0.0 ==> d.velocity == Vec3(dir.x * d.speed, vel.y, dir.z * d.speed))
            && (d.speed <= 0.0 ==> d.velocity == Origin)
  {
    ClassifyMatchesLength(true, sx, sy, len, cfg.radius);
  }

  /** A new animation is requested exactly when the classified state differs from the stored one. */
  lemma RequestOnChangeOnly(cfg: Config, isDown: bool, sx: real, sy: real, stored: MoveState,
                            mask: Option<Image>, pos: Vec3, vel: Vec3, right: Vec3, forward: Vec3, normalize: Vec3 -> Vec3)
    ensures var d := Decide(cfg, isDown, sx, sy, stored, mask, pos, vel, right, forward, normalize);
            (d.request.Some? <==> d.desired != stored) && (d.request.Some? ==> d.request.value == d.desired)
  {
  }

  /* ---------------------------------------------------------------- the component */

  /** The player component's refs: the rigid body, the model's animation handle, the loaded mask, the drag and the stored state. */
  class Controller {
    const cfg: Config
    const camera: Camera
    const drag: PointerDrag
    var body: RigidBody?
    var handle: AnimationHandle?
    var stoneMask: Option<Image>
    var state: MoveState

    constructor (cfg: Config, camera: Camera)
      ensures this.cfg == cfg && this.camera == camera && fresh(drag)
      ensures !drag.isDown && drag.screenX == 0.0 && drag.screenY == 0.0
      ensures body == null && handle == null && stoneMask == None && state == Idle
    {
      this.cfg := cfg;
      this.camera := camera;
      drag := new PointerDrag();
      body := null;
      handle := null;
      stoneMask := None;
      state := Idle;
    }

    /**
     * The movement half of a frame, before the footsteps: the stored state
     * and the animation request, the body's velocity and the camera, all as
     * Decide says from the state at the start of the frame. `right` and
     * `forward` are the camera's flattened unit axes and `normalize` is the
     * vector normalisation.
     */
    method Move(right: Vec3, forward: Vec3, normalize: Vec3 -> Vec3) returns (desired: MoveState)
      requires body != null
      modifies this`state, body, camera, handle
      ensures var d := Decide(cfg, drag.isDown, drag.screenX, drag.screenY, old(state), stoneMask,
                              old(body.translation), old(body.linvel), right, forward, normalize);
              && desired == d.desired
              && state == d.desired
              && body.linvel == d.velocity
              && body.translation == old(body.translation)
              && camera.position == d.camera
              && camera.target == old(body.translation)
              && (handle != null ==> handle.requests == old(handle.requests) + (if d.request.Some? then [d.request.value] else []))
    {
      var pos := body.translation;
      var speed, dir;
      desired, speed, dir := Drive(cfg, drag.isDown, drag.screenX, drag.screenY, right, forward, normalize);

      Request(desired);
      Push(speed, dir);
      camera.Follow(pos, cfg.camOffset);
    }

    /** The edge trigger: on a change of state, store it and ask the handle for its clip. */
    method Request(desired: MoveState)
      modifies this`state, handle
      ensures state == desired
      ensures handle != null ==>
                var r := AnimationRequest(old(state), desired);
                handle.requests == old(handle.requests) + (if r.Some? then [r.value] else [])
    {
      if desired != state {
        state := desired;
        if handle != null {
          handle.requests := handle.requests + [desired];
        }
      }
    }

    /** The velocity write: the heading times the speed on x and z keeping the fall, or a full stop. */
    method Push(speed: real, dir: Vec3)
      requires body != null
      modifies body
      ensures body.linvel == PlayerVelocity(speed, dir, old(body.linvel))
      ensures body.translation == old(body.translation)
    {
      var currentVel := body.linvel;
      if speed > 0.0 {
        body.SetLinvel(Vec3(dir.x * speed, currentVel.y, dir.z * speed));
      } else {
        body.SetLinvel(Vec3(0.0, 0.0, 0.0));
      }
    }

    /**
     * One frame. Nothing happens before the body exists. Otherwise the
     * movement half runs, then the four footstep channels get the calls of
     * the branch table for the state just decided and the surface under the
     * body; while any channel is still loading, none of them is touched.
     * `now` is the audio clock.
     */
    method Tick(now: real, right: Vec3, forward: Vec3, normalize: Vec3 -> Vec3, sounds: Footsteps)
      requires sounds.Distinct()
      modifies this`state, body, camera, handle
      modifies sounds.grassWalk, sounds.grassRun, sounds.stoneWalk, sounds.stoneRun
      ensures old(body) == null ==>
                && state == old(state)
                && unchanged(camera)
                && (handle != null ==> unchanged(handle))
                && (sounds.Ready() ==> sounds.States() == old(sounds.States()))
      ensures old(body) != null ==>
                var d := Decide(cfg, drag.isDown, drag.screenX, drag.screenY, old(state), stoneMask,
                                old(body.translation), old(body.linvel), right, forward, normalize);
                && state == d.desired
                && body.linvel == d.velocity
                && body.translation == old(body.translation)
                && camera.position == d.camera
                && camera.target == old(body.translation)
                && (handle != null ==> handle.requests == old(handle.requests) + (if d.request.Some? then [d.request.value] else []))
                && (sounds.Ready() ==> sounds.States() == StepFootsteps(old(sounds.States()), d.desired, d.onStone, now))
      ensures old(body) == null || !sounds.Ready() ==>
                && (sounds.grassWalk != null ==> unchanged(sounds.grassWalk))
                && (sounds.grassRun != null ==> unchanged(sounds.grassRun))
                && (sounds.stoneWalk != null ==> unchanged(sounds.stoneWalk))
                && (sounds.stoneRun != null ==> unchanged(sounds.stoneRun))
    {
      if body == null {
        return;
      }
      var pos := body.translation;
      var desired := Move(right, forward, normalize);
      var onStone := SampleStone(stoneMask, pos.x, pos.z) < 0.5;
      if sounds.Ready() {
        PlayFootsteps(sounds, desired, onStone, now);
      }
    }
  }
}
