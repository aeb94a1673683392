/**
 * The earlier player controller (Bob): the same drag classification and
 * animation edge as the later one, a run radius of 250, no footsteps, and
 * a velocity whose y component is always written as 0.
 */
module BobController {
  import opened Wrappers
  import opened Motion

  const Defaults: Config := Config(4.0, 8.0, 250.0, Vec3(0.0, 12.0, 17.0))

  /** The velocity written: horizontal `dir * speed` with y forced to 0 while moving, all zero otherwise. */
  function BobVelocity(speed: real, dir: Vec3): Vec3 {
    if speed > 0.0 then Vec3(dir.x * speed, 0.0, dir.z * speed) else Origin
  }

  /** What one tick decides: the state, the speed, the animation request, the velocity and the camera position. */
  datatype Decision = Decision(desired: MoveState, speed: real, request: Option<MoveState>, velocity: Vec3, camera: Vec3)

  function Decide(cfg: Config, isDown: bool, sx: real, sy: real, stored: MoveState, pos: Vec3,
                  right: Vec3, forward: Vec3, normalize: Vec3 -> Vec3): Decision
  {
    var desired := Classify(isDown, sx, sy, cfg.radius);
    var speed := SpeedFor(desired, cfg.walkSpeed, cfg.runSpeed);
    Decision(desired, speed, AnimationRequest(stored, desired),
             BobVelocity(speed, Heading(desired, right, forward, sx, sy, normalize)), Add(pos, cfg.camOffset))
  }

  /**
   * Bob never moves vertically on his own: the y velocity written is 0 in
   * every frame, moving or not, whatever the body was doing before.
   */
  lemma NoVerticalDrive(cfg: Config, isDown: bool, sx: real, sy: real, stored: MoveState, pos: Vec3,
                        right: Vec3, forward: Vec3, normalize: Vec3 -> Vec3)
    ensures Decide(cfg, isDown, sx, sy, stored, pos, right, forward, normalize).velocity.y == 0.0
  {
  }

  /**
   * With the default radius of 250: idle up to a drag of 2 pixels, walking
   * below 250 and running from 250 on; the velocity is zero exactly when idle
   * at the default speeds, and otherwise the heading scaled by the speed.
   */
  lemma {:induction false} DefaultClassification(isDown: bool, sx: real, sy: real, len: real, stored: MoveState, pos: Vec3,
                                                 right: Vec3, forward: Vec3, normalize: Vec3 -> Vec3)
    requires 0.0 <= len && len * len == sx * sx + sy * sy
    ensures var d := Decide(Defaults, isDown, sx, sy, stored, pos, right, forward, normalize);
            var dir := normalize(Steer(right, forward, sx, sy));
            && ((!isDown || len <= 2.0) <==> d.desired == Idle)
            && (isDown && 2.0 < len < 250.0 <==> d.desired == Walk)
            && (isDown && len >= 250.0 <==> d.desired == Run)
            && (d.desired == Idle ==> d.speed == 0.0 && d.velocity == Origin)
            && (d.desired != Idle ==> d.velocity == Vec3(dir.x * d.speed, 0.0, dir.z * d.speed))
  {
    ClassifyMatchesLength(isDown, sx, sy, len, Defaults.radius);
  }

  /** Bob's component refs: the body, the model handle, the drag and the stored state. */
  class Controller {
    const cfg: Config
    const camera: Camera
    const drag: PointerDrag
    var body: RigidBody?
    var handle: AnimationHandle?
    var state: MoveState

    constructor (cfg: Config, camera: Camera)
      ensures this.cfg == cfg && this.camera == camera && fresh(drag)
      ensures !drag.isDown && drag.screenX == 0.0 && drag.screenY == 0.0
      ensures body == null && handle == null && state == Idle
    {
      this.cfg := cfg;
      this.camera := camera;
      drag := new PointerDrag();
      body := null;
      handle := null;
      state := Idle;
    }

    /**
     * One frame. Nothing happens before the body exists. Otherwise the
     * stored state, the animation handle, the body's velocity and the
     * camera end as Decide says, from the state at the start of the frame.
     */
    method Tick(right: Vec3, forward: Vec3, normalize: Vec3 -> Vec3)
      modifies this`state, body, camera, handle
      ensures old(body) == null ==>
                state == old(state) && unchanged(camera) && (handle != null ==> unchanged(handle))
      ensures old(body) != null ==>
                var d := Decide(cfg, drag.isDown, drag.screenX, drag.screenY, old(state),
                                old(body.translation), right, forward, normalize);
                && state == d.desired
                && body.linvel == d.velocity
                && body.translation == old(body.translation)
                && camera.position == d.camera
                && camera.target == old(body.translation)
                && (handle != null ==> handle.requests == old(handle.requests) + (if d.request.Some? then [d.request.value] else []))
    {
      if body == null {
        return;
      }
      var pos := body.translation;
      var desired, speed, dir := Drive(cfg, drag.isDown, drag.screenX, drag.screenY, right, forward, normalize);

      if desired != state {
        state := desired;
        if handle != null {
          handle.requests := handle.requests + [desired];
        }
      }

      if speed > 0.0 {
        body.SetLinvel(Vec3(dir.x * speed, 0.0, dir.z * speed));
      } else {
        body.SetLinvel(Vec3(0.0, 0.0, 0.0));
      }
      camera.Follow(pos, cfg.camOffset);
    }
  }
}
