/**
 * The part of three.js's animation system the models drive: an
 * `AnimationAction`'s scheduling, enabled flag, local time, weight, time
 * scale, loop mode and pending fade, and the mixer's clock. The blending
 * itself (weights interpolated as the mixer advances) is not modelled;
 * a fade is recorded as the one the action has been told to perform.
 */
module Animation {

  /** The weight ramp an action has been given: none, up from 0 to 1, or down from 1 to 0, over `duration` seconds. */
  datatype Fade = Steady | FadingIn(duration: real) | FadingOut(duration: real)

  datatype LoopMode = LoopOnce | LoopRepeat

  /** An action's observable state. `scheduled` means the mixer is running it (after `play`, until `stop`). */
  datatype ActionState = ActionState(
    scheduled: bool,
    enabled: bool,
    time: real,
    weight: real,
    timeScale: real,
    loop: LoopMode,
    fade: Fade)

  /** A fresh action: not scheduled, enabled, at time 0, weight 1, speed 1, repeating, no fade. */
  const Initial: ActionState := ActionState(false, true, 0.0, 1.0, 1.0, LoopRepeat, Steady)

  /** `reset()`: enabled again, back to time 0, any fade cancelled; scheduling, weight, speed and loop mode kept. */
  function ResetState(s: ActionState): ActionState {
    s.(enabled := true, time := 0.0, fade := Steady)
  }

  /** `play()`: the mixer schedules the action. */
  function PlayState(s: ActionState): ActionState {
    s.(scheduled := true)
  }

  /** `stop()`: the mixer unschedules the action, and it is reset. */
  function StopState(s: ActionState): ActionState {
    ResetState(s.(scheduled := false))
  }

  function FadeInState(s: ActionState, d: real): ActionState {
    s.(fade := FadingIn(d))
  }

  function FadeOutState(s: ActionState, d: real): ActionState {
    s.(fade := FadingOut(d))
  }

  /** `setEffectiveWeight(w)`: the weight is set and any fade is cancelled. */
  function WeightState(s: ActionState, w: real): ActionState {
    s.(weight := w, fade := Steady)
  }

  /**
   * `reset().fadeIn(d).play()` starts a clip from the beginning, fading in,
   * whatever it was doing before; only its weight, time scale and loop mode
   * carry over.
   */
  lemma RestartFadingIn(s: ActionState, d: real)
    ensures var r := PlayState(FadeInState(ResetState(s), d));
            && r.scheduled && r.enabled && r.time == 0.0 && r.fade == FadingIn(d)
            && r.weight == s.weight && r.timeScale == s.timeScale && r.loop == s.loop
  {
  }

  /** Stopping first changes nothing about the restart but the scheduling it clears and `play` sets again. */
  lemma StopBeforeRestart(s: ActionState, d: real)
    ensures PlayState(FadeInState(ResetState(StopState(s)), d)) == PlayState(FadeInState(ResetState(s), d))
  {
  }

  /** Resetting is idempotent. */
  lemma ResetIdempotent(s: ActionState)
    ensures ResetState(ResetState(s)) == ResetState(s)
  {
  }

  /** A three.js `AnimationAction` bound to one clip. */
  class Action {
    const clip: string
    var st: ActionState

    constructor (clip: string)
      ensures this.clip == clip && st == Initial
    {
      this.clip := clip;
      st := Initial;
    }

    method Reset()
      modifies this
      ensures st == ResetState(old(st))
    {
      st := ResetState(st);
    }

    method Play()
      modifies this
      ensures st == PlayState(old(st))
    {
      st := PlayState(st);
    }

    method Stop()
      modifies this
      ensures st == StopState(old(st))
    {
      st := StopState(st);
    }

    method FadeIn(d: real)
      modifies this
      ensures st == FadeInState(old(st), d)
    {
      st := FadeInState(st, d);
    }

    method FadeOut(d: real)
      modifies this
      ensures st == FadeOutState(old(st), d)
    {
      st := FadeOutState(st, d);
    }

    method SetEffectiveWeight(w: real)
      modifies this
      ensures st == WeightState(old(st), w)
    {
      st := WeightState(st, w);
    }

    /** `setLoop(LoopRepeat, Infinity)`. */
    method SetLoopRepeat()
      modifies this
      ensures st == old(st).(loop := LoopRepeat)
    {
      st := st.(loop := LoopRepeat);
    }

    /** `action.timeScale = k`. */
    method SetTimeScale(k: real)
      modifies this
      ensures st == old(st).(timeScale := k)
    {
      st := st.(timeScale := k);
    }

    /** `action.enabled = true`. */
    method Enable()
      modifies this
      ensures st == old(st).(enabled := true)
    {
      st := st.(enabled := true);
    }

    /** The chain `reset().fadeIn(d).play()`: restart from the beginning, fading in over d seconds. */
    method ResetFadeInPlay(d: real)
      modifies this
      ensures st == PlayState(FadeInState(ResetState(old(st)), d))
    {
      Reset();
      FadeIn(d);
      Play();
    }

    /**
     * `crossFadeTo(next, d, false)`: this action fades out and `next` fades
     * in, over the same d seconds, without time warping.
     */
    method CrossFadeTo(next: Action, d: real)
      requires next != this
      modifies this, next
      ensures st == FadeOutState(old(st), d)
      ensures next.st == FadeInState(old(next.st), d)
    {
      FadeOut(d);
      next.FadeIn(d);
    }
  }

  /** No action occurs twice: each clip has its own action object. */
  ghost predicate Distinct(actions: seq<Action>) {
    forall i, j :: 0 <= i < j < |actions| ==> actions[i] != actions[j]
  }

  /** `Object.values(actions).forEach(a => a?.fadeOut(d))`: every action is told to fade out. */
  method FadeOutAll(actions: seq<Action>, d: real)
    requires Distinct(actions)
    modifies set a | a in actions
    ensures forall i :: 0 <= i < |actions| ==> actions[i].st == FadeOutState(old(actions[i].st), d)
  {
    var i := 0;
    while i < |actions|
      invariant 0 <= i <= |actions|
      invariant forall j :: 0 <= j < i ==> actions[j].st == FadeOutState(old(actions[j].st), d)
      invariant forall j :: i <= j < |actions| ==> actions[j].st == old(actions[j].st)
    {
      actions[i].FadeOut(d);
      i := i + 1;
    }
  }

  /** `forEach(({action}) => action?.stop())`: every action present is stopped. */
  method StopAll(actions: seq<Action?>)
    requires forall i, j :: 0 <= i < j < |actions| && actions[i] != null ==> actions[i] != actions[j]
    modifies set a | a in actions && a != null
    ensures forall i :: 0 <= i < |actions| && actions[i] != null ==> actions[i].st == StopState(old(actions[i].st))
  {
    var i := 0;
    while i < |actions|
      invariant 0 <= i <= |actions|
      invariant forall j :: 0 <= j < i && actions[j] != null ==> actions[j].st == StopState(old(actions[j].st))
      invariant forall j :: i <= j < |actions| && actions[j] != null ==> actions[j].st == old(actions[j].st)
    {
      if actions[i] != null {
        actions[i].Stop();
      }
      i := i + 1;
    }
  }

  /** The `AnimationMixer`'s clock. */
  class Mixer {
    var time: real

    constructor ()
      ensures time == 0.0
    {
      time := 0.0;
    }

    /** `mixer.update(dt)`: the mixer's time advances by dt. */
    method Update(dt: real)
      modifies this
      ensures time == old(time) + dt
    {
      time := time + dt;
    }
  }
}
