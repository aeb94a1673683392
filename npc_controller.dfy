/**
 * The non-player character's controller (src/components/CharacterController.tsx):
 * it starts the idle clip on mount and cross-fades to whatever clip the
 * dialog asks for, remembering the action it last started.
 */
module NpcController {
  import opened Wrappers
  import opened Animation
  import opened Scene
  import opened CharacterModel

  /** `FADE_TIME`: both halves of a switch take this long. */
  const FadeTime: real := 0.5

  /** What `next.reset(); setLoop(LoopRepeat); timeScale = speed; fadeIn(d); play()` leaves. */
  function Restarted(s: ActionState, speed: real, d: real): ActionState {
    PlayState(FadeInState(ResetState(s).(loop := LoopRepeat, timeScale := speed), d))
  }

  /**
   * The restarted clip runs from the beginning, enabled, repeating, at its
   * table speed and fading in; only its weight carries over.
   */
  lemma RestartedRunsFromStart(s: ActionState, speed: real, d: real)
    ensures var r := Restarted(s, speed, d);
            && r.scheduled && r.enabled && r.time == 0.0 && r.loop == LoopRepeat
            && r.timeScale == speed && r.fade == FadingIn(d) && r.weight == s.weight
  {
  }

  /** The chain `next.reset(); setLoop(LoopRepeat); timeScale = speed; fadeIn(FADE_TIME); play()`. */
  method Restart(next: Action, speed: real)
    modifies next
    ensures next.st == Restarted(old(next.st), speed, FadeTime)
  {
    next.Reset();
    next.SetLoopRepeat();
    next.SetTimeScale(speed);
    next.FadeIn(FadeTime);
    next.Play();
  }

  /** The chain `a.reset(); setLoop(LoopRepeat); timeScale = speed; play()`. */
  method Begin(a: Action, speed: real)
    modifies a
    ensures a.st == PlayState(ResetState(old(a.st)).(loop := LoopRepeat, timeScale := speed))
  {
    a.Reset();
    a.SetLoopRepeat();
    a.SetTimeScale(speed);
    a.Play();
  }

  /** The action half of a switch: next restarts, and the previous action (if any) fades out. */
  method Switch(next: Action, prev: Action?, speed: real)
    requires next != prev
    modifies next, prev
    ensures next.st == Restarted(old(next.st), speed, FadeTime)
    ensures prev != null ==> prev.st == FadeOutState(old(prev.st), FadeTime)
  {
    Restart(next, speed);
    if prev != null {
      prev.FadeOut(FadeTime);
    }
  }

  class Controller {
    /** `modelRef.current`. */
    const model: Handle?
    /** `prevRef.current`: the action last started. */
    var prev: Action?

    constructor (model: Handle?)
      ensures this.model == model && prev == null
    {
      this.model := model;
      prev := null;
    }

    /** The remembered action is always one of the model's. */
    ghost predicate Valid()
      reads this
    {
      prev != null ==> model != null && prev in model.actions.Values
    }

    /**
     * The mount effect: with a model whose idle clip exists, idle restarts
     * from the beginning, repeating at its speed, the mixer is evaluated
     * without advancing, the face shows idle's texture and idle becomes the
     * previous action. Otherwise nothing happens.
     */
    method Mount()
      requires Valid()
      modifies this`prev
      modifies if model == null then {} else model.actions.Values + {model.mixer} + model.FaceMaterials() + {model.openTex, model.closedTex}
      ensures Valid()
      ensures model == null ==> prev == old(prev)
      ensures model != null && model.Clip(Idle).action == null ==>
                && prev == old(prev)
                && (forall b :: b in model.actions.Values ==> b.st == old(b.st))
                && model.mixer.time == old(model.mixer.time)
                && Snapshot(model.FaceMaterials()) == old(Snapshot(model.FaceMaterials()))
                && model.openTex.version == old(model.openTex.version)
                && model.closedTex.version == old(model.closedTex.version)
      ensures model != null && model.Clip(Idle).action != null ==>
                var info := model.Clip(Idle);
                var a := info.action;
                && prev == a
                && a.st == PlayState(ResetState(old(a.st)).(loop := LoopRepeat, timeScale := info.speed))
                && (forall b :: b in model.actions.Values && b != a ==> b.st == old(b.st))
                && model.mixer.time == old(model.mixer.time)
                && model.ShowsFace(info.tex)
                && Retextured(old(Snapshot(model.FaceMaterials())), Snapshot(model.FaceMaterials()), info.tex, old(info.tex.version), info.tex.version)
                && (model.openTex != info.tex ==> model.openTex.version == old(model.openTex.version))
                && (model.closedTex != info.tex ==> model.closedTex.version == old(model.closedTex.version))
    {
      if model == null {
        return;
      }
      var info := model.Clip(Idle);
      if info.action == null {
        return;
      }
      StartIdle(info);
    }

    /**
     * The mounting half for an idle clip that exists: it restarts repeating
     * at its speed, the mixer is evaluated without advancing, the face is
     * retextured with idle's texture, and idle becomes the previous action.
     */
    method StartIdle(info: ClipInfo)
      requires model != null && info.action != null && info.action in model.actions.Values
      modifies this`prev, info.action, model.mixer, model.FaceMaterials(), info.tex
      ensures Valid() && prev == info.action
      ensures info.action.st == PlayState(ResetState(old(info.action.st)).(loop := LoopRepeat, timeScale := info.speed))
      ensures model.mixer.time == old(model.mixer.time)
      ensures model.ShowsFace(info.tex)
      ensures Retextured(old(Snapshot(model.FaceMaterials())), Snapshot(model.FaceMaterials()), info.tex, old(info.tex.version), info.tex.version)
    {
      var a := info.action;
      Begin(a, info.speed);
      model.mixer.Update(0.0);
      assert Snapshot(model.FaceMaterials()) == old(Snapshot(model.FaceMaterials()));
      model.SetFace(info.tex);
      prev := a;
    }

    /**
     * The dialog-clip effect. The requested clip is the dialog's, or idle
     * when there is none. Without a model, without an action for the clip,
     * or when it is the previous action already, nothing happens. Otherwise
     * the new clip restarts fading in, the previous one (if any) fades out
     * over the same time, every other action is untouched, the face shows
     * the clip's texture and the new clip becomes the previous one.
     */
    method Select(dialogClip: Option<ClipName>)
      requires Valid()
      modifies this`prev
      modifies if model == null then {} else model.actions.Values + model.FaceMaterials() + {model.openTex, model.closedTex}
      ensures Valid()
      ensures model == null ==> prev == old(prev)
      ensures model != null ==>
                var info := model.Clip(dialogClip.GetOr(Idle));
                && (info.action == null || info.action == old(prev) ==>
                      && prev == old(prev)
                      && (forall b :: b in model.actions.Values ==> b.st == old(b.st))
                      && Snapshot(model.FaceMaterials()) == old(Snapshot(model.FaceMaterials()))
                      && model.openTex.version == old(model.openTex.version)
                      && model.closedTex.version == old(model.closedTex.version))
                && (info.action != null && info.action != old(prev) ==>
                      && prev == info.action
                      && info.action.st == Restarted(old(info.action.st), info.speed, FadeTime)
                      && (old(prev) != null ==> old(prev).st == FadeOutState(old(prev.st), FadeTime))
                      && (forall b :: b in model.actions.Values && b != info.action && b != old(prev) ==> b.st == old(b.st))
                      && model.ShowsFace(info.tex)
                      && Retextured(old(Snapshot(model.FaceMaterials())), Snapshot(model.FaceMaterials()), info.tex, old(info.tex.version), info.tex.version)
                      && (model.openTex != info.tex ==> model.openTex.version == old(model.openTex.version))
                      && (model.closedTex != info.tex ==> model.closedTex.version == old(model.closedTex.version)))
    {
      if model == null {
        return;
      }
      var info := model.Clip(dialogClip.GetOr(Idle));
      if info.action == null {
        return;
      }
      if prev == info.action {
        return;
      }
      SwitchTo(info);
    }

    /**
     * The switching half of the dialog-clip effect, for a clip whose action
     * is not the previous one: the clip restarts fading in, the previous
     * action (if any) fades out over the same time, every other action is
     * untouched, the face is retextured with the clip's texture, and the
     * clip becomes the previous action.
     */
    method SwitchTo(info: ClipInfo)
      requires Valid() && model != null
      requires info.action != null && info.action != prev && info.action in model.actions.Values
      modifies this`prev, model.actions.Values, model.FaceMaterials(), info.tex
      ensures Valid() && prev == info.action
      ensures info.action.st == Restarted(old(info.action.st), info.speed, FadeTime)
      ensures old(prev) != null ==> old(prev).st == FadeOutState(old(prev.st), FadeTime)
      ensures forall b :: b in model.actions.Values && b != info.action && b != old(prev) ==> b.st == old(b.st)
      ensures model.ShowsFace(info.tex) && Retextured(old(Snapshot(model.FaceMaterials())), Snapshot(model.FaceMaterials()), info.tex, old(info.tex.version), info.tex.version)
    {
      var next := info.action;
      Switch(next, prev, info.speed);
      assert Snapshot(model.FaceMaterials()) == old(Snapshot(model.FaceMaterials()));
      model.SetFace(info.tex);
      prev := next;
    }

    /** The controller's own per-frame `mixer.update(dt)`, on top of the model's. */
    method Frame(dt: real)
      modifies if model == null then {} else {model.mixer}
      ensures model != null ==> model.mixer.time == old(model.mixer.time) + dt
    {
      if model != null {
        model.mixer.Update(dt);
      }
    }
  }

  /**
   * With both frame callbacks registered, the character's mixer advances
   * by twice the frame time per frame.
   */
  method FrameBoth(c: Controller, dt: real)
    requires c.model != null
    modifies c.model.mixer
    ensures c.model.mixer.time == old(c.model.mixer.time) + 2.0 * dt
  {
    c.model.Frame(dt);
    c.Frame(dt);
  }
}
