/**
 * The welcome character (src/components/Character.tsx): the same scene
 * handling as the character model, its own clip table, and a selection
 * effect that plays the first clip at once and cross-fades between later
 * ones.
 */
module Character {
  import opened Animation
  import opened Scene
  import opened CharacterModel

  /** `FADE`: the cross-fade time. */
  const FadeTime: real := 0.25

  /** This component's table: the same faces as the model's, at its own speeds. */
  function CharacterLook(c: ClipName): Look {
    match c
    case Idle => Look(Open, 0.7)
    case Clap => Look(Closed, 0.8)
    case Wave => Look(Closed, 0.8)
    case Talking1 => Look(Open, 0.6)
    case Talking2 => Look(Closed, 0.6)
    case Talking3 => Look(Open, 0.6)
    case Twerk => Look(Open, 0.5)
  }

  /**
   * Both tables pair every clip with the same mouth; this one plays every
   * clip at least as fast, strictly faster except the third talking clip and
   * twerk.
   */
  lemma TablesShareFaces(c: ClipName)
    ensures CharacterLook(c).face == ModelLook(c).face
    ensures c !in {Talking3, Twerk} ==> CharacterLook(c).speed > ModelLook(c).speed
    ensures c in {Talking3, Twerk} ==> CharacterLook(c).speed == ModelLook(c).speed
  {
  }

  class Character {
    /** The scene, actions, textures, mixer and head, handled as in the character model. */
    const rig: Handle
    /** `prevActionRef.current`. */
    var prev: Action?

    constructor (rig: Handle)
      ensures this.rig == rig && prev == null
    {
      this.rig := rig;
      prev := null;
    }

    ghost predicate Valid()
      reads this
    {
      rig.look == CharacterLook && (prev != null ==> prev in rig.actions.Values)
    }

    /**
     * The selection effect for clip c. A clip without an action changes
     * nothing. The first selection plays its clip where it stands: enabled,
     * at full weight with any fade cancelled, at the table speed, with no
     * reset. Reselecting the previous clip changes nothing. A switch
     * restarts the new clip at full weight and its speed, fading it in while
     * the previous one fades out over the same `FadeTime` seconds; no other
     * action changes. Whenever a clip starts, the face is retextured with
     * its texture (the other face texture untouched) and it becomes the
     * previous one; when nothing starts, the face and both textures are as
     * they were.
     */
    method Select(c: ClipName)
      requires Valid()
      modifies this`prev, rig.actions.Values, rig.FaceMaterials(), rig.openTex, rig.closedTex
      ensures Valid()
      ensures var info := rig.Clip(c);
              && (info.action == null || info.action == old(prev) ==>
                    && prev == old(prev)
                    && (forall b :: b in rig.actions.Values ==> b.st == old(b.st))
                    && Snapshot(rig.FaceMaterials()) == old(Snapshot(rig.FaceMaterials()))
                    && rig.openTex.version == old(rig.openTex.version)
                    && rig.closedTex.version == old(rig.closedTex.version))
              && (info.action != null && old(prev) == null ==>
                    && prev == info.action
                    && info.action.st == old(info.action.st).(scheduled := true, enabled := true, weight := 1.0,
                                                              fade := Steady, timeScale := info.speed)
                    && (forall b :: b in rig.actions.Values && b != info.action ==> b.st == old(b.st)))
              && (info.action != null && old(prev) != null && info.action != old(prev) ==>
                    && prev == info.action
                    && info.action.st == old(info.action.st).(scheduled := true, enabled := true, time := 0.0,
                                                              weight := 1.0, fade := FadingIn(FadeTime), timeScale := info.speed)
                    && old(prev).st == FadeOutState(old(prev.st), FadeTime)
                    && (forall b :: b in rig.actions.Values && b != info.action && b != old(prev) ==> b.st == old(b.st)))
              && (info.action != null && info.action != old(prev) ==>
                    && rig.ShowsFace(info.tex)
                    && Retextured(old(Snapshot(rig.FaceMaterials())), Snapshot(rig.FaceMaterials()),
                                  info.tex, old(info.tex.version), info.tex.version)
                    && (rig.openTex != info.tex ==> rig.openTex.version == old(rig.openTex.version))
                    && (rig.closedTex != info.tex ==> rig.closedTex.version == old(rig.closedTex.version)))
    {
      var info := rig.Clip(c);
      var next := info.action;
      if next == null {
        return;
      }
      if prev == null {
        Begin(info);
        return;
      }
      if prev == next {
        return;
      }
      SwitchTo(info);
    }

    /**
     * The first selection of a clip with an action: it plays where it
     * stands (enabled, full weight, table speed, no reset), the face is
     * retextured with its texture, and it becomes the previous action.
     */
    method Begin(info: ClipInfo)
      requires Valid() && prev == null && info.action != null && info.action in rig.actions.Values
      modifies this`prev, info.action, rig.FaceMaterials(), info.tex
      ensures Valid() && prev == info.action
      ensures info.action.st == old(info.action.st).(scheduled := true, enabled := true, weight := 1.0,
                                                     fade := Steady, timeScale := info.speed)
      ensures rig.ShowsFace(info.tex)
      ensures Retextured(old(Snapshot(rig.FaceMaterials())), Snapshot(rig.FaceMaterials()), info.tex, old(info.tex.version), info.tex.version)
    {
      var next := info.action;
      PlayAsIs(next, info.speed);
      assert Snapshot(rig.FaceMaterials()) == old(Snapshot(rig.FaceMaterials()));
      rig.SetFace(info.tex);
      prev := next;
    }

    /**
     * A switch to a clip other than the previous one: the new clip restarts
     * at full weight and its speed, fading in while the previous one fades
     * out, the face is retextured with its texture, and it becomes the
     * previous action.
     */
    method SwitchTo(info: ClipInfo)
      requires Valid() && prev != null && info.action != null && info.action != prev
      requires info.action in rig.actions.Values
      modifies this`prev, info.action, prev, rig.FaceMaterials(), info.tex
      ensures Valid() && prev == info.action
      ensures info.action.st == old(info.action.st).(scheduled := true, enabled := true, time := 0.0,
                                                     weight := 1.0, fade := FadingIn(FadeTime), timeScale := info.speed)
      ensures old(prev).st == FadeOutState(old(prev.st), FadeTime)
      ensures rig.ShowsFace(info.tex)
      ensures Retextured(old(Snapshot(rig.FaceMaterials())), Snapshot(rig.FaceMaterials()), info.tex, old(info.tex.version), info.tex.version)
    {
      var next := info.action;
      CrossFade(prev, next, info.speed);
      assert Snapshot(rig.FaceMaterials()) == old(Snapshot(rig.FaceMaterials()));
      rig.SetFace(info.tex);
      prev := next;
    }
  }

  /** The chain `next.enabled = true; setEffectiveWeight(1); timeScale = speed; play()`. */
  method PlayAsIs(next: Action, speed: real)
    modifies next
    ensures next.st == old(next.st).(scheduled := true, enabled := true, weight := 1.0, fade := Steady, timeScale := speed)
  {
    next.Enable();
    next.SetEffectiveWeight(1.0);
    next.SetTimeScale(speed);
    next.Play();
  }

  /**
   * The chain `next.reset(); enabled = true; timeScale = speed;
   * setEffectiveWeight(1); prev.crossFadeTo(next, FADE, false); next.play()`.
   */
  method CrossFade(prev: Action, next: Action, speed: real)
    requires prev != next
    modifies prev, next
    ensures next.st == old(next.st).(scheduled := true, enabled := true, time := 0.0,
                                   weight := 1.0, fade := FadingIn(FadeTime), timeScale := speed)
    ensures prev.st == FadeOutState(old(prev.st), FadeTime)
  {
    next.Reset();
    next.Enable();
    next.SetTimeScale(speed);
    next.SetEffectiveWeight(1.0);
    prev.CrossFadeTo(next, FadeTime);
    next.Play();
  }
}
