/**
 * The portfolio owner's avatar (src/components/Me.tsx): unlit materials
 * copied from the file's, a head found among plain meshes only, two clips,
 * and a selection effect that stops everything before starting the chosen
 * clip and swapping the face.
 */
module Me {
  import opened Animation
  import opened Scene
  import opened Names

  /** This component's two clips. */
  datatype Clip = Idle | Clap

  /** The face fade: `fadeIn(0.25)`. */
  const FadeTime: real := 0.25

  class Avatar {
    const scene: seq<Object3D>
    const headName: string
    const idleAction: Action?
    const clapAction: Action?
    const openTex: Texture
    const closedTex: Texture
    const mixer: Mixer
    var head: Object3D?

    constructor (scene: seq<Object3D>, headName: string, idleAction: Action?, clapAction: Action?,
                 openTex: Texture, closedTex: Texture)
      ensures this.scene == scene && this.headName == headName
      ensures this.idleAction == idleAction && this.clapAction == clapAction
      ensures this.openTex == openTex && this.closedTex == closedTex
      ensures fresh(mixer) && head == null
    {
      this.scene := scene;
      this.headName := headName;
      this.idleAction := idleAction;
      this.clapAction := clapAction;
      this.openTex := openTex;
      this.closedTex := closedTex;
      mixer := new Mixer();
      head := null;
    }

    /** `clips[c].action`: idle goes with the open mouth, clap with the closed one. */
    function Action(c: Clip): Action? {
      match c
      case Idle => idleAction
      case Clap => clapAction
    }

    function Texture(c: Clip): (t: Texture)
      ensures t == openTex <== c == Idle
      ensures t == closedTex <== c == Clap
    {
      match c
      case Idle => openTex
      case Clap => closedTex
    }

    /** The two clips are different animations, so their actions differ when both exist. */
    ghost predicate Valid()
      reads this
    {
      idleAction != null ==> idleAction != clapAction
    }

    /**
     * The two mount effects, in order: every mesh gets a fresh material
     * copied from its own, then the head reference becomes the last plain
     * mesh (skinned ones never qualify) whose name contains the head name.
     */
    method Setup()
      requires DistinctNodes(scene)
      modifies this`head, set o | o in scene
      ensures head == LastHead(scene, headName, PlainMesh, old(head))
      ensures forall i :: 0 <= i < |scene| && IsMesh(scene[i]) ==>
                && scene[i].material.One? && fresh(scene[i].material.m)
                && scene[i].material.m.props == CopiedProps(SlotProps(old(scene[i].material)), scene[i].kind == SkinnedMeshNode)
      ensures forall i :: 0 <= i < |scene| && !IsMesh(scene[i]) ==> scene[i].material == old(scene[i].material)
    {
      var i := 0;
      while i < |scene|
        invariant 0 <= i <= |scene|
        invariant forall j :: 0 <= j < i && IsMesh(scene[j]) ==>
                    && scene[j].material.One? && fresh(scene[j].material.m)
                    && scene[j].material.m.props == CopiedProps(SlotProps(old(scene[j].material)), scene[j].kind == SkinnedMeshNode)
        invariant forall j :: 0 <= j < i && !IsMesh(scene[j]) ==> scene[j].material == old(scene[j].material)
        invariant forall j :: i <= j < |scene| ==> scene[j].material == old(scene[j].material)
        invariant head == old(head)
      {
        var o := scene[i];
        if IsMesh(o) {
          var mat := new Material(CopiedProps(SlotProps(o.material), o.kind == SkinnedMeshNode));
          o.material := One(mat);
        }
        i := i + 1;
      }
      head := FindHead(scene, headName, PlainMesh, head);
    }

    /**
     * The selection effect for clip c: both clips' actions (where they
     * exist) are stopped, then c's restarts from the beginning fading in.
     * With a head holding a single material that shows another texture, that
     * material switches to c's texture and both are marked for update; with
     * the right texture already, or no head, neither is. A head holding a
     * material array gets the texture written onto the array itself, and
     * the texture marked, unless that property already held it.
     */
    method Select(c: Clip)
      requires Valid()
      modifies idleAction, clapAction, Texture(c)
      modifies if head != null && head.material.One? then {head.material.m} else {}
      modifies if head != null && head.material.Many? then {head} else {}
      ensures Action(c) != null ==>
                Action(c).st == PlayState(FadeInState(ResetState(StopState(old(Action(c).st))), FadeTime))
      ensures var other := Action(if c == Idle then Clap else Idle);
              other != null ==> other.st == StopState(old(other.st))
      ensures head == null ==> Texture(c).version == old(Texture(c).version)
      ensures head != null && old(head.material).One? ==>
                var m := head.material.m;
                && head.material == old(head.material)
                && m.props == old(m.props).(texture := TextureMap(Texture(c)))
                && m.version == old(m.version) + (if old(m.props.texture) == TextureMap(Texture(c)) then 0 else 1)
                && Texture(c).version == old(Texture(c).version) + (if old(m.props.texture) == TextureMap(Texture(c)) then 0 else 1)
      ensures head != null && old(head.material).Many? ==>
                && head.material == Many(old(head.material).ms, Texture(c))
                && Texture(c).version == old(Texture(c).version) + (if old(head.material).ownMap == Texture(c) then 0 else 1)
      ensures head != null && old(head.material).NoMaterial? ==>
                head.material == NoMaterial && Texture(c).version == old(Texture(c).version)
    {
      Restart(c);
      ShowFace(c);
    }

    /** The animation half of the effect: stop both clips, then restart the chosen one fading in. */
    method Restart(c: Clip)
      requires Valid()
      modifies idleAction, clapAction
      ensures Action(c) != null ==>
                Action(c).st == PlayState(FadeInState(ResetState(StopState(old(Action(c).st))), FadeTime))
      ensures var other := Action(if c == Idle then Clap else Idle);
              other != null ==> other.st == StopState(old(other.st))
    {
      var both := [idleAction, clapAction];
      StopAll(both);
      assert both[0] == idleAction && both[1] == clapAction;
      var a := Action(c);
      if a != null {
        a.ResetFadeInPlay(FadeTime);
      }
    }

    /**
     * The face half of the effect: the head's single material shows the
     * clip's texture, it and the texture marked for update exactly when it
     * showed another one; a head holding a material array gets the texture
     * as the array's own `map`, marked exactly when that did not hold it yet.
     * Without a head nothing changes.
     */
    method ShowFace(c: Clip)
      modifies Texture(c)
      modifies if head != null && head.material.One? then {head.material.m} else {}
      modifies if head != null && head.material.Many? then {head} else {}
      ensures head == null ==> Texture(c).version == old(Texture(c).version)
      ensures head != null && old(head.material).One? ==>
                var m := head.material.m;
                && head.material == old(head.material)
                && m.props == old(m.props).(texture := TextureMap(Texture(c)))
                && m.version == old(m.version) + (if old(m.props.texture) == TextureMap(Texture(c)) then 0 else 1)
                && Texture(c).version == old(Texture(c).version) + (if old(m.props.texture) == TextureMap(Texture(c)) then 0 else 1)
      ensures head != null && old(head.material).Many? ==>
                && head.material == Many(old(head.material).ms, Texture(c))
                && Texture(c).version == old(Texture(c).version) + (if old(head.material).ownMap == Texture(c) then 0 else 1)
      ensures head != null && old(head.material).NoMaterial? ==>
                head.material == NoMaterial && Texture(c).version == old(Texture(c).version)
    {
      var tex := Texture(c);
      if head != null {
        match head.material
        case One(m) =>
          if m.props.texture != TextureMap(tex) {
            m.props := m.props.(texture := TextureMap(tex));
            tex.version := tex.version + 1;
            m.version := m.version + 1;
          }
        case Many(ms, ownMap) =>
          // `mat.map` on an array reads the property written onto it, or else the array's `map` method.
          if ownMap != tex {
            head.material := Many(ms, tex);
            tex.version := tex.version + 1;
          }
        case NoMaterial =>
      }
    }

    method Frame(dt: real)
      modifies mixer
      ensures mixer.time == old(mixer.time) + dt
    {
      mixer.Update(dt);
    }
  }

  /** Selecting a clip plays it from the start fading in, whatever it was doing; the other one is left stopped. */
  lemma SelectRestarts(s: ActionState, t: ActionState)
    ensures var r := PlayState(FadeInState(ResetState(StopState(s)), FadeTime));
            r.scheduled && r.enabled && r.time == 0.0 && r.fade == FadingIn(FadeTime)
    ensures var o := StopState(t);
            !o.scheduled && o.time == 0.0 && o.fade == Steady
  {
  }
}
