/**
 * The non-player character's model (src/components/CharacterModel.tsx): the
 * clip names, the clip table, and the handle the component exposes. The
 * handle also owns what the component does to its scene: the unlit
 * material conversion, the head lookup and the face-texture setter.
 */
module CharacterModel {
  import opened Scene
  import opened Animation
  import opened Names

  /** The seven clips of the character's GLB. */
  datatype ClipName = Idle | Clap | Wave | Talking1 | Talking2 | Talking3 | Twerk

  /** The clip's name in the file, the key of the `actions` record. */
  function Key(c: ClipName): string {
    match c
    case Idle => "idle"
    case Clap => "clap"
    case Wave => "wave"
    case Talking1 => "talking1"
    case Talking2 => "talking2"
    case Talking3 => "talking3"
    case Twerk => "twerk"
  }

  /** Which face texture goes with a clip. */
  datatype Face = Open | Closed

  /** A clip table row without its action: face texture and playback speed. */
  datatype Look = Look(face: Face, speed: real)

  /** This component's table. */
  function ModelLook(c: ClipName): Look {
    match c
    case Idle => Look(Open, 0.5)
    case Clap => Look(Closed, 0.6)
    case Wave => Look(Closed, 0.5)
    case Talking1 => Look(Open, 0.4)
    case Talking2 => Look(Closed, 0.5)
    case Talking3 => Look(Open, 0.6)
    case Twerk => Look(Open, 0.5)
  }

  /** The mouth is open for idle, the first and third talking clips and twerk, and closed for the other three. */
  lemma ModelFaces(c: ClipName)
    ensures ModelLook(c).face == Open <==> c in {Idle, Talking1, Talking3, Twerk}
    ensures ModelLook(c).face == Closed <==> c in {Clap, Wave, Talking2}
  {
  }

  /** Every clip plays slowed down, at between 0.4 and 0.6 of its authored speed. */
  lemma ModelSpeeds(c: ClipName)
    ensures 0.4 <= ModelLook(c).speed <= 0.6
  {
  }

  /** One entry of the clip table: the clip's action or null, its face texture and its speed. */
  datatype ClipInfo = ClipInfo(action: Action?, tex: Texture, speed: real)

  /**
   * A loaded character: its scene, the head-name rule and tint, its
   * actions keyed by clip name, the two face textures, its mixer, the clip
   * table's looks, and the head reference.
   */
  class Handle {
    const scene: seq<Object3D>
    const headName: string
    const brightness: real
    const actions: map<string, Action>
    const openTex: Texture
    const closedTex: Texture
    const look: ClipName -> Look
    const mixer: Mixer
    var head: Object3D?

    constructor (scene: seq<Object3D>, headName: string, brightness: real, actions: map<string, Action>,
                 openTex: Texture, closedTex: Texture, look: ClipName -> Look)
      ensures this.scene == scene && this.headName == headName && this.brightness == brightness
      ensures this.actions == actions && this.openTex == openTex && this.closedTex == closedTex && this.look == look
      ensures fresh(mixer) && mixer.time == 0.0 && head == null
    {
      this.scene := scene;
      this.headName := headName;
      this.brightness := brightness;
      this.actions := actions;
      this.openTex := openTex;
      this.closedTex := closedTex;
      this.look := look;
      mixer := new Mixer();
      head := null;
    }

    /** `clips[c]`: the action of that name if the file has one, else null; the table's texture and speed. */
    function Clip(c: ClipName): (info: ClipInfo)
      ensures Key(c) in actions ==> info.action == actions[Key(c)]
      ensures Key(c) !in actions ==> info.action == null
      ensures info.tex == if look(c).face == Open then openTex else closedTex
      ensures info.speed == look(c).speed
    {
      ClipInfo(if Key(c) in actions then actions[Key(c)] else null,
               if look(c).face == Open then openTex else closedTex,
               look(c).speed)
    }

    /** The materials `setFaceTexture` writes: the head's. */
    function FaceMaterials(): set<Material>
      reads this, head
    {
      if head == null then {} else set m | m in SlotMaterials(head.material)
    }

    /** Every head material shows tex (vacuous without a head). */
    predicate ShowsFace(tex: Texture)
      reads this, head, FaceMaterials()
    {
      head != null ==> forall m :: m in SlotMaterials(head.material) ==> m.props.texture == TextureMap(tex)
    }

    /**
     * The two mount effects, in order: every mesh gets a fresh tinted
     * material, then the head reference becomes the last mesh whose name
     * contains the head name (kept as it was if none does).
     */
    method Setup()
      requires DistinctNodes(scene)
      modifies this`head, set o | o in scene
      ensures head == LastHead(scene, headName, AnyMesh, old(head))
      ensures forall i :: 0 <= i < |scene| && IsMesh(scene[i]) ==>
                && scene[i].material.One? && fresh(scene[i].material.m)
                && scene[i].material.m.props ==
                     TintedProps(SlotProps(old(scene[i].material)), scene[i].kind == SkinnedMeshNode,
                                 ContainsIgnoreCase(scene[i].name, headName), brightness)
      ensures forall i :: 0 <= i < |scene| && !IsMesh(scene[i]) ==> scene[i].material == old(scene[i].material)
    {
      ConvertTinted(scene, headName, brightness);
      head := FindHead(scene, headName, AnyMesh, head);
    }

    /**
     * `setFaceTexture(tex)` on this character's head: every head material
     * ends showing tex, changed and marked exactly when it showed something
     * else, the texture marked exactly when one was (so a second call
     * changes nothing), and nothing without a head.
     */
    method SetFace(tex: Texture)
      modifies FaceMaterials(), tex
      ensures ShowsFace(tex)
      ensures Retextured(old(Snapshot(FaceMaterials())), Snapshot(FaceMaterials()), tex, old(tex.version), tex.version)
      ensures head == null ==> tex.version == old(tex.version)
      ensures (forall m :: m in old(FaceMaterials()) ==> old(m.props.texture) == TextureMap(tex)) ==>
                Snapshot(FaceMaterials()) == old(Snapshot(FaceMaterials())) && tex.version == old(tex.version)
    {
      ghost var before := Snapshot(FaceMaterials());
      SetFaceTexture(head, tex);
      if forall m :: m in before ==> before[m].0.texture == TextureMap(tex) {
        forall m | m in old(FaceMaterials())
          ensures old(m.props.texture) == TextureMap(tex)
        {
          assert before[m].0.texture == TextureMap(tex);
        }
      }
    }

    /** The per-frame `mixer.update(dt)`. */
    method Frame(dt: real)
      modifies mixer
      ensures mixer.time == old(mixer.time) + dt
    {
      mixer.Update(dt);
    }
  }

  /** The handle exposes the table from this component's looks. */
  lemma HandleTable(h: Handle, c: ClipName)
    requires h.look == ModelLook
    ensures h.Clip(c).speed == ModelLook(c).speed
    ensures h.Clip(c).tex == (if c in {Idle, Talking1, Talking3, Twerk} then h.openTex else h.closedTex)
  {
    ModelFaces(c);
  }
}
