/**
 * The scene-graph pieces the character models touch: textures, materials
 * and their property records, the nodes a `traverse` visits (in visiting
 * order), the three material conversions, the head-mesh rule and the face
 * texture setter.
 */
module Scene {
  import opened Wrappers
  import opened Names

  /** A texture; `version` counts the `needsUpdate = true` marks it has received. */
  class Texture {
    var version: nat

    constructor ()
      ensures version == 0
    {
      version := 0;
    }
  }

  datatype Color = Color(r: real, g: real, b: real)

  const White: Color := Color(1.0, 1.0, 1.0)

  /** `color.multiplyScalar(k)`. */
  function ScaleColor(c: Color, k: real): Color {
    Color(c.r * k, c.g * k, c.b * k)
  }

  datatype MaterialKind = Standard | Physical | Basic | OtherMaterial

  datatype Side = FrontSide | BackSide | DoubleSide

  /**
   * What a material's `map` holds: nothing (`null`), a texture, or, when
   * the "material" is really a material array, the array's own `map`
   * method inherited from `Array.prototype`, which is truthy but no texture.
   */
  datatype MapValue = NoMap | TextureMap(t: Texture) | ArrayMethod

  /**
   * A material's fields as the conversions read and write them. `color`,
   * `transparent` and `vertexColors` are None where the object has no such
   * field (the `"color" in src` tests), as when a material array is read as
   * if it were one material.
   */
  datatype Props = Props(
    kind: MaterialKind,
    texture: MapValue,
    color: Option<Color>,
    transparent: Option<bool>,
    opacity: real,
    alphaTest: real,
    side: Side,
    depthWrite: bool,
    depthTest: bool,
    toneMapped: bool,
    vertexColors: Option<bool>,
    skinning: bool)

  /**
   * What `material.x` reads on a material array: no colour, transparency
   * or vertex-colour field, and defaults where a conversion passes an
   * undefined value on. Its `map` is the property written onto the array,
   * if one was (ownMap), and otherwise the array's `map` method.
   */
  function ArrayAsMaterial(ownMap: Texture?): (p: Props)
    ensures ownMap == null ==> p.texture == ArrayMethod
    ensures ownMap != null ==> p.texture == TextureMap(ownMap)
    ensures p.color.None? && p.transparent.None? && p.vertexColors.None?
  {
    Props(OtherMaterial, if ownMap == null then ArrayMethod else TextureMap(ownMap),
          None, None, 1.0, 0.0, FrontSide, true, true, true, None, false)
  }

  /**
   * Stands in for the fields of a mesh with no material, where the source's
   * reads would throw; three.js meshes always carry one.
   */
  const NoMaterialProps: Props :=
    Props(OtherMaterial, NoMap, None, None, 1.0, 0.0, FrontSide, true, true, true, None, false)

  /** A new `MeshBasicMaterial`'s defaults. */
  const BasicDefaults: Props :=
    Props(Basic, NoMap, Some(White), Some(false), 1.0, 0.0, FrontSide, true, true, true, Some(false), false)

  /** A material; `version` counts its `needsUpdate = true` marks. */
  class Material {
    var props: Props
    var version: nat

    constructor (props: Props)
      ensures this.props == props && version == 0
    {
      this.props := props;
      version := 0;
    }
  }

  /**
   * `mesh.material`: one material, an array of them, or none on a non-mesh
   * node. An array carries its own `map` property once one is written onto
   * it (ownMap); null while `map` still reads the array's method.
   */
  datatype MaterialSlot = NoMaterial | One(m: Material) | Many(ms: seq<Material>, ownMap: Texture?)

  /** The materials a slot holds, as `Array.isArray(m) ? m : [m]` lists them. */
  function SlotMaterials(slot: MaterialSlot): seq<Material> {
    match slot
    case NoMaterial => []
    case One(m) => [m]
    case Many(ms, _) => ms
  }

  /** The fields read from `mesh.material` as if it were a single material. */
  function SlotProps(slot: MaterialSlot): Props
    reads if slot.One? then {slot.m} else {}
  {
    match slot
    case One(m) => m.props
    case Many(_, ownMap) => ArrayAsMaterial(ownMap)
    case NoMaterial => NoMaterialProps
  }

  datatype NodeKind = GroupNode | MeshNode | SkinnedMeshNode | OtherNode

  /** One node of a loaded scene. */
  class Object3D {
    const name: string
    const kind: NodeKind
    var material: MaterialSlot
    var castShadow: bool
    var receiveShadow: bool

    constructor (name: string, kind: NodeKind, material: MaterialSlot)
      ensures this.name == name && this.kind == kind && this.material == material
      ensures !castShadow && !receiveShadow
    {
      this.name := name;
      this.kind := kind;
      this.material := material;
      castShadow, receiveShadow := false, false;
    }
  }

  /** `isMesh`: meshes and skinned meshes. */
  predicate IsMesh(o: Object3D) {
    o.kind == MeshNode || o.kind == SkinnedMeshNode
  }

  /** A traversal visits each node once. */
  ghost predicate DistinctNodes(scene: seq<Object3D>) {
    forall i, j :: 0 <= i < j < |scene| ==> scene[i] != scene[j]
  }

  /* ---------------------------------------------------------------- conversions */

  /**
   * The player model's `toBasic`: a basic material keeping the source's map,
   * transparency, opacity and alpha test, front-sided, depth-tested and
   * depth-writing, not tone-mapped; everything else the basic defaults.
   */
  function BasicProps(src: Props): (p: Props)
    ensures p.kind == Basic && p.texture == src.texture && p.opacity == src.opacity && p.alphaTest == src.alphaTest
    ensures p.transparent == Some(src.transparent == Some(true))
    ensures p.side == FrontSide && p.depthWrite && p.depthTest && !p.toneMapped
    ensures p.color == Some(White) && p.vertexColors == Some(false) && !p.skinning
  {
    BasicDefaults.(texture := src.texture, transparent := Some(src.transparent == Some(true)),
                   opacity := src.opacity, alphaTest := src.alphaTest,
                   side := FrontSide, depthWrite := true, depthTest := true, toneMapped := false)
  }

  /**
   * The character models' conversion: a basic material keeping the map, the
   * colour (white when the source has none) and transparency; skinning on
   * for skinned meshes; the colour multiplied by `brightness` unless the
   * mesh is the head, whose vertex colours are switched off instead.
   */
  function TintedProps(src: Props, skinned: bool, isHead: bool, brightness: real): (p: Props)
    ensures p.kind == Basic && p.texture == src.texture && p.skinning == skinned
    ensures p.transparent == Some(src.transparent == Some(true))
    ensures p.color == Some(if isHead then src.color.GetOr(White) else ScaleColor(src.color.GetOr(White), brightness))
    ensures p.vertexColors == Some(false)
  {
    var base := BasicDefaults.(texture := src.texture, color := Some(src.color.GetOr(White)),
                               transparent := Some(src.transparent == Some(true)), skinning := skinned);
    if !isHead then base.(color := Some(ScaleColor(src.color.GetOr(White), brightness)))
    else base.(vertexColors := Some(false))
  }

  /**
   * The welcome character's conversion: a basic material keeping the map
   * and colour, transparent only when the source has the field set, skinning
   * on for skinned meshes, and the source's vertex-colour flag when it has
   * one.
   */
  function CopiedProps(src: Props, skinned: bool): (p: Props)
    ensures p.kind == Basic && p.texture == src.texture && p.skinning == skinned
    ensures p.color == Some(src.color.GetOr(White))
    ensures p.transparent == Some(src.transparent == Some(true))
    ensures src.vertexColors.Some? ==> p.vertexColors == src.vertexColors
    ensures src.vertexColors.None? ==> p.vertexColors == Some(false)
  {
    var base := BasicDefaults.(texture := src.texture, color := Some(src.color.GetOr(White)),
                               transparent := Some(src.transparent == Some(true)), skinning := skinned);
    if src.vertexColors.Some? then base.(vertexColors := src.vertexColors) else base
  }

  /**
   * The head is tinted exactly when its name lacks the head name: the
   * colour is scaled by the brightness for body meshes and left as the
   * source's for the head.
   */
  lemma TintUnlessHead(src: Props, skinned: bool, name: string, headName: string, brightness: real)
    ensures var p := TintedProps(src, skinned, ContainsIgnoreCase(name, headName), brightness);
            && (!ContainsIgnoreCase(name, headName) ==> p.color == Some(ScaleColor(src.color.GetOr(White), brightness)))
            && (ContainsIgnoreCase(name, headName) ==> p.color == Some(src.color.GetOr(White)))
  {
  }

  /**
   * The character traverse: every mesh gets a fresh converted material
   * built from what it had; other nodes are left alone.
   */
  method ConvertTinted(scene: seq<Object3D>, headName: string, brightness: real)
    requires DistinctNodes(scene)
    modifies set o | o in scene
    ensures forall i :: 0 <= i < |scene| && IsMesh(scene[i]) ==>
              && scene[i].material.One? && fresh(scene[i].material.m)
              && scene[i].material.m.props ==
                   TintedProps(SlotProps(old(scene[i].material)), scene[i].kind == SkinnedMeshNode,
                               ContainsIgnoreCase(scene[i].name, headName), brightness)
    ensures forall i :: 0 <= i < |scene| && !IsMesh(scene[i]) ==> scene[i].material == old(scene[i].material)
    ensures forall i :: 0 <= i < |scene| ==>
              scene[i].castShadow == old(scene[i].castShadow) && scene[i].receiveShadow == old(scene[i].receiveShadow)
  {
    var i := 0;
    while i < |scene|
      invariant 0 <= i <= |scene|
      invariant forall j :: 0 <= j < i && IsMesh(scene[j]) ==>
                  && scene[j].material.One? && fresh(scene[j].material.m)
                  && scene[j].material.m.props ==
                       TintedProps(SlotProps(old(scene[j].material)), scene[j].kind == SkinnedMeshNode,
                                   ContainsIgnoreCase(scene[j].name, headName), brightness)
      invariant forall j :: 0 <= j < i && !IsMesh(scene[j]) ==> scene[j].material == old(scene[j].material)
      invariant forall j :: i <= j < |scene| ==> scene[j].material == old(scene[j].material)
      invariant forall j :: 0 <= j < |scene| ==>
                  scene[j].castShadow == old(scene[j].castShadow) && scene[j].receiveShadow == old(scene[j].receiveShadow)
    {
      var o := scene[i];
      assert forall j :: 0 <= j < |scene| && j != i ==> scene[j] != o;
      TintNode(o, headName, brightness);
      i := i + 1;
    }
  }

  /** The traverse callback on one node: a mesh gets a fresh tinted material built from its own. */
  method TintNode(o: Object3D, headName: string, brightness: real)
    modifies o
    ensures IsMesh(o) ==>
              && o.material.One? && fresh(o.material.m)
              && o.material.m.props ==
                   TintedProps(SlotProps(old(o.material)), o.kind == SkinnedMeshNode,
                               ContainsIgnoreCase(o.name, headName), brightness)
    ensures !IsMesh(o) ==> o.material == old(o.material)
    ensures o.castShadow == old(o.castShadow) && o.receiveShadow == old(o.receiveShadow)
  {
    if IsMesh(o) {
      var src := SlotProps(o.material);
      var mat := new Material(TintedProps(src, o.kind == SkinnedMeshNode, ContainsIgnoreCase(o.name, headName), brightness));
      o.material := One(mat);
    }
  }

  /* ---------------------------------------------------------------- the head */

  /** Which nodes may be the head: any mesh (`isMesh`), or only plain meshes (`type === "Mesh"`). */
  datatype HeadRule = AnyMesh | PlainMesh

  predicate HeadMatch(o: Object3D, headName: string, rule: HeadRule) {
    && (match rule
        case AnyMesh => IsMesh(o)
        case PlainMesh => o.kind == MeshNode)
    && ContainsIgnoreCase(o.name, headName)
  }

  /** The head after a traverse that overwrites it on every match, starting from `current`. */
  function LastHead(scene: seq<Object3D>, headName: string, rule: HeadRule, current: Object3D?): Object3D?
  {
    if scene == [] then current
    else if HeadMatch(scene[|scene| - 1], headName, rule) then scene[|scene| - 1]
    else LastHead(scene[..|scene| - 1], headName, rule, current)
  }

  /**
   * The last match wins: the head is the latest node in traversal order
   * that matches, and the previous head stays only when none does.
   */
  lemma {:induction false} LastHeadIsLastMatch(scene: seq<Object3D>, headName: string, rule: HeadRule, current: Object3D?)
    ensures var h := LastHead(scene, headName, rule, current);
            || ((forall i :: 0 <= i < |scene| ==> !HeadMatch(scene[i], headName, rule)) && h == current)
            || (exists k :: 0 <= k < |scene| && h == scene[k] && HeadMatch(scene[k], headName, rule)
                  && forall i :: k < i < |scene| ==> !HeadMatch(scene[i], headName, rule))
  {
    if scene != [] {
      var n := |scene| - 1;
      if !HeadMatch(scene[n], headName, rule) {
        var pre := scene[..n];
        LastHeadIsLastMatch(pre, headName, rule, current);
        var h := LastHead(pre, headName, rule, current);
        if exists k :: 0 <= k < |pre| && h == pre[k] && HeadMatch(pre[k], headName, rule)
                       && forall i :: k < i < |pre| ==> !HeadMatch(pre[i], headName, rule) {
          var k :| 0 <= k < |pre| && h == pre[k] && HeadMatch(pre[k], headName, rule)
                   && forall i :: k < i < |pre| ==> !HeadMatch(pre[i], headName, rule);
          assert forall i :: k < i < |scene| ==> !HeadMatch(scene[i], headName, rule) by {
            forall i | k < i < |scene|
              ensures !HeadMatch(scene[i], headName, rule)
            {
              if i < n {
                assert scene[i] == pre[i];
              }
            }
          }
        } else {
          assert forall i :: 0 <= i < |scene| ==> !HeadMatch(scene[i], headName, rule) by {
            forall i | 0 <= i < |scene|
              ensures !HeadMatch(scene[i], headName, rule)
            {
              if i < n {
                assert scene[i] == pre[i];
              }
            }
          }
        }
      }
    }
  }

  /** The head-finding traverse. */
  method FindHead(scene: seq<Object3D>, headName: string, rule: HeadRule, current: Object3D?) returns (head: Object3D?)
    ensures head == LastHead(scene, headName, rule, current)
  {
    head := current;
    var i := 0;
    while i < |scene|
      invariant 0 <= i <= |scene|
      invariant head == LastHead(scene[..i], headName, rule, current)
    {
      assert scene[..i + 1][..i] == scene[..i];
      if HeadMatch(scene[i], headName, rule) {
        head := scene[i];
      }
      i := i + 1;
    }
    assert scene[..|scene|] == scene;
  }

  /* ---------------------------------------------------------------- the face */

  /**
   * `setFaceTexture(tex)`: without a head nothing happens. Otherwise every
   * head material ends showing tex; exactly the materials that showed
   * something else are changed and marked for update, once each, and the
   * texture is marked when at least one was. Calling it again changes
   * nothing.
   */
  method SetFaceTexture(head: Object3D?, tex: Texture)
    modifies if head == null then {} else set m | m in SlotMaterials(head.material)
    modifies tex
    ensures head == null ==> tex.version == old(tex.version)
    ensures head != null ==>
              forall m :: m in SlotMaterials(head.material) ==>
                && m.props == old(m.props).(texture := TextureMap(tex))
                && m.version == old(m.version) + (if old(m.props.texture) == TextureMap(tex) then 0 else 1)
    ensures head != null && (forall m :: m in SlotMaterials(head.material) ==> old(m.props.texture) == TextureMap(tex)) ==>
              tex.version == old(tex.version)
    ensures head != null && (exists m :: m in SlotMaterials(head.material) && old(m.props.texture) != TextureMap(tex)) ==>
              tex.version > old(tex.version)
    ensures head != null && (forall m :: m in SlotMaterials(head.material) ==> old(m.props.texture) == TextureMap(tex)) ==>
              forall m :: m in SlotMaterials(head.material) ==> m.props == old(m.props) && m.version == old(m.version)
  {
    if head == null {
      return;
    }
    RetextureAll(SlotMaterials(head.material), tex);
  }

  /** The props and update count of each of the materials mats. */
  ghost function Snapshot(mats: set<Material>): map<Material, (Props, nat)>
    reads mats
  {
    map m | m in mats :: (m.props, m.version)
  }

  /**
   * What retexturing a set of materials with tex leaves, from snapshot
   * `before` to snapshot `after` and from texture count `was` to `now`: each
   * material ends showing tex, changed and counted once when it showed
   * something else and untouched otherwise; the texture is counted exactly
   * when one of them was changed.
   */
  ghost predicate Retextured(before: map<Material, (Props, nat)>, after: map<Material, (Props, nat)>,
                             tex: Texture, was: nat, now: nat)
  {
    && after.Keys == before.Keys
    && (forall m :: m in before ==>
          && after[m].0 == before[m].0.(texture := TextureMap(tex))
          && after[m].1 == before[m].1 + (if before[m].0.texture == TextureMap(tex) then 0 else 1))
    && ((forall m :: m in before ==> before[m].0.texture == TextureMap(tex)) ==> now == was)
    && ((exists m :: m in before && before[m].0.texture != TextureMap(tex)) ==> now > was)
  }

  /** The `forEach` over the head's materials, on the list itself. */
  method RetextureAll(mats: seq<Material>, tex: Texture)
    modifies set m | m in mats
    modifies tex
    ensures forall m :: m in mats ==>
              && m.props == old(m.props).(texture := TextureMap(tex))
              && m.version == old(m.version) + (if old(m.props.texture) == TextureMap(tex) then 0 else 1)
    ensures (forall m :: m in mats ==> old(m.props.texture) == TextureMap(tex)) ==> tex.version == old(tex.version)
    ensures (exists m :: m in mats && old(m.props.texture) != TextureMap(tex)) ==> tex.version > old(tex.version)
  {
    var i := 0;
    while i < |mats|
      invariant 0 <= i <= |mats|
      invariant forall m :: m in mats[..i] ==>
                  m.props == old(m.props).(texture := TextureMap(tex))
                  && m.version == old(m.version) + (if old(m.props.texture) == TextureMap(tex) then 0 else 1)
      invariant forall m :: m in mats && m !in mats[..i] ==> m.props == old(m.props) && m.version == old(m.version)
      invariant (forall m :: m in mats[..i] ==> old(m.props.texture) == TextureMap(tex)) ==> tex.version == old(tex.version)
      invariant (exists m :: m in mats[..i] && old(m.props.texture) != TextureMap(tex)) ==> tex.version > old(tex.version)
      invariant tex.version >= old(tex.version)
    {
      var m := mats[i];
      assert mats[..i + 1] == mats[..i] + [m];
      Retexture(m, tex);
      i := i + 1;
    }
    assert mats[..|mats|] == mats;
  }

  /** One material of `setFaceTexture`: switch to tex, marking both for upload only if it showed another texture. */
  method Retexture(m: Material, tex: Texture)
    modifies m, tex
    ensures m.props == old(m.props).(texture := TextureMap(tex))
    ensures m.version == old(m.version) + (if old(m.props.texture) == TextureMap(tex) then 0 else 1)
    ensures tex.version == old(tex.version) + (if old(m.props.texture) == TextureMap(tex) then 0 else 1)
  {
    if m.props.texture != TextureMap(tex) {
      m.props := m.props.(texture := TextureMap(tex));
      tex.version := tex.version + 1;
      m.version := m.version + 1;
    }
  }
}
