/**
 * The player's model (src/components/PlayerModel.tsx): the clip-name
 * lookup with its index fallback, the handle's `setAnimation`, the idle
 * start, and the conversion of every mesh material to an unlit one.
 */
module PlayerModel {
  import opened Wrappers
  import opened Names
  import opened Motion
  import opened Animation
  import opened Scene

  /** `lookup(kw)` tests each clip name with a case-insensitive pattern; the keywords are plain words. */
  predicate Matches(name: string, kw: string) {
    ContainsIgnoreCase(name, kw)
  }

  /** The index of the first clip name matching kw, if any. */
  function FirstMatch(names: seq<string>, kw: string): (r: Option<nat>)
    ensures r.Some? ==> r.value < |names| && Matches(names[r.value], kw)
    ensures r.Some? ==> forall j :: 0 <= j < r.value ==> !Matches(names[j], kw)
    ensures r.None? ==> forall j :: 0 <= j < |names| ==> !Matches(names[j], kw)
  {
    if names == [] then None
    else if Matches(names[0], kw) then Some(0)
    else match FirstMatch(names[1..], kw)
      case None => None
      case Some(k) => Some(k + 1)
  }

  /** `lookup(kw)`: the first matching clip's name. */
  function Lookup(names: seq<string>, kw: string): Option<string> {
    match FirstMatch(names, kw)
    case None => None
    case Some(k) => Some(names[k])
  }

  /**
   * The name a clip role resolves to: the lookup's answer, else the clip at
   * the fallback index; None where there is no such clip, where reading
   * `animations[i].name` throws.
   */
  function Resolve(names: seq<string>, kw: string, fallback: nat): (r: Option<string>)
    ensures r.None? <==> (forall j :: 0 <= j < |names| ==> !Matches(names[j], kw)) && fallback >= |names|
    ensures r.Some? ==> r.value in names
  {
    match Lookup(names, kw)
    case Some(n) => Some(n)
    case None => if fallback < |names| then Some(names[fallback]) else None
  }

  /** `clip`: the clip names for the three movement states. */
  datatype ClipNames = ClipNames(idle: string, walk: string, run: string) {
    function Get(m: MoveState): string {
      match m
      case Idle => idle
      case Walk => walk
      case Run => run
    }
  }

  /** The keyword and fallback index of each state: idle/0, walk/1, run/2. */
  function Keyword(m: MoveState): string {
    match m
    case Idle => "idle"
    case Walk => "walk"
    case Run => "run"
  }

  function FallbackIndex(m: MoveState): nat {
    match m
    case Idle => 0
    case Walk => 1
    case Run => 2
  }

  /** The `clip` table; None when building it throws. */
  function Clips(names: seq<string>): Option<ClipNames> {
    match (Resolve(names, "idle", 0), Resolve(names, "walk", 1), Resolve(names, "run", 2))
    case (Some(i), Some(w), Some(r)) => Some(ClipNames(i, w, r))
    case _ => None
  }

  /**
   * Each state gets the first clip whose name contains its keyword, in any
   * case; a state whose keyword matches nothing gets the clip at its
   * fallback index.
   */
  lemma {:induction false} ClipsResolve(names: seq<string>, m: MoveState)
    requires Clips(names).Some?
    ensures var n := Clips(names).value.Get(m);
            || (exists k :: 0 <= k < |names| && n == names[k] && Matches(names[k], Keyword(m))
                  && forall j :: 0 <= j < k ==> !Matches(names[j], Keyword(m)))
            || ((forall j :: 0 <= j < |names| ==> !Matches(names[j], Keyword(m)))
                  && FallbackIndex(m) < |names| && n == names[FallbackIndex(m)])
  {
    var r := FirstMatch(names, Keyword(m));
    if r.Some? {
      var k := r.value;
      assert names[k] == Clips(names).value.Get(m);
    }
  }

  /** With at least three clips the table always exists. */
  lemma ThreeClipsSuffice(names: seq<string>)
    requires |names| >= 3
    ensures Clips(names).Some?
  {
    assert Resolve(names, "idle", 0).Some? && Resolve(names, "walk", 1).Some? && Resolve(names, "run", 2).Some?;
  }

  /** The slot conversion `toBasic` performs on each mesh, elementwise for arrays (into a new array without a `map` of its own). */
  ghost predicate Converted(before: MaterialSlot, after: MaterialSlot)
    reads set m | m in SlotMaterials(before) + SlotMaterials(after)
  {
    match before
    case NoMaterial => after == NoMaterial
    case One(m) => after.One? && after.m.props == BasicProps(m.props)
    case Many(ms, _) => after.Many? && |after.ms| == |ms| && after.ownMap == null &&
                        forall i :: 0 <= i < |ms| ==> after.ms[i].props == BasicProps(ms[i].props)
  }

  /** `toBasic` over an array: one fresh basic material per source material, in order. */
  method ToBasicAll(ms: seq<Material>) returns (out: seq<Material>)
    ensures |out| == |ms|
    ensures forall i :: 0 <= i < |ms| ==> fresh(out[i]) && out[i].props == BasicProps(ms[i].props)
  {
    out := [];
    var i := 0;
    while i < |ms|
      invariant 0 <= i <= |ms|
      invariant |out| == i
      invariant forall j :: 0 <= j < i ==> fresh(out[j]) && out[j].props == BasicProps(ms[j].props)
    {
      var b := new Material(BasicProps(ms[i].props));
      out := out + [b];
      i := i + 1;
    }
  }

  /** The traverse callback on one node. */
  method ConvertNode(o: Object3D, castShadow: bool, receiveShadow: bool)
    modifies o
    ensures IsMesh(o) ==>
              && o.castShadow == castShadow && o.receiveShadow == receiveShadow
              && Converted(old(o.material), o.material)
              && forall m :: m in SlotMaterials(o.material) ==> fresh(m)
    ensures !IsMesh(o) ==> o.material == old(o.material) && o.castShadow == old(o.castShadow) && o.receiveShadow == old(o.receiveShadow)
  {
    if IsMesh(o) {
      o.castShadow := castShadow;
      o.receiveShadow := receiveShadow;
      match o.material
      case Many(ms, _) =>
        var out := ToBasicAll(ms);
        o.material := Many(out, null);
      case One(m) =>
        var b := new Material(BasicProps(m.props));
        o.material := One(b);
      case NoMaterial =>
    }
  }

  class Model {
    /** The names of the file's clips, in file order, and one action per clip. */
    const names: seq<string>
    const actions: seq<Action>
    const scene: seq<Object3D>

    constructor (names: seq<string>, actions: seq<Action>, scene: seq<Object3D>)
      ensures this.names == names && this.actions == actions && this.scene == scene
    {
      this.names := names;
      this.actions := actions;
      this.scene := scene;
    }

    /** Action i belongs to clip i; clip names and actions are distinct. */
    ghost predicate Valid() {
      && |actions| == |names|
      && (forall i :: 0 <= i < |names| ==> actions[i].clip == names[i])
      && (forall i, j :: 0 <= i < j < |names| ==> names[i] != names[j])
      && Distinct(actions)
    }

    /**
     * `setAnimation(state)`: every action is told to fade out over 0.15 s;
     * the one for the state's clip is then restarted, fading in over the
     * same time. The restart overrides its fade-out.
     */
    method SetAnimation(m: MoveState)
      requires Valid() && Clips(names).Some?
      modifies set a | a in actions
      ensures forall i :: 0 <= i < |actions| ==>
                actions[i].st == (if names[i] == Clips(names).value.Get(m)
                                  then PlayState(FadeInState(ResetState(old(actions[i].st)), 0.15))
                                  else FadeOutState(old(actions[i].st), 0.15))
    {
      var target := Clips(names).value.Get(m);
      FadeOutAll(actions, 0.15);
      var k :| 0 <= k < |names| && names[k] == target;
      var a := actions[k];
      ghost var faded := a.st;
      a.ResetFadeInPlay(0.15);
      assert ResetState(faded) == ResetState(old(a.st));
      forall i | 0 <= i < |actions|
        ensures actions[i].st == (if names[i] == target
                                  then PlayState(FadeInState(ResetState(old(actions[i].st)), 0.15))
                                  else FadeOutState(old(actions[i].st), 0.15))
      {
        if i != k {
          assert names[i] != target;
          assert actions[i] != a;
        }
      }
    }

    /** The mount effect: the idle clip starts from the beginning, with no fade. */
    method StartIdle()
      requires Valid() && Clips(names).Some?
      modifies set a | a in actions
      ensures forall i :: 0 <= i < |actions| ==>
                actions[i].st == (if names[i] == Clips(names).value.idle
                                  then PlayState(ResetState(old(actions[i].st)))
                                  else old(actions[i].st))
    {
      var target := Clips(names).value.idle;
      var k :| 0 <= k < |names| && names[k] == target;
      var a := actions[k];
      a.Reset();
      a.Play();
      forall i | 0 <= i < |actions|
        ensures actions[i].st == (if names[i] == target
                                  then PlayState(ResetState(old(actions[i].st)))
                                  else old(actions[i].st))
      {
        if i != k {
          assert names[i] != target;
          assert actions[i] != a;
        }
      }
    }

    /**
     * The material effect: every mesh casts and receives shadows as told
     * and gets fresh basic materials converted from its own, one for one;
     * other nodes are left alone.
     */
    method ConvertMaterials(castShadow: bool, receiveShadow: bool)
      requires DistinctNodes(scene)
      modifies set o | o in scene
      ensures forall i :: 0 <= i < |scene| && IsMesh(scene[i]) ==>
                && scene[i].castShadow == castShadow && scene[i].receiveShadow == receiveShadow
                && Converted(old(scene[i].material), scene[i].material)
                && forall m :: m in SlotMaterials(scene[i].material) ==> fresh(m)
      ensures forall i :: 0 <= i < |scene| && !IsMesh(scene[i]) ==>
                && scene[i].material == old(scene[i].material)
                && scene[i].castShadow == old(scene[i].castShadow) && scene[i].receiveShadow == old(scene[i].receiveShadow)
    {
      var i := 0;
      while i < |scene|
        invariant 0 <= i <= |scene|
        invariant forall j :: 0 <= j < i && IsMesh(scene[j]) ==>
                    && scene[j].castShadow == castShadow && scene[j].receiveShadow == receiveShadow
                    && Converted(old(scene[j].material), scene[j].material)
                    && forall m :: m in SlotMaterials(scene[j].material) ==> fresh(m)
        invariant forall j :: 0 <= j < i && !IsMesh(scene[j]) ==>
                    && scene[j].material == old(scene[j].material)
                    && scene[j].castShadow == old(scene[j].castShadow) && scene[j].receiveShadow == old(scene[j].receiveShadow)
        invariant forall j :: i <= j < |scene| ==>
                    && scene[j].material == old(scene[j].material)
                    && scene[j].castShadow == old(scene[j].castShadow) && scene[j].receiveShadow == old(scene[j].receiveShadow)
      {
        ConvertNode(scene[i], castShadow, receiveShadow);
        i := i + 1;
      }
    }
  }
}
