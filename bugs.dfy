/**
 * The butterflies: the two-wing geometry buffers, the butterfly-mask
 * lookup, the rejection-sampling loop that writes per-instance offsets and
 * phases into fixed-size arrays, and the shader clock.
 */
module Bugs {
  import opened Wrappers
  import opened Masks
  import opened Random

  /* ---------------------------------------------------------------- wing geometry */

  datatype Vertex = Vertex(x: real, y: real, z: real)

  /** A wing's four corners for side s (1 right, -1 left): root, leading tip, middle, trailing tip. */
  function Root(s: real): Vertex { Vertex(0.0, 0.0, 0.0) }
  function Leading(s: real): Vertex { Vertex(0.0, 0.28, s * 0.45) }
  function Middle(s: real): Vertex { Vertex(0.0, 0.1, s * 0.25) }
  function Trailing(s: real): Vertex { Vertex(0.0, -0.22, s * 0.4) }

  /** The four triangles of one wing, in push order: r m l, r l m, r t m, r m t. */
  function WingVertices(s: real): (vs: seq<Vertex>)
    ensures |vs| == 12
  {
    var r, l, m, t := Root(s), Leading(s), Middle(s), Trailing(s);
    [r, m, l, r, l, m, r, t, m, r, m, t]
  }

  function Flatten(vs: seq<Vertex>): (fs: seq<real>)
    ensures |fs| == 3 * |vs|
  {
    if vs == [] then [] else [vs[0].x, vs[0].y, vs[0].z] + Flatten(vs[1..])
  }

  /** Coordinate j of vertex k is at 3k + j of the flattened buffer. */
  lemma {:induction false} FlattenIndex(vs: seq<Vertex>, k: int)
    requires 0 <= k < |vs|
    ensures Flatten(vs)[3 * k] == vs[k].x
    ensures Flatten(vs)[3 * k + 1] == vs[k].y
    ensures Flatten(vs)[3 * k + 2] == vs[k].z
  {
    if k > 0 {
      FlattenIndex(vs[1..], k - 1);
    }
  }

  /** The geometry being built: the `positions` and `sides` arrays `addWing` pushes onto. */
  class WingGeometry {
    var positions: seq<real>
    var sides: seq<real>

    constructor ()
      ensures positions == [] && sides == []
    {
      positions, sides := [], [];
    }

    /** `addWing(s)`: appends the wing's 12 vertices (36 floats) and 12 copies of s. */
    method AddWing(s: real)
      modifies this
      ensures positions == old(positions) + Flatten(WingVertices(s))
      ensures sides == old(sides) + seq(12, _ => s)
    {
      positions := positions + Flatten(WingVertices(s));
      var i := 0;
      ghost var sides0 := sides;
      while i < 12
        invariant 0 <= i <= 12
        invariant positions == old(positions) + Flatten(WingVertices(s))
        invariant sides == sides0 + seq(i, _ => s)
      {
        sides := sides + [s];
        i := i + 1;
      }
    }
  }

  /** The butterfly: the right wing's vertices, then the left wing's. */
  function Butterfly(): (vs: seq<Vertex>)
    ensures |vs| == 24
  {
    WingVertices(1.0) + WingVertices(-1.0)
  }

  /** The geometry `useMemo`: `addWing(1)` then `addWing(-1)`. */
  method BuildGeometry() returns (g: WingGeometry)
    ensures fresh(g)
    ensures g.positions == Flatten(Butterfly())
    ensures g.sides == seq(12, _ => 1.0) + seq(12, _ => -1.0)
  {
    var r, l := 1.0, -1.0;
    g := new WingGeometry();
    g.AddWing(r);
    assert [] + seq(12, _ => r) == seq(12, _ => r);
    ghost var right := Flatten(WingVertices(r));
    assert g.positions == [] + right;
    g.AddWing(l);
    FlattenAppend(WingVertices(r), WingVertices(l));
    assert g.positions == right + Flatten(WingVertices(l));
  }

  lemma {:induction false} FlattenAppend(a: seq<Vertex>, b: seq<Vertex>)
    ensures Flatten(a + b) == Flatten(a) + Flatten(b)
    decreases |a|
  {
    if a != [] {
      var h := [a[0].x, a[0].y, a[0].z];
      assert (a + b)[0] == a[0];
      assert (a + b)[1..] == a[1..] + b;
      assert Flatten(a + b) == h + Flatten(a[1..] + b);
      FlattenAppend(a[1..], b);
      assert Flatten(a) == h + Flatten(a[1..]);
    } else {
      assert a + b == b;
    }
  }

  /**
   * The butterfly's buffers: 72 position floats and 24 side entries, side 1
   * on the first 12 vertices and -1 on the last 12, and vertex k + 12 (left
   * wing) is vertex k (right wing) reflected through the x-y plane, read
   * off the flat float buffer.
   */
  lemma {:induction false} ButterflyMirror(k: int)
    requires 0 <= k < 12
    ensures var fs := Flatten(Butterfly());
            && |fs| == 72
            && fs[3 * (k + 12)] == fs[3 * k]
            && fs[3 * (k + 12) + 1] == fs[3 * k + 1]
            && fs[3 * (k + 12) + 2] == -fs[3 * k + 2]
  {
    var vs := Butterfly();
    FlattenIndex(vs, k);
    FlattenIndex(vs, k + 12);
    assert vs[k + 12] == WingVertices(-1.0)[k] && vs[k] == WingVertices(1.0)[k];
    WingsMirror(k);
  }

  /** Vertex k of the left wing is vertex k of the right wing with z negated. */
  lemma WingsMirror(k: int)
    requires 0 <= k < 12
    ensures var r, l := WingVertices(1.0)[k], WingVertices(-1.0)[k];
            l.x == r.x && l.y == r.y && l.z == -r.z
  {
  }

  /* ---------------------------------------------------------------- the mask */

  /** `lum`'s u and v: the field of side `area` is centred on the origin. */
  function BugU(area: real, x: real): real
    requires area > 0.0
  {
    x / area + 0.5
  }

  /**
   * `lum`: the butterfly mask's red level under (x, z), indices taken with
   * `~~`; 0 off the mask.
   */
  function Lum(mask: Image, area: real, x: real, z: real): (s: real)
    requires area > 0.0
    ensures 0.0 <= s <= 1.0
    ensures !InUnitSquare(BugU(area, x), BugU(area, z)) ==> s == 0.0
    ensures InUnitSquare(BugU(area, x), BugU(area, z)) ==> s == RedAt(mask, BugU(area, x), BugU(area, z))
  {
    var u := BugU(area, x);
    var v := BugU(area, z);
    if u < 0.0 || u > 1.0 || v < 0.0 || v > 1.0 then 0.0
    else RedAtTruncated(mask, u, v)
  }

  /* ---------------------------------------------------------------- placement */

  /**
   * A placed bug: the mask under it reaches the threshold, it lies in the
   * field, it hovers between 1 and 3.5 high, and its phase (in units of
   * pi) is in [0, 2).
   */
  predicate Placed(mask: Image, area: real, threshold: real, x: real, y: real, z: real, phase: real)
    requires area > 0.0
  {
    && Lum(mask, area, x, z) >= threshold
    && -area / 2.0 <= x < area / 2.0
    && -area / 2.0 <= z < area / 2.0
    && 1.0 <= y < 3.5
    && 0.0 <= phase < 2.0
  }

  /** One bug as its slots hold it: offset (x, y, z) and phase. */
  datatype Bug = Bug(x: real, y: real, z: real, phase: real)

  /**
   * The candidate whose draws start at stream position n: two draws place
   * it over the field, and it is kept when the mask there reaches the
   * threshold; two more draws then give its height and phase.
   */
  ghost function BugTrial(mask: Image, area: real, threshold: real, stream: nat -> real, n: nat): Option<Bug>
    requires area > 0.0 && UnitStream(stream)
  {
    var x, z := Centred(stream(n), area), Centred(stream(n + 1), area);
    if MaskLevel(mask, BugU(area, x), BugU(area, z)) < threshold then None
    else Some(Bug(x, stream(n + 2) * 2.5 + 1.0, z, stream(n + 3) * 2.0))
  }

  /**
   * The layout effect's loop as a function of the draws: from stream
   * position n, with `bugs` kept so far and `tries` used, the bugs kept in
   * the end, the tries used and the next stream position.
   */
  ghost function BugScatter(mask: Image, area: real, threshold: real, count: nat, stream: nat -> real,
                            n: nat, bugs: seq<Bug>, tries: nat): (seq<Bug>, nat, nat)
    requires area > 0.0 && UnitStream(stream)
    decreases 20 * count - tries
  {
    if |bugs| >= count || tries >= 20 * count then (bugs, tries, n)
    else
      var t := BugTrial(mask, area, threshold, stream, n);
      BugScatter(mask, area, threshold, count, stream, n + Draws(t), if t.Some? then bugs + [t.value] else bugs, tries + 1)
  }

  /** A kept candidate is `Placed`. */
  lemma TrialPlaced(mask: Image, area: real, threshold: real, stream: nat -> real, n: nat)
    requires area > 0.0 && UnitStream(stream)
    ensures var t := BugTrial(mask, area, threshold, stream, n);
            t.Some? ==> Placed(mask, area, threshold, t.value.x, t.value.y, t.value.z, t.value.phase)
  {
  }

  /**
   * The loop keeps what it has kept, never places more than `count` bugs
   * nor uses more than `20 * count` tries, uses every try whenever it ends
   * short, and keeps only placed bugs.
   */
  lemma {:induction false} BugScatterBounds(mask: Image, area: real, threshold: real, count: nat, stream: nat -> real,
                                            n: nat, bugs: seq<Bug>, tries: nat)
    requires area > 0.0 && UnitStream(stream)
    requires |bugs| <= count && tries <= 20 * count
    requires forall k :: 0 <= k < |bugs| ==> Placed(mask, area, threshold, bugs[k].x, bugs[k].y, bugs[k].z, bugs[k].phase)
    ensures var r := BugScatter(mask, area, threshold, count, stream, n, bugs, tries);
            && bugs <= r.0
            && |r.0| <= count && tries <= r.1 <= 20 * count
            && (|r.0| < count ==> r.1 == 20 * count)
            && (forall k :: 0 <= k < |r.0| ==> Placed(mask, area, threshold, r.0[k].x, r.0[k].y, r.0[k].z, r.0[k].phase))
            && r.2 >= n
    decreases 20 * count - tries
  {
    if |bugs| < count && tries < 20 * count {
      var t := BugTrial(mask, area, threshold, stream, n);
      TrialPlaced(mask, area, threshold, stream, n);
      var next := if t.Some? then bugs + [t.value] else bugs;
      BugScatterBounds(mask, area, threshold, count, stream, n + Draws(t), next, tries + 1);
    }
  }

  /**
   * The component's fixed-size instance buffers, allocated zeroed for
   * `count` bugs, and the mask once it has loaded.
   */
  class BugField {
    const count: nat
    const area: real
    const threshold: real
    const offsets: array<real>
    const phases: array<real>
    var mask: Option<Image>

    constructor (count: nat, area: real, threshold: real)
      ensures this.count == count && this.area == area && this.threshold == threshold
      ensures fresh(offsets) && fresh(phases) && offsets != phases
      ensures offsets.Length == 3 * count && phases.Length == count
      ensures forall k :: 0 <= k < offsets.Length ==> offsets[k] == 0.0
      ensures forall k :: 0 <= k < phases.Length ==> phases[k] == 0.0
      ensures mask == None
    {
      this.count := count;
      this.area := area;
      this.threshold := threshold;
      offsets := new real[3 * count](_ => 0.0);
      phases := new real[count](_ => 0.0);
      mask := None;
    }

    ghost predicate Valid()
      reads this
    {
      offsets.Length == 3 * count && phases.Length == count && offsets != phases
    }

    /**
     * Bug k's slots hold a placed bug: offsets 3k, 3k + 1, 3k + 2 are x, y, z
     * and phases[k] its phase.
     */
    ghost predicate SlotPlaced(k: int)
      requires Valid() && area > 0.0 && mask.Some? && 0 <= k < count
      reads this, offsets, phases
    {
      Placed(mask.value, area, threshold, offsets[3 * k], offsets[3 * k + 1], offsets[3 * k + 2], phases[k])
    }

    /** The four writes of one placement: offsets 3i to 3i + 2 and phases[i]; nothing else changes. */
    method WriteSlot(i: nat, x: real, y: real, z: real, phase: real)
      requires Valid() && i < count
      modifies offsets, phases
      ensures offsets[3 * i] == x && offsets[3 * i + 1] == y && offsets[3 * i + 2] == z && phases[i] == phase
      ensures forall k :: 0 <= k < 3 * i ==> offsets[k] == old(offsets[k])
      ensures forall k :: 3 * i + 3 <= k < offsets.Length ==> offsets[k] == old(offsets[k])
      ensures forall k :: 0 <= k < phases.Length && k != i ==> phases[k] == old(phases[k])
    {
      var j := i * 3;
      offsets[j] := x;
      offsets[j + 1] := y;
      offsets[j + 2] := z;
      phases[i] := phase;
    }

    /** Bug k as its slots hold it. */
    ghost function Slot(k: int): Bug
      requires Valid() && 0 <= k < count
      reads this, offsets, phases
    {
      Bug(offsets[3 * k], offsets[3 * k + 1], offsets[3 * k + 2], phases[k])
    }

    /**
     * One trip through the loop body: draw a candidate, and if the mask
     * accepts it draw its height and phase and write it as bug `placed`.
     * It is accepted exactly when `lum` under the first two draws reaches
     * the threshold; the candidate and the draws taken are `BugTrial`'s.
     * Earlier bugs keep their slots, and slots after the new one keep their
     * values.
     */
    method TryOne(img: Image, rng: Rng, placed: nat) returns (accepted: bool)
      requires Valid() && area > 0.0 && mask == Some(img) && UnitStream(rng.stream)
      requires placed < count
      requires forall k :: 0 <= k < placed ==> SlotPlaced(k)
      modifies offsets, phases, rng`next
      ensures var n := old(rng.next);
              accepted <==> Lum(img, area, Centred(rng.stream(n), area), Centred(rng.stream(n + 1), area)) >= threshold
      ensures var t := BugTrial(img, area, threshold, rng.stream, old(rng.next));
              && accepted == t.Some? && rng.next == old(rng.next) + Draws(t)
              && (accepted ==> Slot(placed) == t.value)
      ensures forall k :: 0 <= k < placed ==> Slot(k) == old(Slot(k))
      ensures forall k :: 0 <= k < placed + (if accepted then 1 else 0) ==> SlotPlaced(k)
      ensures forall k :: 3 * (placed + if accepted then 1 else 0) <= k < offsets.Length ==> offsets[k] == old(offsets[k])
      ensures forall k :: placed + (if accepted then 1 else 0) <= k < phases.Length ==> phases[k] == old(phases[k])
    {
      ghost var n := rng.next;
      var rx := rng.Draw();
      var rz := rng.Draw();
      var x, z := Centred(rx, area), Centred(rz, area);
      if Lum(img, area, x, z) < threshold {
        return false;
      }
      var ry := rng.Draw();
      var rp := rng.Draw();
      var y, phase := ry * 2.5 + 1.0, rp * 2.0;
      assert Placed(img, area, threshold, x, y, z, phase);
      WriteSlot(placed, x, y, z, phase);
      forall k | 0 <= k < placed
        ensures Slot(k) == old(Slot(k)) && SlotPlaced(k)
      {
        assert old(SlotPlaced(k));
        assert offsets[3 * k] == old(offsets[3 * k]);
        assert offsets[3 * k + 1] == old(offsets[3 * k + 1]);
        assert offsets[3 * k + 2] == old(offsets[3 * k + 2]);
      }
      accepted := true;
    }

    /**
     * The layout effect. Without a mask it returns at once and draws
     * nothing. Otherwise it draws candidates over the field and keeps those
     * the mask accepts, writing bug `placed` into its slots, until `count`
     * are placed or `20 * count` tries are used up: the bugs written, the
     * tries used and the draws taken are `BugScatter`'s from the stream
     * position it started at. Slots from `placed` on keep what they held
     * (zeros after the first run).
     */
    method Place(rng: Rng) returns (placed: nat, tries: nat)
      requires Valid() && area > 0.0 && UnitStream(rng.stream)
      modifies offsets, phases, rng`next
      ensures mask.None? ==> placed == 0 && tries == 0 && rng.next == old(rng.next) && unchanged(offsets) && unchanged(phases)
      ensures placed <= count && tries <= 20 * count
      ensures mask.Some? ==>
                var r := BugScatter(mask.value, area, threshold, count, rng.stream, old(rng.next), [], 0);
                && placed == |r.0| && tries == r.1 && rng.next == r.2
                && forall k :: 0 <= k < placed ==> Slot(k) == r.0[k]
      ensures mask.Some? && placed < count ==> tries == 20 * count
      ensures mask.Some? ==> forall k :: 0 <= k < placed ==> SlotPlaced(k)
      ensures forall k :: 3 * placed <= k < offsets.Length ==> offsets[k] == old(offsets[k])
      ensures forall k :: placed <= k < phases.Length ==> phases[k] == old(phases[k])
    {
      placed, tries := 0, 0;
      if mask.None? {
        return;
      }
      var img := mask.value;
      ghost var whole := BugScatter(img, area, threshold, count, rng.stream, rng.next, [], 0);
      BugScatterBounds(img, area, threshold, count, rng.stream, rng.next, [], 0);
      ghost var kept: seq<Bug> := [];
      var max := count * 20;
      while placed < count && tries < max
        invariant placed <= count && tries <= max && |kept| == placed
        invariant BugScatter(img, area, threshold, count, rng.stream, rng.next, kept, tries) == whole
        invariant forall k :: 0 <= k < placed ==> Slot(k) == kept[k]
        invariant forall k :: 0 <= k < placed ==> SlotPlaced(k)
        invariant forall k :: 3 * placed <= k < offsets.Length ==> offsets[k] == old(offsets[k])
        invariant forall k :: placed <= k < phases.Length ==> phases[k] == old(phases[k])
        decreases max - tries
      {
        placed, kept := Step(img, rng, placed, tries, kept, whole);
        tries := tries + 1;
      }
    }

    /**
     * One counted try of the layout effect's loop. The scatter from the new
     * state ends where the scatter from the old one did; the slots written
     * so far hold the bugs kept so far, all placed; later slots keep their
     * values.
     */
    method Step(img: Image, rng: Rng, placed: nat, tries: nat, ghost kept: seq<Bug>, ghost whole: (seq<Bug>, nat, nat))
      returns (now: nat, ghost keptNow: seq<Bug>)
      requires Valid() && area > 0.0 && mask == Some(img) && UnitStream(rng.stream)
      requires placed < count && tries < 20 * count && |kept| == placed
      requires BugScatter(img, area, threshold, count, rng.stream, rng.next, kept, tries) == whole
      requires forall k :: 0 <= k < placed ==> Slot(k) == kept[k]
      requires forall k :: 0 <= k < placed ==> SlotPlaced(k)
      modifies offsets, phases, rng`next
      ensures placed <= now <= placed + 1 && |keptNow| == now
      ensures BugScatter(img, area, threshold, count, rng.stream, rng.next, keptNow, tries + 1) == whole
      ensures forall k :: 0 <= k < now ==> Slot(k) == keptNow[k]
      ensures forall k :: 0 <= k < now ==> SlotPlaced(k)
      ensures forall k :: 3 * now <= k < offsets.Length ==> offsets[k] == old(offsets[k])
      ensures forall k :: now <= k < phases.Length ==> phases[k] == old(phases[k])
    {
      ghost var t := BugTrial(img, area, threshold, rng.stream, rng.next);
      var accepted := TryOne(img, rng, placed);
      now, keptNow := placed, kept;
      if accepted {
        now, keptNow := placed + 1, kept + [t.value];
      }
    }
  }

  /* ---------------------------------------------------------------- clock */

  /** The `uTime` uniform the butterfly shader reads. */
  class Clock {
    var value: real

    constructor ()
      ensures value == 0.0
    {
      value := 0.0;
    }

    /** One frame: the clock advances by exactly dt. */
    method Frame(dt: real)
      modifies this
      ensures value == old(value) + dt
    {
      value := value + dt;
    }
  }
}
