/**
 * The tiled grass field: the layout arithmetic of the N x N tile grid, the
 * grass-mask lookup, the rejection-sampling loop that fills one tile's
 * instance matrices, the grid of keyed tiles, and the wind clock.
 */
module Grass {
  import opened Wrappers
  import opened Masks
  import opened Random

  /**
   * The field's settings: the prop `bladeCount` and `threshold`, and the
   * sliders for field size, mask size, mask offset and tiles per side.
   */
  datatype Layout = Layout(
    bladeCount: nat,
    fieldSize: real,
    maskSize: real,
    offsetX: real,
    offsetZ: real,
    tiles: int,
    threshold: real)

  /** The slider ranges: field and mask at least 10, between 1 and 10 tiles per side. */
  predicate ValidLayout(l: Layout) {
    l.fieldSize >= 10.0 && l.maskSize >= 10.0 && 1 <= l.tiles <= 10
  }

  const DefaultLayout: Layout := Layout(120000, 132.88, 150.0, 0.6, 4.2, 4, 0.5)

  /** Side length of one tile. */
  function Side(l: Layout): (s: real)
    requires ValidLayout(l)
    ensures s > 0.0 && s * l.tiles as real == l.fieldSize
  {
    l.fieldSize / l.tiles as real
  }

  /** `Math.floor(bladeCount / tiles^2)`: the largest count whose tiles^2 copies fit in bladeCount. */
  function BladesPerTile(l: Layout): (n: nat)
    requires ValidLayout(l)
    ensures n * (l.tiles * l.tiles) <= l.bladeCount < (n + 1) * (l.tiles * l.tiles)
  {
    l.bladeCount / (l.tiles * l.tiles)
  }

  /** The attempt budget of one tile. */
  function MaxAttempts(l: Layout): nat
    requires ValidLayout(l)
  {
    BladesPerTile(l) * 10
  }

  /* ---------------------------------------------------------------- the mask */

  function GrassU(l: Layout, x: real): real
    requires ValidLayout(l)
  {
    (x - l.offsetX) / l.maskSize + 0.5
  }

  function GrassV(l: Layout, z: real): real
    requires ValidLayout(l)
  {
    (z - l.offsetZ) / l.maskSize + 0.5
  }

  /**
   * `sample`: the grass mask's red level under world (x, z), indices taken
   * with `~~`; 0 off the mask. On the mask it is the nearest pixel's red
   * level, always read from inside the buffer.
   */
  function Sample(l: Layout, mask: Image, x: real, z: real): (s: real)
    requires ValidLayout(l)
    ensures 0.0 <= s <= 1.0
    ensures !InUnitSquare(GrassU(l, x), GrassV(l, z)) ==> s == 0.0
    ensures InUnitSquare(GrassU(l, x), GrassV(l, z)) ==> s == RedAt(mask, GrassU(l, x), GrassV(l, z))
  {
    var u := GrassU(l, x);
    var v := GrassV(l, z);
    if u < 0.0 || u > 1.0 || v < 0.0 || v > 1.0 then 0.0
    else RedAtTruncated(mask, u, v)
  }

  /* ---------------------------------------------------------------- the grid */

  /** The centre of tile i along one axis. */
  function Centre(l: Layout, i: int): real
    requires ValidLayout(l)
  {
    (i as real + 0.5) * Side(l) - l.fieldSize / 2.0
  }

  /**
   * Every tile lies inside the field: the square of half-side side/2 around
   * its centre stays within [-field/2, field/2], so the centre itself is
   * strictly inside.
   */
  lemma {:induction false} TileInsideField(l: Layout, i: int)
    requires ValidLayout(l) && 0 <= i < l.tiles
    ensures -l.fieldSize / 2.0 <= Centre(l, i) - Side(l) / 2.0
    ensures Centre(l, i) + Side(l) / 2.0 <= l.fieldSize / 2.0
    ensures -l.fieldSize / 2.0 < Centre(l, i) < l.fieldSize / 2.0
  {
    var s := Side(l);
    var t := l.tiles as real;
    assert Centre(l, i) - s / 2.0 == i as real * s - l.fieldSize / 2.0;
    assert Centre(l, i) + s / 2.0 == (i + 1) as real * s - l.fieldSize / 2.0;
    MulMonotone(0.0, i as real, s);
    MulMonotone((i + 1) as real, t, s);
  }

  lemma MulMonotone(a: real, b: real, s: real)
    requires a <= b && s >= 0.0
    ensures a * s <= b * s
  {
    assert b * s - a * s == (b - a) * s;
  }

  /** Consecutive tiles abut: tile i + 1's centre is one side further on. */
  lemma TilesAbut(l: Layout, i: int)
    requires ValidLayout(l)
    ensures Centre(l, i + 1) == Centre(l, i) + Side(l)
  {
  }

  /* ---------------------------------------------------------------- tile keys */

  function DigitChar(d: int): char
    requires 0 <= d < 10
  {
    "0123456789"[d]
  }

  predicate IsDigit(c: char) {
    '0' <= c <= '9'
  }

  /** The decimal numeral of n, as a template literal prints it. */
  function Decimal(n: nat): (s: string)
    ensures |s| >= 1 && forall k :: 0 <= k < |s| ==> IsDigit(s[k])
    ensures (|s| == 1) == (n < 10)
  {
    if n < 10 then [DigitChar(n)] else Decimal(n / 10) + [DigitChar(n % 10)]
  }

  lemma DigitCharInjective(a: int, b: int)
    requires 0 <= a < 10 && 0 <= b < 10 && DigitChar(a) == DigitChar(b)
    ensures a == b
  {
  }

  /** Distinct numbers print as distinct numerals. */
  lemma {:induction false} DecimalInjective(m: nat, n: nat)
    requires Decimal(m) == Decimal(n)
    ensures m == n
  {
    var s := Decimal(m);
    if m < 10 {
      DigitCharInjective(m, n);
    } else {
      assert n >= 10;
      assert s[|s| - 1] == DigitChar(m % 10) == DigitChar(n % 10);
      DigitCharInjective(m % 10, n % 10);
      assert Decimal(m / 10) == s[..|s| - 1] == Decimal(n / 10);
      DecimalInjective(m / 10, n / 10);
    }
  }

  /** The React key of tile (ix, iz): `${ix}-${iz}`. */
  function Key(ix: nat, iz: nat): string {
    Decimal(ix) + "-" + Decimal(iz)
  }

  /** In a digit string followed by '-', the first '-' is the one right after the digits. */
  lemma DashAfterDigits(a: string, b: string)
    requires forall k :: 0 <= k < |a| ==> IsDigit(a[k])
    ensures (a + "-" + b)[|a|] == '-'
    ensures forall k :: 0 <= k < |a| ==> (a + "-" + b)[k] != '-'
  {
  }

  /** Two digit strings joined by '-' can be split back uniquely. */
  lemma {:induction false} SplitAtDash(a: string, b: string, c: string, d: string)
    requires forall k :: 0 <= k < |a| ==> IsDigit(a[k])
    requires forall k :: 0 <= k < |c| ==> IsDigit(c[k])
    requires a + "-" + b == c + "-" + d
    ensures a == c && b == d
  {
    var s := a + "-" + b;
    DashAfterDigits(a, b);
    DashAfterDigits(c, d);
    assert |a| == |c|;
    assert a == s[..|a|] == c;
    assert b == s[|a| + 1..] == d;
  }

  /** Keys of different tiles differ, so React sees tiles^2 distinct children. */
  lemma {:induction false} KeysDistinct(ix: nat, iz: nat, jx: nat, jz: nat)
    requires Key(ix, iz) == Key(jx, jz)
    ensures ix == jx && iz == jz
  {
    SplitAtDash(Decimal(ix), Decimal(iz), Decimal(jx), Decimal(jz));
    DecimalInjective(ix, jx);
    DecimalInjective(iz, jz);
  }

  /* ---------------------------------------------------------------- one tile */

  /**
   * A blade's instance transform: its position relative to the tile centre
   * (y is always 0), its yaw as a fraction of pi, and its uniform scale.
   * The identity is the matrix an `InstancedMesh` starts with.
   */
  datatype Blade = Blade(x: real, z: real, turn: real, scale: real)

  const Identity: Blade := Blade(0.0, 0.0, 0.0, 1.0)

  /**
   * What every written blade satisfies: the mask under its world position
   * reaches the threshold, it lies in its tile ([-side/2, side/2) on both
   * axes), its yaw is within a quarter turn either way, and its scale is in
   * [0.5, 1).
   */
  predicate Accepted(l: Layout, mask: Image, cx: real, cz: real, b: Blade)
    requires ValidLayout(l)
  {
    && Sample(l, mask, cx + b.x, cz + b.z) >= l.threshold
    && -Side(l) / 2.0 <= b.x < Side(l) / 2.0
    && -Side(l) / 2.0 <= b.z < Side(l) / 2.0
    && -0.5 <= b.turn < 0.5
    && 0.5 <= b.scale < 1.0
  }

  /** One tile's `InstancedMesh`: its centre and its fixed-size buffer of instance matrices. */
  class TileMesh {
    const cx: real
    const cz: real
    const matrices: array<Blade>

    constructor (cx: real, cz: real, count: nat)
      ensures this.cx == cx && this.cz == cz
      ensures fresh(matrices) && matrices.Length == count
      ensures forall k :: 0 <= k < count ==> matrices[k] == Identity
    {
      this.cx := cx;
      this.cz := cz;
      matrices := new Blade[count](_ => Identity);
    }
  }

  /**
   * The candidate whose draws start at stream position n: the first two
   * draws place it in the tile, and it is kept when the mask there reaches
   * the threshold; two more draws then give its yaw and scale.
   */
  ghost function TrialAt(l: Layout, mask: Image, cx: real, cz: real, stream: nat -> real, n: nat): Option<Blade>
    requires ValidLayout(l) && UnitStream(stream)
  {
    var dx, dz := Centred(stream(n), Side(l)), Centred(stream(n + 1), Side(l));
    if MaskLevel(mask, GrassU(l, cx + dx), GrassV(l, cz + dz)) < l.threshold then None
    else Some(Blade(dx, dz, stream(n + 2) - 0.5, 0.5 + stream(n + 3) * 0.5))
  }

  /**
   * The placement loop as a function of the draws: from stream position n,
   * with `blades` kept so far and `attempts` used, the blades kept in the
   * end, the attempts used and the next stream position.
   */
  ghost function Scatter(l: Layout, mask: Image, cx: real, cz: real, stream: nat -> real,
                         n: nat, blades: seq<Blade>, attempts: nat): (seq<Blade>, nat, nat)
    requires ValidLayout(l) && UnitStream(stream)
    decreases MaxAttempts(l) - attempts
  {
    if |blades| >= BladesPerTile(l) || attempts >= MaxAttempts(l) then (blades, attempts, n)
    else
      var t := TrialAt(l, mask, cx, cz, stream, n);
      Scatter(l, mask, cx, cz, stream, n + Draws(t), if t.Some? then blades + [t.value] else blades, attempts + 1)
  }

  /** A kept candidate satisfies `Accepted`. */
  lemma TrialAccepted(l: Layout, mask: Image, cx: real, cz: real, stream: nat -> real, n: nat)
    requires ValidLayout(l) && UnitStream(stream)
    ensures TrialAt(l, mask, cx, cz, stream, n).Some? ==> Accepted(l, mask, cx, cz, TrialAt(l, mask, cx, cz, stream, n).value)
  {
  }

  /**
   * The loop keeps what it has kept (earlier blades are never rewritten),
   * never exceeds the tile's blade count or the attempt budget, spends the
   * whole budget whenever the tile ends short, and keeps only accepted
   * blades.
   */
  lemma {:induction false} ScatterBounds(l: Layout, mask: Image, cx: real, cz: real, stream: nat -> real,
                                         n: nat, blades: seq<Blade>, attempts: nat)
    requires ValidLayout(l) && UnitStream(stream)
    requires |blades| <= BladesPerTile(l) && attempts <= MaxAttempts(l)
    requires forall k :: 0 <= k < |blades| ==> Accepted(l, mask, cx, cz, blades[k])
    ensures var r := Scatter(l, mask, cx, cz, stream, n, blades, attempts);
            && blades <= r.0
            && |r.0| <= BladesPerTile(l) && attempts <= r.1 <= MaxAttempts(l)
            && (|r.0| < BladesPerTile(l) ==> r.1 == MaxAttempts(l))
            && (forall k :: 0 <= k < |r.0| ==> Accepted(l, mask, cx, cz, r.0[k]))
            && r.2 >= n
    decreases MaxAttempts(l) - attempts
  {
    if |blades| >= BladesPerTile(l) || attempts >= MaxAttempts(l) {
    } else {
      var t := TrialAt(l, mask, cx, cz, stream, n);
      TrialAccepted(l, mask, cx, cz, stream, n);
      var next := if t.Some? then blades + [t.value] else blades;
      ScatterBounds(l, mask, cx, cz, stream, n + Draws(t), next, attempts + 1);
    }
  }

  /**
   * One pass of the placement loop's body after the attempt is counted: two
   * draws pick a candidate in the tile; when the mask accepts it, two more
   * draw its yaw and scale.
   */
  method Candidate(l: Layout, mask: Image, cx: real, cz: real, rng: Rng) returns (ok: bool, b: Blade)
    requires ValidLayout(l) && UnitStream(rng.stream)
    modifies rng`next
    ensures var n := old(rng.next);
            ok <==> Sample(l, mask, cx + Centred(rng.stream(n), Side(l)), cz + Centred(rng.stream(n + 1), Side(l))) >= l.threshold
    ensures var t := TrialAt(l, mask, cx, cz, rng.stream, old(rng.next));
            && ok == t.Some? && (ok ==> b == t.value)
            && rng.next == old(rng.next) + Draws(t)
    ensures ok ==> Accepted(l, mask, cx, cz, b)
  {
    ghost var n := rng.next;
    var side := Side(l);
    var rx := rng.Draw();
    var rz := rng.Draw();
    var dx, dz := Centred(rx, side), Centred(rz, side);
    var x, z := dx + cx, dz + cz;
    if Sample(l, mask, x, z) < l.threshold {
      return false, Identity;
    }
    var rt := rng.Draw();
    var rs := rng.Draw();
    b := Blade(x - cx, z - cz, rt - 0.5, 0.5 + rs * 0.5);
    assert b.x == dx && b.z == dz;
    TrialAccepted(l, mask, cx, cz, rng.stream, n);
    ok := true;
  }

  /**
   * `makeTile`: draws candidate positions uniformly over the tile and keeps
   * the ones the mask accepts, writing each into the next free slot, until
   * the tile holds `BladesPerTile` blades or `10 * BladesPerTile` attempts
   * are used up. The mesh always has `BladesPerTile` instances; the slots
   * left unfilled keep the identity matrix. What is kept, how many attempts
   * it took and how far the stream was read are those of `Scatter`.
   */
  method MakeTile(l: Layout, mask: Image, cx: real, cz: real, rng: Rng) returns (mesh: TileMesh, placed: nat, attempts: nat)
    requires ValidLayout(l) && UnitStream(rng.stream)
    modifies rng`next
    ensures fresh(mesh) && fresh(mesh.matrices) && mesh.cx == cx && mesh.cz == cz
    ensures mesh.matrices.Length == BladesPerTile(l)
    ensures placed <= BladesPerTile(l) && attempts <= MaxAttempts(l)
    ensures var r := Scatter(l, mask, cx, cz, rng.stream, old(rng.next), [], 0);
            && placed == |r.0| && attempts == r.1 && rng.next == r.2
            && mesh.matrices[..placed] == r.0
    ensures placed < BladesPerTile(l) ==> attempts == MaxAttempts(l)
    ensures forall k :: 0 <= k < placed ==> Accepted(l, mask, cx, cz, mesh.matrices[k])
    ensures forall k :: placed <= k < mesh.matrices.Length ==> mesh.matrices[k] == Identity
  {
    ScatterBounds(l, mask, cx, cz, rng.stream, rng.next, [], 0);
    mesh := new TileMesh(cx, cz, BladesPerTile(l));
    placed, attempts := Fill(l, mask, cx, cz, rng, mesh);
  }

  /** The placement loop of `makeTile`, run on a mesh whose slots all hold the identity. */
  method Fill(l: Layout, mask: Image, cx: real, cz: real, rng: Rng, mesh: TileMesh) returns (placed: nat, attempts: nat)
    requires ValidLayout(l) && UnitStream(rng.stream)
    requires mesh.matrices.Length == BladesPerTile(l)
    requires forall k :: 0 <= k < mesh.matrices.Length ==> mesh.matrices[k] == Identity
    modifies rng`next, mesh.matrices
    ensures placed <= mesh.matrices.Length
    ensures Scatter(l, mask, cx, cz, rng.stream, old(rng.next), [], 0) == (mesh.matrices[..placed], attempts, rng.next)
    ensures forall k :: placed <= k < mesh.matrices.Length ==> mesh.matrices[k] == Identity
  {
    ghost var whole := Scatter(l, mask, cx, cz, rng.stream, rng.next, [], 0);
    ghost var kept: seq<Blade> := [];
    var count := BladesPerTile(l);
    var maxAttempts := count * 10;
    placed, attempts := 0, 0;
    while placed < count && attempts < maxAttempts
      invariant placed <= count && attempts <= maxAttempts
      invariant mesh.matrices[..placed] == kept
      invariant Scatter(l, mask, cx, cz, rng.stream, rng.next, kept, attempts) == whole
      invariant forall k :: placed <= k < mesh.matrices.Length ==> mesh.matrices[k] == Identity
      decreases maxAttempts - attempts
    {
      placed, kept := Attempt(l, mask, cx, cz, rng, mesh, placed, attempts, kept, whole);
      attempts := attempts + 1;
    }
  }

  /**
   * One counted attempt of `makeTile`'s loop: an accepted candidate goes into
   * slot `placed`. The scatter from the new state ends where the scatter
   * from the old one did, and the free slots after the kept ones still
   * hold the identity.
   */
  method Attempt(l: Layout, mask: Image, cx: real, cz: real, rng: Rng, mesh: TileMesh, placed: nat, attempts: nat,
                 ghost kept: seq<Blade>, ghost whole: (seq<Blade>, nat, nat))
    returns (now: nat, ghost keptNow: seq<Blade>)
    requires ValidLayout(l) && UnitStream(rng.stream)
    requires mesh.matrices.Length == BladesPerTile(l)
    requires placed < BladesPerTile(l) && attempts < MaxAttempts(l)
    requires mesh.matrices[..placed] == kept
    requires Scatter(l, mask, cx, cz, rng.stream, rng.next, kept, attempts) == whole
    requires forall k :: placed <= k < mesh.matrices.Length ==> mesh.matrices[k] == Identity
    modifies rng`next, mesh.matrices
    ensures placed <= now <= placed + 1
    ensures mesh.matrices[..now] == keptNow
    ensures Scatter(l, mask, cx, cz, rng.stream, rng.next, keptNow, attempts + 1) == whole
    ensures forall k :: now <= k < mesh.matrices.Length ==> mesh.matrices[k] == Identity
  {
    var ok, b := Candidate(l, mask, cx, cz, rng);
    now, keptNow := placed, kept;
    if ok {
      mesh.matrices[placed] := b;
      assert mesh.matrices[..placed + 1] == kept + [b];
      now, keptNow := placed + 1, kept + [b];
    }
  }

  /* ---------------------------------------------------------------- the field */

  /** One child of the field: its key and its tile mesh. */
  datatype Tile = Tile(key: string, mesh: TileMesh)

  /**
   * The tiles `useMemo`: nothing until the mask has loaded; then tiles^2
   * tiles, row by row, tile ix * tiles + iz keyed `${ix}-${iz}` and centred
   * at (Centre(ix), Centre(iz)).
   */
  method BuildTiles(l: Layout, mask: Option<Image>, rng: Rng) returns (items: Option<seq<Tile>>)
    requires ValidLayout(l) && UnitStream(rng.stream)
    modifies rng
    ensures mask.None? <==> items.None?
    ensures items.Some? ==>
              && |items.value| == l.tiles * l.tiles
              && forall ix, iz :: 0 <= ix < l.tiles && 0 <= iz < l.tiles ==>
                   TileAt(l, items.value, ix, iz)
  {
    if mask.None? {
      return None;
    }
    var n := l.tiles;
    var acc: seq<Tile> := [];
    var ix := 0;
    while ix < n
      invariant 0 <= ix <= n && |acc| == ix * n
      invariant forall jx, jz :: 0 <= jx < ix && 0 <= jz < n ==> TileAt(l, acc, jx, jz)
    {
      acc := BuildRow(l, mask.value, rng, acc, ix);
      ix := ix + 1;
    }
    return Some(acc);
  }

  /** The inner `for iz` loop: row ix of tiles appended after the rows before it. */
  method BuildRow(l: Layout, img: Image, rng: Rng, before: seq<Tile>, ix: nat) returns (acc: seq<Tile>)
    requires ValidLayout(l) && UnitStream(rng.stream)
    requires ix < l.tiles && |before| == ix * l.tiles
    requires forall jx, jz :: 0 <= jx < ix && 0 <= jz < l.tiles ==> TileAt(l, before, jx, jz)
    modifies rng
    ensures |acc| == (ix + 1) * l.tiles
    ensures forall jx, jz :: 0 <= jx <= ix && 0 <= jz < l.tiles ==> TileAt(l, acc, jx, jz)
  {
    var n := l.tiles;
    acc := before;
    var iz := 0;
    while iz < n
      invariant 0 <= iz <= n && |acc| == ix * n + iz
      invariant forall jx, jz :: 0 <= jx < ix && 0 <= jz < n ==> TileAt(l, acc, jx, jz)
      invariant forall jz :: 0 <= jz < iz ==> TileAt(l, acc, ix, jz)
    {
      var t := NewTile(l, img, rng, ix, iz);
      PushKeepsTiles(l, acc, t, ix, iz, n);
      acc := acc + [t];
      iz := iz + 1;
    }
    assert |acc| == (ix + 1) * n;
  }

  /** One pass of the inner loop: the mesh of tile (ix, iz), made at its centre and keyed `${ix}-${iz}`. */
  method NewTile(l: Layout, img: Image, rng: Rng, ix: nat, iz: nat) returns (t: Tile)
    requires ValidLayout(l) && UnitStream(rng.stream)
    modifies rng`next
    ensures t.key == Key(ix, iz) && t.mesh.cx == Centre(l, ix) && t.mesh.cz == Centre(l, iz)
  {
    var mesh, _, _ := MakeTile(l, img, Centre(l, ix), Centre(l, iz), rng);
    t := Tile(Key(ix, iz), mesh);
  }

  /** Tile (ix, iz) sits at position ix * tiles + iz with its key and centre. */
  ghost predicate TileAt(l: Layout, items: seq<Tile>, ix: nat, iz: nat)
    requires ValidLayout(l)
  {
    && ix * l.tiles + iz < |items|
    && items[ix * l.tiles + iz].key == Key(ix, iz)
    && items[ix * l.tiles + iz].mesh.cx == Centre(l, ix)
    && items[ix * l.tiles + iz].mesh.cz == Centre(l, iz)
  }

  /** Appending tile (ix, iz) at position ix * n + iz keeps every earlier tile in place and adds this one. */
  lemma {:induction false} PushKeepsTiles(l: Layout, before: seq<Tile>, t: Tile, ix: nat, iz: nat, n: int)
    requires ValidLayout(l) && n == l.tiles && iz < n
    requires |before| == ix * n + iz
    requires t.key == Key(ix, iz) && t.mesh.cx == Centre(l, ix) && t.mesh.cz == Centre(l, iz)
    ensures forall jx, jz :: 0 <= jx < ix && 0 <= jz < n && TileAt(l, before, jx, jz) ==> TileAt(l, before + [t], jx, jz)
    ensures forall jz :: 0 <= jz < iz && TileAt(l, before, ix, jz) ==> TileAt(l, before + [t], ix, jz)
    ensures TileAt(l, before + [t], ix, iz)
  {
  }

  /* ---------------------------------------------------------------- wind */

  /** The wind clock runs at twice real time. */
  const WindSpeed: real := 2.0

  /** The `uTime` uniform the grass shader reads. */
  class TimeUniform {
    var value: real

    constructor ()
      ensures value == 0.0
    {
      value := 0.0;
    }
  }

  /** One frame of `useFrame`: uTime advances by dt * 2. */
  method WindFrame(uTime: TimeUniform, dt: real)
    modifies uTime
    ensures uTime.value == old(uTime.value) + dt * WindSpeed
  {
    uTime.value := uTime.value + dt * WindSpeed;
  }
}
