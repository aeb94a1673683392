/**
 * `Math.random` as an oracle: a fixed stream of reals in [0, 1) read one
 * after another. The stream is a parameter of the model, so every
 * placement below is a function of the draws it was given.
 */
module Random {
  import opened Wrappers

  ghost predicate UnitStream(stream: nat -> real) {
    forall i :: 0.0 <= stream(i) < 1.0
  }

  class Rng {
    const stream: nat -> real
    var next: nat

    constructor (stream: nat -> real)
      requires UnitStream(stream)
      ensures this.stream == stream && next == 0
    {
      this.stream := stream;
      next := 0;
    }

    /** One call of `Math.random()`: the next value of the stream, which lies in [0, 1). */
    method Draw() returns (r: real)
      requires UnitStream(stream)
      modifies this`next
      ensures r == stream(old(next)) && next == old(next) + 1
      ensures 0.0 <= r < 1.0
    {
      r := stream(next);
      next := next + 1;
    }
  }

  /**
   * `(Math.random() - 0.5) * width`: a draw in [0, 1) spread over
   * [-width/2, width/2), as both scatter loops place their candidates.
   */
  function Centred(r: real, width: real): (d: real)
    requires 0.0 <= r < 1.0 && width > 0.0
    ensures -width / 2.0 <= d < width / 2.0
  {
    assert (r - 0.5) * width == r * width - width / 2.0;
    assert r * width < width by { assert (1.0 - r) * width > 0.0; }
    (r - 0.5) * width
  }

  /**
   * How many `Math.random()` calls a scatter candidate takes: two for its
   * position, two more when it is kept.
   */
  function Draws<T>(t: Option<T>): nat {
    if t.Some? then 4 else 2
  }
}
