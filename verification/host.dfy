/**
 * What the simulation step receives from its host: the frame's elapsed seconds,
 * the key states, and the pieces of floating-point and random computation the
 * model takes as given.
 */
module Host {
  import opened Vectors

  /** `keyPressed("ArrowUp")` and friends (space.js:413-442). */
  datatype Keys = Keys(up: bool, down: bool, left: bool, right: bool)

  /**
   * `heading(a)` is `(Math.cos(a), Math.sin(a))`; `unit(v)` is `v.getNormalized()`
   * after `v.calcDist()`; `clamp(v, max)` is the speed limit of space.js:443-446;
   * `rnd(id, j)` is the `j`-th `Math.random()` drawn while building sprite `id`.
   */
  datatype Env = Env(
    delta: real,
    keys: Keys,
    heading: real -> Vec2,
    unit: Vec2 -> Vec2,
    clamp: (Vec2, real) -> Vec2,
    rnd: (nat, nat) -> real)

  /** `heading` gives unit vectors, as cosine and sine do. */
  ghost predicate UnitHeadings(env: Env) {
    forall a :: SqLen(env.heading(a)) == 1.0
  }
}
