/**
 * A sprite's remaining lifetime (space.js:171, 175-177): a finite number of
 * seconds or `Infinity`. The sprite is kept by cleanup while `ttl > 0`.
 */
module Lifetime {
  import opened Base

  datatype Ttl = Finite(left: real) | Inf {
    /** `ttl > 0` */
    predicate Alive() {
      Inf? || left > 0.0
    }
  }

  /** The constructor's `ttl || Infinity`: an absent or zero argument is falsy. */
  function FromArg(arg: Option<real>): (t: Ttl)
    ensures t.Inf? <==> (arg.None? || arg.value == 0.0)
    ensures t.Finite? ==> t.left == arg.value && t.left != 0.0
  {
    match arg
    case None => Inf
    case Some(r) => if r == 0.0 then Inf else Finite(r)
  }

  /** `Sprite.update`: `this.ttl -= delta`; `Infinity - delta` is `Infinity`. */
  function Tick(t: Ttl, delta: real): Ttl {
    match t
    case Inf => Inf
    case Finite(r) => Finite(r - delta)
  }

  /** The lifetime after one `Sprite.update` per frame, with the given frame deltas. */
  function TickAll(t: Ttl, deltas: seq<real>): Ttl
    decreases |deltas|
  {
    if deltas == [] then t else TickAll(Tick(t, deltas[0]), deltas[1..])
  }

  function Total(deltas: seq<real>): real
    decreases |deltas|
  {
    if deltas == [] then 0.0 else deltas[0] + Total(deltas[1..])
  }

  /** One update takes exactly `delta` off a finite lifetime and leaves an infinite one infinite. */
  lemma TickExact(t: Ttl, delta: real)
    ensures t.Inf? ==> Tick(t, delta) == Inf && Tick(t, delta).Alive()
    ensures t.Finite? ==> Tick(t, delta).Finite? && Tick(t, delta).left + delta == t.left
  {
  }

  /** Over many frames a finite lifetime drops by exactly the elapsed time. */
  lemma {:induction false} TickAllFinite(r: real, deltas: seq<real>)
    ensures TickAll(Finite(r), deltas) == Finite(r - Total(deltas))
    decreases |deltas|
  {
    if deltas != [] {
      TickAllFinite(r - deltas[0], deltas[1..]);
    }
  }

  /** An infinite lifetime never reaches `ttl <= 0`, whatever the deltas. */
  lemma {:induction false} InfNeverExpires(deltas: seq<real>)
    ensures TickAll(Inf, deltas) == Inf
    ensures TickAll(Inf, deltas).Alive()
    decreases |deltas|
  {
    if deltas != [] {
      InfNeverExpires(deltas[1..]);
    }
  }

  /** A sprite built with a falsy `ttl` is never removed for age. */
  lemma FalsyTtlNeverExpires(arg: Option<real>, deltas: seq<real>)
    requires arg.None? || arg.value == 0.0
    ensures TickAll(FromArg(arg), deltas).Alive()
  {
    InfNeverExpires(deltas);
  }
}
