/**
 * `Player.update` (space.js:352-469): gravity, explosion and landing against each
 * planet, thrust and rotation input, the speed limit, then either drifting or, while
 * landed, the pickup/delivery of a customer.
 */
module Pilot {
  import opened Base
  import opened Vectors
  import opened Lifetime
  import opened Sprites
  import opened Registry
  import opened Host
  import opened Bodies

  /** `thrustDirectionStrength` (space.js:344). */
  const ThrustStrength := 200.0
  /** `maxSpeed` (space.js:345). */
  const MaxSpeed := 300.0
  /** Rotation per frame while a turn key is held (space.js:435, 440). */
  const TurnStep := 0.02
  /** Particles spawned by one explosion (space.js:386). */
  const DebrisCount: nat := 100
  /** Lifetime left to a customer whose carrier explodes (space.js:398). */
  const DroppedCustomerTtl := 2.0
  const DebrisTag := "debris"

  predicate PlayerAt(w: World, pid: SpriteId) {
    pid in w.sprites && w.sprites[pid].kind.Player?
  }

  /** The ids `lo`, `lo + 1`, ..., `hi - 1`, in order. */
  function Ids(lo: nat, hi: nat): (r: seq<SpriteId>)
    requires lo <= hi
    ensures |r| == hi - lo
    decreases hi - lo
  {
    if lo == hi then [] else [lo] + Ids(lo + 1, hi)
  }

  lemma {:induction false} IdsElements(lo: nat, hi: nat)
    requires lo <= hi
    ensures forall i :: 0 <= i < hi - lo ==> Ids(lo, hi)[i] == lo + i
    decreases hi - lo
  {
    if lo < hi {
      IdsElements(lo + 1, hi);
    }
  }

  // ---------------------------------------------------------------- hull geometry

  /** `thrustDirection90Left`. */
  function LeftOf(d: Vec2): Vec2 {
    Vec2(d.y, -d.x)
  }

  /** `thrustDirection90Right`. */
  function RightOf(d: Vec2): Vec2 {
    Vec2(-d.y, d.x)
  }

  /** The point `ahead` along heading `d` and `side` to its left (the `thrustDirection90Left` side) of `pos`. */
  function HullPoint(pos: Vec2, d: Vec2, ahead: real, side: real): Vec2 {
    Sum(Sum(pos, Scaled(d, ahead)), Scaled(LeftOf(d), side))
  }

  /** For a unit heading, `ahead` and `side` are the point's coordinates in the craft's frame. */
  lemma HullFrame(pos: Vec2, d: Vec2, ahead: real, side: real)
    requires SqLen(d) == 1.0
    ensures Dot(Diff(HullPoint(pos, d, ahead, side), pos), d) == ahead
    ensures Dot(Diff(HullPoint(pos, d, ahead, side), pos), LeftOf(d)) == side
    ensures SqLen(Diff(HullPoint(pos, d, ahead, side), pos)) == ahead * ahead + side * side
  {
    var v := Diff(HullPoint(pos, d, ahead, side), pos);
    assert v == Vec2(d.x * ahead + d.y * side, d.y * ahead - d.x * side);
    calc {
      Dot(v, d);
      (d.x * ahead + d.y * side) * d.x + (d.y * ahead - d.x * side) * d.y;
      ahead * (d.x * d.x + d.y * d.y);
    }
    calc {
      Dot(v, LeftOf(d));
      (d.x * ahead + d.y * side) * d.y - (d.y * ahead - d.x * side) * d.x;
      side * (d.x * d.x + d.y * d.y);
    }
    calc {
      SqLen(v);
      (d.x * ahead + d.y * side) * (d.x * ahead + d.y * side) + (d.y * ahead - d.x * side) * (d.y * ahead - d.x * side);
      (ahead * ahead + side * side) * (d.x * d.x + d.y * d.y);
    }
  }

  /** The reflection of `q` across the craft's axis (the line through `pos` along the unit heading `d`). */
  function Mirror(pos: Vec2, d: Vec2, q: Vec2): Vec2 {
    var v := Diff(q, pos);
    HullPoint(pos, d, Dot(v, d), -Dot(v, LeftOf(d)))
  }

  /**
   * The explosion sensors (space.js:357-363), in the craft's frame for pivot `origin`:
   * the nose `55 - origin.x` ahead on the axis, the front fins `30 - origin.x` ahead and
   * the back fins `3.5 - origin.x` ahead, each pair `5 + origin.y` to the left and to the right.
   */
  function Sensors(pos: Vec2, origin: Vec2, d: Vec2): (r: seq<Vec2>)
    ensures |r| == 5
    ensures r[0] == HullPoint(pos, d, 55.0 - origin.x, 0.0)
    ensures r[1] == HullPoint(pos, d, 30.0 - origin.x, 5.0 + origin.y)
    ensures r[2] == HullPoint(pos, d, 30.0 - origin.x, -(5.0 + origin.y))
    ensures r[3] == HullPoint(pos, d, 3.5 - origin.x, 5.0 + origin.y)
    ensures r[4] == HullPoint(pos, d, 3.5 - origin.x, -(5.0 + origin.y))
  {
    [ Sum(pos, Scaled(d, 55.0 - origin.x)),
      Sum(Sum(pos, Scaled(LeftOf(d), 5.0 + origin.y)), Scaled(d, 30.0 - origin.x)),
      Sum(Sum(pos, Scaled(RightOf(d), 5.0 + origin.y)), Scaled(d, 30.0 - origin.x)),
      Sum(Sum(pos, Scaled(LeftOf(d), 5.0 + origin.y)), Scaled(d, 3.5 - origin.x)),
      Sum(Sum(pos, Scaled(RightOf(d), 5.0 + origin.y)), Scaled(d, 3.5 - origin.x)) ]
  }

  /** The landing gear (space.js:364): `origin.x` behind the pivot, on the axis. */
  function Gear(pos: Vec2, origin: Vec2, d: Vec2): (g: Vec2)
    ensures g == HullPoint(pos, d, -origin.x, 0.0)
  {
    Sum(pos, Scaled(d, -origin.x))
  }

  /**
   * For the player's pivot (25, 10): nose 30 ahead, front fins 5 ahead and back fins
   * 21.5 behind, each 15 to either side, gear 25 behind; with a unit heading each fin
   * is the mirror image of its partner across the axis, and the nose and gear lie on it.
   */
  lemma PlayerHull(pos: Vec2, d: Vec2)
    requires SqLen(d) == 1.0
    ensures var r := Sensors(pos, Vec2(25.0, 10.0), d);
      && r[0] == HullPoint(pos, d, 30.0, 0.0)
      && r[1] == HullPoint(pos, d, 5.0, 15.0) && r[2] == HullPoint(pos, d, 5.0, -15.0)
      && r[3] == HullPoint(pos, d, -21.5, 15.0) && r[4] == HullPoint(pos, d, -21.5, -15.0)
      && Gear(pos, Vec2(25.0, 10.0), d) == HullPoint(pos, d, -25.0, 0.0)
      && Mirror(pos, d, r[1]) == r[2] && Mirror(pos, d, r[2]) == r[1]
      && Mirror(pos, d, r[3]) == r[4] && Mirror(pos, d, r[4]) == r[3]
      && Mirror(pos, d, r[0]) == r[0]
  {
    HullFrame(pos, d, 30.0, 0.0);
    HullFrame(pos, d, 5.0, 15.0);
    HullFrame(pos, d, 5.0, -15.0);
    HullFrame(pos, d, -21.5, 15.0);
    HullFrame(pos, d, -21.5, -15.0);
  }

  /**
   * For the player's own pivot (25, 10) and a unit heading, the nose sensor lies
   * 30 ahead of the position and the gear 25 behind it, 55 apart.
   */
  lemma HullAlongHeading(pos: Vec2, d: Vec2)
    requires SqLen(d) == 1.0
    ensures SqLen(Diff(Sensors(pos, Vec2(25.0, 10.0), d)[0], pos)) == 900.0
    ensures SqLen(Diff(pos, Gear(pos, Vec2(25.0, 10.0), d))) == 625.0
    ensures SqLen(Diff(Sensors(pos, Vec2(25.0, 10.0), d)[0], Gear(pos, Vec2(25.0, 10.0), d))) == 3025.0
  {
    var nose := Sensors(pos, Vec2(25.0, 10.0), d)[0];
    var gear := Gear(pos, Vec2(25.0, 10.0), d);
    assert Diff(nose, pos) == Scaled(d, 30.0);
    assert Diff(pos, gear) == Scaled(d, 25.0);
    assert Diff(nose, gear) == Scaled(d, 55.0);
    SqLenScaled(d, 30.0);
    SqLenScaled(d, 25.0);
    SqLenScaled(d, 55.0);
  }

  // ---------------------------------------------------------------- per-planet tests

  /** Some sensor is within `r` of the centre `c`. */
  predicate AnySensorWithin(c: Vec2, r: real, sensors: seq<Vec2>) {
    exists i :: 0 <= i < |sensors| && Within(Diff(c, sensors[i]), r)
  }

  /** The `explodeSensors.forEach` that raises `exploded` (space.js:376-382). */
  function SensorHit(c: Vec2, r: real, sensors: seq<Vec2>): (hit: bool)
    ensures hit <==> AnySensorWithin(c, r, sensors)
    decreases |sensors|
  {
    if sensors == [] then false
    else
      var rest := SensorHit(c, r, sensors[1..]);
      assert rest <==> AnySensorWithin(c, r, sensors[1..]);
      assert AnySensorWithin(c, r, sensors[1..]) ==> AnySensorWithin(c, r, sensors) by {
        if AnySensorWithin(c, r, sensors[1..]) {
          var i :| 0 <= i < |sensors[1..]| && Within(Diff(c, sensors[1..][i]), r);
          assert sensors[i + 1] == sensors[1..][i];
        }
      }
      Within(Diff(c, sensors[0]), r) || rest
  }

  /** The planet (centre `c`, radius `rad`) is close enough to act on the craft: `dist <= radius * 4`. */
  predicate InRange(c: Vec2, rad: Option<real>, pos: Vec2) {
    rad.Some? && Within(Diff(c, pos), rad.value * 4.0)
  }

  /** The planet is in range and touches one of the sensors. */
  predicate Explodes(c: Vec2, rad: Option<real>, pos: Vec2, sensors: seq<Vec2>) {
    InRange(c, rad, pos) && AnySensorWithin(c, rad.value, sensors)
  }

  /** The planet is in range, touches the gear and none of the sensors. */
  predicate Lands(c: Vec2, rad: Option<real>, pos: Vec2, sensors: seq<Vec2>, gear: Vec2) {
    InRange(c, rad, pos) && !AnySensorWithin(c, rad.value, sensors) && Within(Diff(c, gear), rad.value)
  }

  /**
   * The planet acts on the craft: it is within four radii, or it has no radius, in
   * which case `dist > undefined * 4` is false and the loop body runs.
   */
  predicate Attracts(pl: Sprite, pos: Vec2) {
    RadiusOf(pl.kind).None? || InRange(pl.pos, RadiusOf(pl.kind), pos)
  }

  /** `exploded` after the sensor loop for planet `pl` (space.js:370-382). */
  function Hit(pl: Sprite, pos: Vec2, sensors: seq<Vec2>): (hit: bool)
    ensures hit <==> Explodes(pl.pos, RadiusOf(pl.kind), pos, sensors)
  {
    match RadiusOf(pl.kind)
    case None => false
    case Some(r) => Within(Diff(pl.pos, pos), r * 4.0) && SensorHit(pl.pos, r, sensors)
  }

  /** `gearDistance <= planet.radius && !exploded` for a planet in range (space.js:404-405). */
  function Touchdown(pl: Sprite, pos: Vec2, sensors: seq<Vec2>, gear: Vec2): (down: bool)
    ensures down <==> Lands(pl.pos, RadiusOf(pl.kind), pos, sensors, gear)
  {
    match RadiusOf(pl.kind)
    case None => false
    case Some(r) =>
      Within(Diff(pl.pos, pos), r * 4.0) && !SensorHit(pl.pos, r, sensors) && Within(Diff(pl.pos, gear), r)
  }

  // ---------------------------------------------------------------- player mutations

  /**
   * What one planet leaves alone: no sprite disappears, ids only grow, no other
   * sprite's position or kind changes, the craft keeps its position, heading, pivot
   * and passenger, and the HUD, credits and camera are untouched.
   */
  predicate KeepsOthers(w: World, w': World, pid: SpriteId)
    requires PlayerAt(w, pid) && PlayerAt(w', pid)
  {
    && w.sprites.Keys <= w'.sprites.Keys
    && w.next <= w'.next
    && (forall x :: x in w.sprites && x != pid ==>
          w'.sprites[x].pos == w.sprites[x].pos && w'.sprites[x].kind == w.sprites[x].kind)
    && w'.sprites[pid].pos == w.sprites[pid].pos && w'.sprites[pid].origin == w.sprites[pid].origin
    && w'.sprites[pid].kind.rot == w.sprites[pid].kind.rot
    && w'.sprites[pid].kind.customer == w.sprites[pid].kind.customer
    && w'.hud == w.hud && w'.credits == w.credits && w'.camera == w.camera
  }

  /** A change to the craft alone that keeps its position, pivot, heading and passenger. */
  lemma CraftOnlyKeeps(w: World, w': World, pid: SpriteId)
    requires PlayerAt(w, pid) && PlayerAt(w', pid) && OnlyChanged(w, w', pid)
    requires w'.sprites[pid].pos == w.sprites[pid].pos && w'.sprites[pid].origin == w.sprites[pid].origin
    requires w'.sprites[pid].kind.rot == w.sprites[pid].kind.rot
    requires w'.sprites[pid].kind.customer == w.sprites[pid].kind.customer
    ensures KeepsOthers(w, w', pid)
  {
  }

  lemma KeepsOthersTrans(w1: World, w2: World, w3: World, pid: SpriteId)
    requires PlayerAt(w1, pid) && PlayerAt(w2, pid) && PlayerAt(w3, pid)
    requires KeepsOthers(w1, w2, pid) && KeepsOthers(w2, w3, pid)
    ensures KeepsOthers(w1, w3, pid)
  {
  }

  /** Replaces the craft's state by `s`, which keeps its passenger and refers only to sprites of the table. */
  function SetCraft(w: World, pid: SpriteId, s: Sprite): (w': World)
    requires Valid(w) && PlayerAt(w, pid)
    requires s.kind.Player? && s.kind.customer == w.sprites[pid].kind.customer
    requires WellFormed(s, w.sprites.Keys)
    ensures Valid(w') && PlayerAt(w', pid) && OnlyChanged(w, w', pid)
    ensures w'.sprites[pid] == s
  {
    SpriteFacts(w, pid);
    Put(w, pid, s)
  }

  /** `landed = true; landedPlanet = planet; landedPos = offset` (space.js:406-408). */
  function Landed(p: Sprite, planet: SpriteId, offset: Vec2): (p': Sprite)
    requires p.kind.Player?
    ensures p'.kind.Player? && p'.kind.landed && p'.kind.landedPlanet == Some(planet) && p'.kind.landedPos == Some(offset)
    ensures p'.kind.rot == p.kind.rot && p'.kind.customer == p.kind.customer
    ensures p' == p.(kind := p'.kind)
  {
    p.(kind := Player(p.kind.rot, p.kind.customer, true, Some(planet), Some(offset)))
  }

  /**
   * One explosion fragment (space.js:387-395): jittered around the craft, a tenth of
   * its velocity plus a random spread, living `1 + 5 * draw` seconds.
   */
  function DebrisParticle(pos: Vec2, dPos: Vec2, id: SpriteId, env: Env): (s: Sprite)
    ensures s.kind.Particle? && WellFormed(s, {}) && s.kind.resize == 1.0 && s.kind.rot == 0.0
  {
    NewParticle(
      Sum(pos, Vec2(env.rnd(id, 0) * 50.0 - 25.0, env.rnd(id, 1) * 20.0 - 10.0)),
      Vec2(env.rnd(id, 2) * 5.0 + 2.0, env.rnd(id, 3) * 5.0 + 2.0),
      Sum(Scaled(dPos, 0.1), Vec2(env.rnd(id, 4) * 150.0 - 25.0, env.rnd(id, 5) * 150.0 - 25.0)),
      Some(env.rnd(id, 7) * 5.0 + 1.0),
      None,
      Some(env.rnd(id, 6) * 0.2 - 0.11),
      None)
  }

  /** With draws in [0, 1) a fragment lands within 25 by 10 of the craft and lives 1 to 6 seconds. */
  lemma DebrisJitter(pos: Vec2, dPos: Vec2, id: SpriteId, env: Env)
    requires forall j :: 0 <= j < 8 ==> 0.0 <= env.rnd(id, j) < 1.0
    ensures var s := DebrisParticle(pos, dPos, id, env);
      && -25.0 <= s.pos.x - pos.x < 25.0 && -10.0 <= s.pos.y - pos.y < 10.0
      && s.ttl.Finite? && 1.0 <= s.ttl.left < 6.0
  {
    assert 0.0 <= env.rnd(id, 0) < 1.0 && 0.0 <= env.rnd(id, 1) < 1.0 && 0.0 <= env.rnd(id, 7) < 1.0;
  }

  /**
   * The fragments of an explosion, the `k`-th for id `from + k`. Each fragment's
   * draws depend on its id alone, so building them before the spawning loop
   * yields the same sprites as building each inside it.
   */
  function Fragments(pos: Vec2, dPos: Vec2, from: nat, env: Env): (fs: seq<Sprite>)
    ensures |fs| == DebrisCount && AllFragments(fs)
  {
    var fs := seq(DebrisCount, k requires 0 <= k < DebrisCount => DebrisParticle(pos, dPos, from + k, env));
    assert AllFragments(fs) by {
      forall k | 0 <= k < |fs| ensures fs[k].kind.Particle? && WellFormed(fs[k], {}) {
        assert fs[k] == DebrisParticle(pos, dPos, from + k, env);
      }
    }
    fs
  }

  /** The `k`-th fragment is the one drawn for id `from + k`. */
  lemma FragmentAt(pos: Vec2, dPos: Vec2, from: nat, env: Env, k: nat)
    requires k < DebrisCount
    ensures Fragments(pos, dPos, from, env)[k] == DebrisParticle(pos, dPos, from + k, env)
  {
  }

  /** Every entry is a particle that refers to no other sprite. */
  predicate AllFragments(fs: seq<Sprite>) {
    forall k :: 0 <= k < |fs| ==> fs[k].kind.Particle? && WellFormed(fs[k], {})
  }

  /**
   * The spawning loop of space.js:387-401: the fragments get the ids from `w.next`
   * on, each appended to layer 0 and to the "debris" list.
   */
  function SpawnDebris(w: World, fs: seq<Sprite>): (w': World)
    ensures w'.next == w.next + |fs|
    ensures Layer(w', 0) == Layer(w, 0) + Ids(w.next, w.next + |fs|)
    decreases |fs|
  {
    if fs == [] then w
    else
      var w1 := Added(w, fs[0], 0, Some(DebrisTag));
      ConsAssoc(Layer(w, 0), w.next, Ids(w.next + 1, w.next + |fs|));
      SpawnDebris(w1, fs[1..])
  }

  /** Every fragment id is also appended, in order, to the "debris" tag list. */
  lemma {:induction false} SpawnDebrisTags(w: World, fs: seq<Sprite>)
    ensures var w' := SpawnDebris(w, fs);
      Tagged(w', DebrisTag) == Tagged(w, DebrisTag) + Ids(w.next, w.next + |fs|)
    decreases |fs|
  {
    if fs != [] {
      var w1 := Added(w, fs[0], 0, Some(DebrisTag));
      SpawnDebrisTags(w1, fs[1..]);
      ConsAssoc(Tagged(w, DebrisTag), w.next, Ids(w.next + 1, w.next + |fs|));
    }
  }

  /** Nothing but layer 0, the "debris" list and the sprite table changes. */
  lemma {:induction false} SpawnDebrisFrame(w: World, fs: seq<Sprite>)
    ensures var w' := SpawnDebris(w, fs);
      && (forall i :: i != 0 ==> Layer(w', i) == Layer(w, i))
      && (forall k :: k in w.hash && k != DebrisTag ==> k in w'.hash && w'.hash[k] == w.hash[k])
      && w'.hud == w.hud && w'.credits == w.credits && w'.camera == w.camera
    decreases |fs|
  {
    if fs != [] {
      SpawnDebrisFrame(Added(w, fs[0], 0, Some(DebrisTag)), fs[1..]);
    }
  }

  /** The sprite table gains exactly the fragment ids. */
  lemma {:induction false} SpawnDebrisKeys(w: World, fs: seq<Sprite>)
    ensures var w' := SpawnDebris(w, fs);
      forall x :: x in w'.sprites <==> x in w.sprites || w.next <= x < w.next + |fs|
    decreases |fs|
  {
    if fs != [] {
      var w1 := Added(w, fs[0], 0, Some(DebrisTag));
      SpawnDebrisKeys(w1, fs[1..]);
      var w' := SpawnDebris(w, fs);
      assert w' == SpawnDebris(w1, fs[1..]);
      forall x ensures x in w'.sprites <==> x in w.sprites || w.next <= x < w.next + |fs| {
        assert x in w1.sprites <==> x in w.sprites || x == w.next;
      }
    }
  }

  /** Entries below the first fragment id are kept. */
  lemma {:induction false} SpawnDebrisOlder(w: World, fs: seq<Sprite>)
    ensures var w' := SpawnDebris(w, fs);
      forall x :: x in w.sprites && x < w.next ==> x in w'.sprites && w'.sprites[x] == w.sprites[x]
    decreases |fs|
  {
    if fs != [] {
      SpawnDebrisOlder(Added(w, fs[0], 0, Some(DebrisTag)), fs[1..]);
    }
  }

  /** The `k`-th new id holds the `k`-th fragment. */
  lemma {:induction false} SpawnDebrisSprites(w: World, fs: seq<Sprite>, k: nat)
    requires k < |fs|
    ensures var w' := SpawnDebris(w, fs);
      w.next + k in w'.sprites && w'.sprites[w.next + k] == fs[k]
    decreases |fs|
  {
    var w1 := Added(w, fs[0], 0, Some(DebrisTag));
    assert SpawnDebris(w, fs) == SpawnDebris(w1, fs[1..]);
    if k == 0 {
      SpawnDebrisOlder(w1, fs[1..]);
      assert w.next in w1.sprites && w.next < w1.next && w1.sprites[w.next] == fs[0];
    } else {
      SpawnDebrisSprites(w1, fs[1..], k - 1);
      assert w.next + k == w1.next + (k - 1) && fs[1..][k - 1] == fs[k];
    }
  }

  /** The loop keeps the registry invariant, and with it every sprite already there. */
  lemma {:induction false} SpawnDebrisValid(w: World, fs: seq<Sprite>)
    requires Valid(w) && AllFragments(fs)
    ensures var w' := SpawnDebris(w, fs);
      && Valid(w')
      && forall x :: x in w.sprites ==> x in w'.sprites && w'.sprites[x] == w.sprites[x]
    decreases |fs|
  {
    if fs != [] {
      assert fs[0].kind.Particle? && WellFormed(fs[0], {});
      var (w1, _) := AddSprite(w, fs[0], Some(DebrisTag));
      assert AllFragments(fs[1..]) by {
        forall k | 0 <= k < |fs[1..]| ensures fs[1..][k].kind.Particle? && WellFormed(fs[1..][k], {}) {
          assert fs[1..][k] == fs[k + 1];
        }
      }
      SpawnDebrisValid(w1, fs[1..]);
    }
  }

  lemma ConsAssoc(a: seq<SpriteId>, x: SpriteId, b: seq<SpriteId>)
    ensures (a + [x]) + b == a + ([x] + b)
  {
  }

  /**
   * The lifetime changes of an explosion (space.js:385 and 397-399): the craft's
   * lifetime drops to 0 and a carried customer gets two seconds left. The source
   * sets the customer's lifetime after spawning the fragments; the two touch
   * different sprites, so `Explode` applies them first.
   */
  function Doom(w: World, pid: SpriteId): (w': World)
    requires Valid(w) && PlayerAt(w, pid)
    ensures Valid(w') && PlayerAt(w', pid) && w'.next == w.next
    ensures w'.sprites[pid] == w.sprites[pid].(ttl := Finite(0.0))
    ensures var c := w.sprites[pid].kind.customer;
      && (c.Some? ==> c.value != pid && c.value in w.sprites && c.value in w'.sprites
                      && w'.sprites[c.value] == w.sprites[c.value].(ttl := Finite(DroppedCustomerTtl)))
      && (forall x :: x in w.sprites && x != pid && (c.None? || x != c.value) ==>
            x in w'.sprites && w'.sprites[x] == w.sprites[x])
    ensures w'.sprites.Keys == w.sprites.Keys
    ensures w'.layers == w.layers && w'.hash == w.hash
    ensures w'.hud == w.hud && w'.credits == w.credits && w'.camera == w.camera
  {
    var w1 := SetTtl(w, pid, Finite(0.0));
    match w.sprites[pid].kind.customer
    case None => w1
    case Some(c) =>
      SpriteFacts(w, pid);
      SetTtl(w1, c, Finite(DroppedCustomerTtl))
  }

  /**
   * The explosion (space.js:384-403): `Doom`, then 100 fragments; what the
   * fragments are is stated by `ExplodeSpawnsDebris`. The delayed scenario reset
   * is not part of this model.
   */
  function Explode(w: World, pid: SpriteId, env: Env): (w': World)
    requires Valid(w) && PlayerAt(w, pid)
    ensures Valid(w') && PlayerAt(w', pid) && w'.next == w.next + DebrisCount
    ensures w'.sprites[pid] == w.sprites[pid].(ttl := Finite(0.0))
    ensures var c := w.sprites[pid].kind.customer;
      && (c.Some? ==> c.value != pid && c.value in w.sprites && c.value in w'.sprites
                      && w'.sprites[c.value] == w.sprites[c.value].(ttl := Finite(DroppedCustomerTtl)))
      && (forall x :: x in w.sprites && x != pid && (c.None? || x != c.value) ==>
            x in w'.sprites && w'.sprites[x] == w.sprites[x])
    ensures KeepsOthers(w, w', pid)
  {
    var p := w.sprites[pid];
    var w1 := Doom(w, pid);
    var fs := Fragments(p.pos, p.dPos, w.next, env);
    SpawnDebrisValid(w1, fs);
    SpawnDebrisFrame(w1, fs);
    SpawnDebris(w1, fs)
  }

  /**
   * An explosion appends exactly 100 new fragment ids, in order, to layer 0 and to
   * the "debris" list.
   */
  lemma ExplodeSpawnsDebris(w: World, pid: SpriteId, env: Env)
    requires Valid(w) && PlayerAt(w, pid)
    ensures var w' := Explode(w, pid, env);
      && Layer(w', 0) == Layer(w, 0) + Ids(w.next, w.next + DebrisCount)
      && Tagged(w', DebrisTag) == Tagged(w, DebrisTag) + Ids(w.next, w.next + DebrisCount)
  {
    var p := w.sprites[pid];
    SpawnDebrisTags(Doom(w, pid), Fragments(p.pos, p.dPos, w.next, env));
  }

  /** Each new id holds a fragment built from its own draws around the craft. */
  lemma ExplodeFragments(w: World, pid: SpriteId, env: Env)
    requires Valid(w) && PlayerAt(w, pid)
    ensures var w' := Explode(w, pid, env); var p := w.sprites[pid];
      forall x :: w.next <= x < w.next + DebrisCount ==>
        x in w'.sprites && w'.sprites[x] == DebrisParticle(p.pos, p.dPos, x, env)
  {
    var p := w.sprites[pid];
    FragmentsPlaced(Doom(w, pid), p.pos, p.dPos, env);
  }

  /** Spawning the fragments drawn for the ids from `w.next` on puts each at its own id. */
  lemma FragmentsPlaced(w: World, pos: Vec2, dPos: Vec2, env: Env)
    ensures var w' := SpawnDebris(w, Fragments(pos, dPos, w.next, env));
      forall x :: w.next <= x < w.next + DebrisCount ==>
        x in w'.sprites && w'.sprites[x] == DebrisParticle(pos, dPos, x, env)
  {
    var fs := Fragments(pos, dPos, w.next, env);
    var w' := SpawnDebris(w, fs);
    forall x | w.next <= x < w.next + DebrisCount
      ensures x in w'.sprites && w'.sprites[x] == DebrisParticle(pos, dPos, x, env)
    {
      SpawnDebrisSprites(w, fs, x - w.next);
      FragmentAt(pos, dPos, w.next, env, x - w.next);
    }
  }

  /** An explosion keeps the lists as `ListsKept` says. */
  lemma ExplodeLists(w: World, pid: SpriteId, env: Env)
    requires Valid(w) && PlayerAt(w, pid)
    ensures ListsKept(w, Explode(w, pid, env))
  {
    ExplodeFrame(w, pid, env);
    ExplodeSpawnsDebris(w, pid, env);
    IdsBounds(w.next, w.next + DebrisCount);
  }

  /** Every other layer and tag list stays as it was. */
  lemma ExplodeFrame(w: World, pid: SpriteId, env: Env)
    requires Valid(w) && PlayerAt(w, pid)
    ensures var w' := Explode(w, pid, env);
      && (forall i :: i != 0 ==> Layer(w', i) == Layer(w, i))
      && (forall k :: k in w.hash && k != DebrisTag ==> k in w'.hash && w'.hash[k] == w.hash[k])
  {
    var p := w.sprites[pid];
    SpawnDebrisFrame(Doom(w, pid), Fragments(p.pos, p.dPos, w.next, env));
  }

  /**
   * What the craft's update does to the registry's lists: every tag list but
   * "debris" and every layer but 0 are as they were, ids only grow, and layer 0
   * keeps its sprites and gains only new ones.
   */
  ghost predicate ListsKept(w: World, w': World) {
    && (forall k :: k in w.hash && k != DebrisTag ==> k in w'.hash && w'.hash[k] == w.hash[k])
    && (forall i :: i != 0 ==> Layer(w', i) == Layer(w, i))
    && w.next <= w'.next
    && (forall x :: x in Layer(w, 0) ==> x in Layer(w', 0))
    && (forall x :: x in Layer(w', 0) ==> x in Layer(w, 0) || w.next <= x)
  }

  /** A step that leaves the layers and the tag lists alone keeps them. */
  lemma SameListsKept(w: World, w': World)
    requires w'.layers == w.layers && w'.hash == w.hash && w.next <= w'.next
    ensures ListsKept(w, w')
  {
    forall i: nat ensures Layer(w', i) == Layer(w, i) {
    }
  }

  lemma ListsKeptTrans(w1: World, w2: World, w3: World)
    requires ListsKept(w1, w2) && ListsKept(w2, w3)
    ensures ListsKept(w1, w3)
  {
  }

  /** Every sprite but the craft and its passenger is as it was. */
  predicate Bystanders(w: World, w': World, pid: SpriteId)
    requires PlayerAt(w, pid)
  {
    forall x :: x in w.sprites && x != pid && Some(x) != w.sprites[pid].kind.customer ==>
      x in w'.sprites && w'.sprites[x] == w.sprites[x]
  }

  /** The ids `lo` to `hi - 1` are the ids between those bounds. */
  lemma IdsBounds(lo: nat, hi: nat)
    requires lo <= hi
    ensures forall x :: x in Ids(lo, hi) ==> lo <= x < hi
  {
    IdsElements(lo, hi);
    forall x | x in Ids(lo, hi) ensures lo <= x < hi {
      var i :| 0 <= i < |Ids(lo, hi)| && Ids(lo, hi)[i] == x;
    }
  }

  /**
   * The craft after planet `pl` acted on it: pulled by the unit vector towards the
   * planet and, on touchdown, landed there with its offset from the planet's centre.
   */
  function CraftAfter(p: Sprite, planet: SpriteId, pl: Sprite, pos: Vec2,
                      sensors: seq<Vec2>, gear: Vec2, env: Env): (p': Sprite)
    requires p.kind.Player?
    ensures p'.kind.Player? && p'.pos == p.pos && p'.origin == p.origin && p'.ttl == p.ttl
    ensures p'.kind.rot == p.kind.rot && p'.kind.customer == p.kind.customer
    ensures p'.dPos == Sum(p.dPos, env.unit(Diff(pl.pos, pos)))
  {
    var p1 := p.(dPos := Sum(p.dPos, env.unit(Diff(pl.pos, pos))));
    if Touchdown(pl, pos, sensors, gear) then Landed(p1, planet, Diff(pos, pl.pos)) else p1
  }

  /**
   * One pass of the planet loop (space.js:369-410) for the craft at `pos`: a planet
   * that does not attract the craft is skipped; otherwise it pulls the craft, may
   * land it, and explodes it when a sensor touches. What each case does is stated
   * by the `PlanetStep` lemmas below.
   */
  function PlanetStep(w: World, pid: SpriteId, planet: SpriteId, pos: Vec2,
                      sensors: seq<Vec2>, gear: Vec2, env: Env): (w': World)
    requires Valid(w) && PlayerAt(w, pid) && planet in w.sprites
    ensures Valid(w') && PlayerAt(w', pid) && KeepsOthers(w, w', pid)
  {
    var pl := w.sprites[planet];
    if !Attracts(pl, pos) then w
    else
      SpriteFacts(w, pid);
      var w1 := SetCraft(w, pid, CraftAfter(w.sprites[pid], planet, pl, pos, sensors, gear, env));
      CraftOnlyKeeps(w, w1, pid);
      if Hit(pl, pos, sensors) then
        var w2 := Explode(w1, pid, env);
        KeepsOthersTrans(w, w1, w2, pid);
        w2
      else w1
  }

  /** A planet that does not attract the craft changes nothing; one that does pulls it towards its centre. */
  lemma PlanetStepPull(w: World, pid: SpriteId, planet: SpriteId, pos: Vec2,
                       sensors: seq<Vec2>, gear: Vec2, env: Env)
    requires Valid(w) && PlayerAt(w, pid) && planet in w.sprites
    ensures var w' := PlanetStep(w, pid, planet, pos, sensors, gear, env); var pl := w.sprites[planet];
      && (!Attracts(pl, pos) ==> w' == w)
      && (Attracts(pl, pos) ==> w'.sprites[pid].dPos == Sum(w.sprites[pid].dPos, env.unit(Diff(pl.pos, pos))))
  {
  }

  /**
   * A sensor within the radius of a planet in range explodes the craft: lifetime 0,
   * 100 fragments appended to layer 0 and to "debris", and two seconds left to a
   * carried customer (space.js:376-399).
   */
  lemma PlanetStepExplosion(w: World, pid: SpriteId, planet: SpriteId, pos: Vec2,
                            sensors: seq<Vec2>, gear: Vec2, env: Env)
    requires Valid(w) && PlayerAt(w, pid) && planet in w.sprites
    requires Explodes(w.sprites[planet].pos, RadiusOf(w.sprites[planet].kind), pos, sensors)
    ensures var w' := PlanetStep(w, pid, planet, pos, sensors, gear, env); var c := w.sprites[pid].kind.customer;
      && w'.sprites[pid].ttl == Finite(0.0)
      && Layer(w', 0) == Layer(w, 0) + Ids(w.next, w.next + DebrisCount)
      && Tagged(w', DebrisTag) == Tagged(w, DebrisTag) + Ids(w.next, w.next + DebrisCount)
      && (c.Some? ==> c.value in w'.sprites && w'.sprites[c.value].ttl == Finite(DroppedCustomerTtl))
  {
    var pl := w.sprites[planet];
    SpriteFacts(w, pid);
    var w1 := SetCraft(w, pid, CraftAfter(w.sprites[pid], planet, pl, pos, sensors, gear, env));
    assert PlanetStep(w, pid, planet, pos, sensors, gear, env) == Explode(w1, pid, env);
    assert w1.next == w.next && Layer(w1, 0) == Layer(w, 0) && Tagged(w1, DebrisTag) == Tagged(w, DebrisTag);
    ExplodeSpawnsDebris(w1, pid, env);
  }

  /** Without an explosion only the craft's state can change, and its lifetime does not. */
  lemma PlanetStepCalm(w: World, pid: SpriteId, planet: SpriteId, pos: Vec2,
                       sensors: seq<Vec2>, gear: Vec2, env: Env)
    requires Valid(w) && PlayerAt(w, pid) && planet in w.sprites
    requires !Explodes(w.sprites[planet].pos, RadiusOf(w.sprites[planet].kind), pos, sensors)
    ensures var w' := PlanetStep(w, pid, planet, pos, sensors, gear, env);
      && OnlyChanged(w, w', pid)
      && w'.sprites[pid].ttl == w.sprites[pid].ttl
  {
  }

  /**
   * The craft lands on a planet exactly when the planet is in range, the gear is
   * within its radius and no sensor is; it then records the planet and its offset
   * from the planet's centre. Otherwise the landing fields are left alone (space.js:404-409).
   */
  lemma PlanetStepLanding(w: World, pid: SpriteId, planet: SpriteId, pos: Vec2,
                          sensors: seq<Vec2>, gear: Vec2, env: Env)
    requires Valid(w) && PlayerAt(w, pid) && planet in w.sprites
    ensures var w' := PlanetStep(w, pid, planet, pos, sensors, gear, env);
            var pl := w.sprites[planet]; var k := w.sprites[pid].kind; var k' := w'.sprites[pid].kind;
      && (Lands(pl.pos, RadiusOf(pl.kind), pos, sensors, gear) ==>
            k'.landed && k'.landedPlanet == Some(planet) && k'.landedPos == Some(Diff(pos, pl.pos)))
      && (!Lands(pl.pos, RadiusOf(pl.kind), pos, sensors, gear) ==>
            k'.landed == k.landed && k'.landedPlanet == k.landedPlanet && k'.landedPos == k.landedPos)
  {
  }

  // ---------------------------------------------------------------- the planet loop

  /** Planet `x` of `w` would land the craft. */
  predicate LandsOn(w: World, x: SpriteId, pos: Vec2, sensors: seq<Vec2>, gear: Vec2) {
    x in w.sprites && Lands(w.sprites[x].pos, RadiusOf(w.sprites[x].kind), pos, sensors, gear)
  }

  /** Planet `x` of `w` would explode the craft. */
  predicate ExplodesOn(w: World, x: SpriteId, pos: Vec2, sensors: seq<Vec2>) {
    x in w.sprites && Explodes(w.sprites[x].pos, RadiusOf(w.sprites[x].kind), pos, sensors)
  }

  /** Some planet of `planets` would land the craft. */
  predicate AnyLands(w: World, planets: seq<SpriteId>, pos: Vec2, sensors: seq<Vec2>, gear: Vec2) {
    exists i :: 0 <= i < |planets| && LandsOn(w, planets[i], pos, sensors, gear)
  }

  /** Some planet of `planets` would explode the craft. */
  predicate AnyExplodes(w: World, planets: seq<SpriteId>, pos: Vec2, sensors: seq<Vec2>) {
    exists i :: 0 <= i < |planets| && ExplodesOn(w, planets[i], pos, sensors)
  }

  /** Planets do not move while the craft is updated, so their verdicts do not change. */
  lemma VerdictsKept(w: World, w': World, pid: SpriteId, x: SpriteId, pos: Vec2, sensors: seq<Vec2>, gear: Vec2)
    requires PlayerAt(w, pid) && PlayerAt(w', pid) && KeepsOthers(w, w', pid) && x in w.sprites
    ensures LandsOn(w', x, pos, sensors, gear) == LandsOn(w, x, pos, sensors, gear)
    ensures ExplodesOn(w', x, pos, sensors) == ExplodesOn(w, x, pos, sensors)
  {
    if x == pid {
      assert RadiusOf(w.sprites[x].kind).None? && RadiusOf(w'.sprites[x].kind).None?;
    }
  }

  /** `spriteHash.planet.forEach(...)` (space.js:369-410): `PlanetStep` for each listed planet in turn. */
  function PlanetPass(w: World, pid: SpriteId, planets: seq<SpriteId>, pos: Vec2,
                      sensors: seq<Vec2>, gear: Vec2, env: Env): (w': World)
    requires Valid(w) && PlayerAt(w, pid) && AllIn(planets, w.sprites)
    ensures Valid(w') && PlayerAt(w', pid) && KeepsOthers(w, w', pid)
    decreases |planets|
  {
    if planets == [] then w
    else
      var w1 := PlanetStep(w, pid, planets[0], pos, sensors, gear, env);
      TailIn(planets, w1.sprites);
      var w2 := PlanetPass(w1, pid, planets[1..], pos, sensors, gear, env);
      KeepsOthersTrans(w, w1, w2, pid);
      w2
  }

  /**
   * A craft that was not landed is landed after the loop exactly when one of the
   * listed planets lands it.
   */
  lemma {:induction false} PlanetPassLanding(w: World, pid: SpriteId, planets: seq<SpriteId>, pos: Vec2,
                                             sensors: seq<Vec2>, gear: Vec2, env: Env)
    requires Valid(w) && PlayerAt(w, pid) && AllIn(planets, w.sprites)
    ensures PlanetPass(w, pid, planets, pos, sensors, gear, env).sprites[pid].kind.landed <==>
      w.sprites[pid].kind.landed || exists i :: 0 <= i < |planets| && LandsOn(w, planets[i], pos, sensors, gear)
    decreases |planets|
  {
    if planets != [] {
      var w1 := PlanetStep(w, pid, planets[0], pos, sensors, gear, env);
      PlanetStepLanding(w, pid, planets[0], pos, sensors, gear, env);
      TailIn(planets, w1.sprites);
      PlanetPassLanding(w1, pid, planets[1..], pos, sensors, gear, env);
      LandsOnSplit(w, w1, pid, planets, pos, sensors, gear);
      assert PlanetPass(w, pid, planets, pos, sensors, gear, env) == PlanetPass(w1, pid, planets[1..], pos, sensors, gear, env);
    }
  }

  /** The rest of a list of ids of the table is a list of ids of the table. */
  lemma TailIn(ids: seq<SpriteId>, table: map<SpriteId, Sprite>)
    requires ids != [] && AllIn(ids, table)
    ensures AllIn(ids[1..], table)
  {
    forall j | 0 <= j < |ids[1..]| ensures ids[1..][j] in table { assert ids[1..][j] == ids[j + 1]; }
  }

  /** Some listed planet lands the craft exactly when the first does or, after the first step, one of the rest. */
  lemma LandsOnSplit(w: World, w1: World, pid: SpriteId, planets: seq<SpriteId>, pos: Vec2, sensors: seq<Vec2>, gear: Vec2)
    requires PlayerAt(w, pid) && PlayerAt(w1, pid) && KeepsOthers(w, w1, pid)
    requires planets != [] && AllIn(planets, w.sprites)
    ensures (exists i :: 0 <= i < |planets| && LandsOn(w, planets[i], pos, sensors, gear)) <==>
      LandsOn(w, planets[0], pos, sensors, gear) || exists i :: 0 <= i < |planets[1..]| && LandsOn(w1, planets[1..][i], pos, sensors, gear)
  {
    var rest := planets[1..];
    if i :| 0 <= i < |rest| && LandsOn(w1, rest[i], pos, sensors, gear) {
      VerdictsKept(w, w1, pid, planets[i + 1], pos, sensors, gear);
      assert LandsOn(w, planets[i + 1], pos, sensors, gear);
    }
    if i :| 0 <= i < |planets| && LandsOn(w, planets[i], pos, sensors, gear) {
      if i > 0 {
        VerdictsKept(w, w1, pid, planets[i], pos, sensors, gear);
        assert LandsOn(w1, rest[i - 1], pos, sensors, gear);
      }
    }
  }

  /**
   * When none of the listed planets explodes the craft, the loop changes only the
   * craft's state and leaves its lifetime alone: no sprite is added and the layers
   * and tag lists are as they were.
   */
  lemma {:induction false} PlanetPassCalm(w: World, pid: SpriteId, planets: seq<SpriteId>, pos: Vec2,
                                          sensors: seq<Vec2>, gear: Vec2, env: Env)
    requires Valid(w) && PlayerAt(w, pid) && AllIn(planets, w.sprites)
    requires forall i :: 0 <= i < |planets| ==> !ExplodesOn(w, planets[i], pos, sensors)
    ensures var w' := PlanetPass(w, pid, planets, pos, sensors, gear, env);
      w'.sprites[pid].ttl == w.sprites[pid].ttl && OnlyChanged(w, w', pid)
    decreases |planets|
  {
    if planets != [] {
      var w1 := PlanetStep(w, pid, planets[0], pos, sensors, gear, env);
      PlanetStepCalm(w, pid, planets[0], pos, sensors, gear, env);
      var rest := planets[1..];
      TailIn(planets, w1.sprites);
      forall j | 0 <= j < |rest| ensures !ExplodesOn(w1, rest[j], pos, sensors) {
        VerdictsKept(w, w1, pid, planets[j + 1], pos, sensors, gear);
        assert rest[j] == planets[j + 1];
      }
      PlanetPassCalm(w1, pid, rest, pos, sensors, gear, env);
      var w2 := PlanetPass(w1, pid, rest, pos, sensors, gear, env);
      assert PlanetPass(w, pid, planets, pos, sensors, gear, env) == w2;
      OnlyChangedTrans(w, w1, w2, pid);
    }
  }

  /** When one of the listed planets explodes the craft, its lifetime is 0 after the loop. */
  lemma {:induction false} PlanetPassExplodes(w: World, pid: SpriteId, planets: seq<SpriteId>, pos: Vec2,
                                              sensors: seq<Vec2>, gear: Vec2, env: Env, k: nat)
    requires Valid(w) && PlayerAt(w, pid) && AllIn(planets, w.sprites)
    requires k < |planets| && ExplodesOn(w, planets[k], pos, sensors)
    ensures PlanetPass(w, pid, planets, pos, sensors, gear, env).sprites[pid].ttl == Finite(0.0)
    decreases |planets|, 1
  {
    if k == 0 {
      PlanetPassFirstExplodes(w, pid, planets, pos, sensors, gear, env);
    } else {
      var w1 := PlanetStep(w, pid, planets[0], pos, sensors, gear, env);
      var rest := planets[1..];
      TailIn(planets, w1.sprites);
      VerdictsKept(w, w1, pid, planets[k], pos, sensors, gear);
      assert rest[k - 1] == planets[k];
      PlanetPassExplodes(w1, pid, rest, pos, sensors, gear, env, k - 1);
      assert PlanetPass(w, pid, planets, pos, sensors, gear, env) == PlanetPass(w1, pid, rest, pos, sensors, gear, env);
    }
  }

  /** When the first listed planet explodes the craft, its lifetime is 0 after the loop. */
  lemma PlanetPassFirstExplodes(w: World, pid: SpriteId, planets: seq<SpriteId>, pos: Vec2,
                                sensors: seq<Vec2>, gear: Vec2, env: Env)
    requires Valid(w) && PlayerAt(w, pid) && AllIn(planets, w.sprites)
    requires planets != [] && ExplodesOn(w, planets[0], pos, sensors)
    ensures PlanetPass(w, pid, planets, pos, sensors, gear, env).sprites[pid].ttl == Finite(0.0)
    decreases |planets|, 0
  {
    var w1 := PlanetStep(w, pid, planets[0], pos, sensors, gear, env);
    PlanetStepExplosion(w, pid, planets[0], pos, sensors, gear, env);
    TailIn(planets, w1.sprites);
    PlanetPassStaysDown(w1, pid, planets[1..], pos, sensors, gear, env);
    assert PlanetPass(w, pid, planets, pos, sensors, gear, env) == PlanetPass(w1, pid, planets[1..], pos, sensors, gear, env);
  }

  /** A craft whose lifetime is 0 keeps it through the rest of the loop, whichever planets explode it. */
  lemma PlanetPassStaysDown(w: World, pid: SpriteId, planets: seq<SpriteId>, pos: Vec2,
                            sensors: seq<Vec2>, gear: Vec2, env: Env)
    requires Valid(w) && PlayerAt(w, pid) && AllIn(planets, w.sprites)
    requires w.sprites[pid].ttl == Finite(0.0)
    ensures PlanetPass(w, pid, planets, pos, sensors, gear, env).sprites[pid].ttl == Finite(0.0)
    decreases |planets|, 2
  {
    if j :| 0 <= j < |planets| && ExplodesOn(w, planets[j], pos, sensors) {
      PlanetPassExplodes(w, pid, planets, pos, sensors, gear, env, j);
    } else {
      PlanetPassCalm(w, pid, planets, pos, sensors, gear, env);
    }
  }

  /**
   * What the planet loop does to the craft: it is landed afterwards exactly when it
   * was or some listed planet lands it, and its lifetime is 0 when some listed
   * planet explodes it and unchanged otherwise.
   */
  lemma PlanetPassOutcome(w: World, pid: SpriteId, planets: seq<SpriteId>, pos: Vec2,
                          sensors: seq<Vec2>, gear: Vec2, env: Env)
    requires Valid(w) && PlayerAt(w, pid) && AllIn(planets, w.sprites)
    ensures var p := w.sprites[pid]; var p' := PlanetPass(w, pid, planets, pos, sensors, gear, env).sprites[pid];
      && (p'.kind.landed <==> p.kind.landed || AnyLands(w, planets, pos, sensors, gear))
      && (AnyExplodes(w, planets, pos, sensors) ==> p'.ttl == Finite(0.0))
      && (!AnyExplodes(w, planets, pos, sensors) ==> p'.ttl == p.ttl)
  {
    PlanetPassLanding(w, pid, planets, pos, sensors, gear, env);
    if k :| 0 <= k < |planets| && ExplodesOn(w, planets[k], pos, sensors) {
      PlanetPassExplodes(w, pid, planets, pos, sensors, gear, env, k);
    } else {
      PlanetPassCalm(w, pid, planets, pos, sensors, gear, env);
    }
  }

  /** A planet leaves the lists as `ListsKept` says and every sprite but the craft and its passenger alone. */
  lemma PlanetStepFrame(w: World, pid: SpriteId, planet: SpriteId, pos: Vec2,
                        sensors: seq<Vec2>, gear: Vec2, env: Env)
    requires Valid(w) && PlayerAt(w, pid) && planet in w.sprites
    ensures var w' := PlanetStep(w, pid, planet, pos, sensors, gear, env);
      ListsKept(w, w') && Bystanders(w, w', pid)
  {
    var pl := w.sprites[planet];
    if Attracts(pl, pos) {
      SpriteFacts(w, pid);
      var w1 := SetCraft(w, pid, CraftAfter(w.sprites[pid], planet, pl, pos, sensors, gear, env));
      assert ListsKept(w, w1) && Bystanders(w, w1, pid);
      if Hit(pl, pos, sensors) {
        var w2 := Explode(w1, pid, env);
        assert PlanetStep(w, pid, planet, pos, sensors, gear, env) == w2;
        ExplodeLists(w1, pid, env);
        ListsKeptTrans(w, w1, w2);
        assert w1.sprites[pid].kind.customer == w.sprites[pid].kind.customer;
      } else {
        assert PlanetStep(w, pid, planet, pos, sensors, gear, env) == w1;
      }
    }
  }

  /** The planet loop leaves the lists as `ListsKept` says and every sprite but the craft and its passenger alone. */
  lemma {:induction false} PlanetPassFrame(w: World, pid: SpriteId, planets: seq<SpriteId>, pos: Vec2,
                                           sensors: seq<Vec2>, gear: Vec2, env: Env)
    requires Valid(w) && PlayerAt(w, pid) && AllIn(planets, w.sprites)
    ensures var w' := PlanetPass(w, pid, planets, pos, sensors, gear, env);
      ListsKept(w, w') && Bystanders(w, w', pid)
    decreases |planets|
  {
    if planets != [] {
      var w1 := PlanetStep(w, pid, planets[0], pos, sensors, gear, env);
      PlanetStepFrame(w, pid, planets[0], pos, sensors, gear, env);
      var rest := planets[1..];
      TailIn(planets, w1.sprites);
      PlanetPassFrame(w1, pid, rest, pos, sensors, gear, env);
      var w2 := PlanetPass(w1, pid, rest, pos, sensors, gear, env);
      assert PlanetPass(w, pid, planets, pos, sensors, gear, env) == w2;
      ListsKeptTrans(w, w1, w2);
      assert w1.sprites[pid].kind.customer == w.sprites[pid].kind.customer;
    }
  }
}
