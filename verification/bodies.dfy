/**
 * `update(delta)` of every sprite kind except the player: `Sprite` (space.js:175-177,
 * inherited by `Planet` and `Text`), `Moon` (215-223), `Customer` (238-244),
 * `Particle` (277-296) and `Junk` (320-325).
 */
module Bodies {
  import opened Base
  import opened Vectors
  import opened Lifetime
  import opened Sprites
  import opened Registry
  import opened Host

  /** `w'` differs from `w` at most in the state of sprite `id`. */
  predicate OnlyChanged(w: World, w': World, id: SpriteId) {
    && w'.sprites.Keys == w.sprites.Keys
    && w' == w.(sprites := w'.sprites)
    && forall x :: x in w.sprites && x != id ==> w'.sprites[x] == w.sprites[x]
  }

  lemma OnlyChangedTrans(w1: World, w2: World, w3: World, id: SpriteId)
    requires OnlyChanged(w1, w2, id) && OnlyChanged(w2, w3, id)
    ensures OnlyChanged(w1, w3, id)
  {
  }

  /** `pos += dPos * delta`, written component-wise as in the source. */
  function Moved(pos: Vec2, dPos: Vec2, delta: real): Vec2 {
    Vec2(pos.x + dPos.x * delta, pos.y + dPos.y * delta)
  }

  /** `Sprite.update`, run by plain sprites, planets and HUD texts. */
  function BaseUpdate(w: World, id: SpriteId, delta: real): (w': World)
    requires Valid(w) && id in w.sprites
    ensures Valid(w') && OnlyChanged(w, w', id)
    ensures w'.sprites[id] == w.sprites[id].(ttl := w'.sprites[id].ttl)
    ensures w.sprites[id].ttl.Inf? ==> w'.sprites[id].ttl.Inf?
    ensures w.sprites[id].ttl.Finite? ==>
              w'.sprites[id].ttl.Finite? && w'.sprites[id].ttl.left + delta == w.sprites[id].ttl.left
  {
    SetTtl(w, id, Tick(w.sprites[id].ttl, delta))
  }

  /**
   * `Moon.update`: the angle advances by `angularSpeed * delta` and the moon is put
   * on its orbit around the current position of the planet it orbits; its lifetime
   * is not aged.
   */
  function MoonUpdate(w: World, id: SpriteId, env: Env): (w': World)
    requires Valid(w) && id in w.sprites && w.sprites[id].kind.Moon?
    ensures Valid(w') && OnlyChanged(w, w', id)
    ensures var m := w.sprites[id]; var m' := w'.sprites[id];
      && m' == m.(pos := m'.pos, kind := m'.kind) && m'.kind.Moon?
      && m'.kind == Moon(m.kind.radius, m.kind.orbits, m.kind.orbitRadius, m'.kind.angularPos, m.kind.angularSpeed)
      && m'.kind.angularPos - m.kind.angularPos == m.kind.angularSpeed * env.delta
      && m.kind.orbits in w.sprites
      && Diff(m'.pos, w.sprites[m.kind.orbits].pos) == Scaled(env.heading(m'.kind.angularPos), m.kind.orbitRadius)
  {
    SpriteFacts(w, id);
    var m := w.sprites[id];
    var a := m.kind.angularPos + m.kind.angularSpeed * env.delta;
    var centre := w.sprites[m.kind.orbits].pos;
    var pos := Sum(centre, Scaled(env.heading(a), m.kind.orbitRadius));
    var k := Moon(m.kind.radius, m.kind.orbits, m.kind.orbitRadius, a, m.kind.angularSpeed);
    Put(w, id, m.(pos := pos, kind := k))
  }

  /** With cosine/sine headings, a moon is always one orbit radius from its planet's centre. */
  lemma MoonStaysOnOrbit(w: World, id: SpriteId, env: Env)
    requires Valid(w) && id in w.sprites && w.sprites[id].kind.Moon?
    requires UnitHeadings(env)
    ensures var m := w.sprites[id];
      m.kind.orbits in w.sprites &&
      SqLen(Diff(MoonUpdate(w, id, env).sprites[id].pos, w.sprites[m.kind.orbits].pos))
        == m.kind.orbitRadius * m.kind.orbitRadius
  {
    SpriteFacts(w, id);
    var m := w.sprites[id];
    var m' := MoonUpdate(w, id, env).sprites[id];
    var h := env.heading(m'.kind.angularPos);
    assert SqLen(h) == 1.0;
    SqLenScaled(h, m.kind.orbitRadius);
  }

  /**
   * `Customer.update`: ages like any sprite and, while boarded, sits at its carrier's
   * position.
   */
  function CustomerUpdate(w: World, id: SpriteId, delta: real): (w': World)
    requires Valid(w) && id in w.sprites && w.sprites[id].kind.Customer?
    ensures Valid(w') && OnlyChanged(w, w', id)
    ensures var c := w.sprites[id]; var c' := w'.sprites[id];
      && c' == c.(ttl := c'.ttl, pos := c'.pos)
      && c'.ttl == Tick(c.ttl, delta)
      && (c.kind.boarded.Some? ==> c.kind.boarded.value in w.sprites)
      && (c.kind.boarded.Some? ==> c'.pos == w.sprites[c.kind.boarded.value].pos)
      && (c.kind.boarded.None? ==> c'.pos == c.pos)
  {
    SpriteFacts(w, id);
    var c := w.sprites[id];
    var t := Tick(c.ttl, delta);
    var pos := if c.kind.boarded.Some? then w.sprites[c.kind.boarded.value].pos else c.pos;
    Put(w, id, c.(ttl := t, pos := pos))
  }

  /** `Junk.update`: ages, drifts by `dPos * delta` and spins by `dRot` per frame. */
  function JunkUpdate(w: World, id: SpriteId, delta: real): (w': World)
    requires Valid(w) && id in w.sprites && w.sprites[id].kind.Junk?
    ensures Valid(w') && OnlyChanged(w, w', id)
    ensures var j := w.sprites[id]; var j' := w'.sprites[id];
      && j' == j.(ttl := j'.ttl, pos := j'.pos, kind := j'.kind)
      && j'.ttl == Tick(j.ttl, delta) && j'.kind.Junk?
      && Diff(j'.pos, j.pos) == Scaled(j.dPos, delta)
      && j'.kind.rot - j.kind.rot == j.kind.dRot && j'.kind.dRot == j.kind.dRot
  {
    var j := w.sprites[id];
    Put(w, id, j.(ttl := Tick(j.ttl, delta), pos := Moved(j.pos, j.dPos, delta),
                  kind := Junk(j.kind.rot + j.kind.dRot, j.kind.dRot)))
  }

  /**
   * The planet loop of `Particle.update` (space.js:285-295): for each listed planet in
   * order, a particle strictly inside its radius takes back its last step (with its
   * current velocity) and reverses at a fifth of its speed. Sprites without a radius
   * never bounce it.
   */
  function Bounce(pos: Vec2, dPos: Vec2, planets: seq<SpriteId>, table: map<SpriteId, Sprite>, delta: real): (r: (Vec2, Vec2))
    requires AllIn(planets, table)
    ensures SqLen(r.1) <= SqLen(dPos)
    ensures (forall j :: 0 <= j < |planets| ==> RadiusOf(table[planets[j]].kind).None?) ==> r == (pos, dPos)
    decreases |planets|
  {
    if planets == [] then (pos, dPos)
    else
      var p := table[planets[0]];
      var hit := RadiusOf(p.kind).Some? && StrictlyWithin(Diff(p.pos, pos), RadiusOf(p.kind).value);
      var pos1 := if hit then Moved(pos, dPos, -delta) else pos;
      var dPos1 := if hit then Scaled(dPos, -0.2) else dPos;
      assert SqLen(dPos1) <= SqLen(dPos) by {
        SqLenScaled(dPos, -0.2);
        SqLenNonNegative(dPos);
      }
      Bounce(pos1, dPos1, planets[1..], table, delta)
  }

  /**
   * One bounce against a single planet undoes the step that carried the particle
   * inside: it is back where it was before moving, flying the other way at a fifth of
   * the speed.
   */
  lemma BounceUndoesStep(pos0: Vec2, dPos: Vec2, planet: SpriteId, table: map<SpriteId, Sprite>, delta: real)
    requires planet in table && RadiusOf(table[planet].kind).Some?
    requires StrictlyWithin(Diff(table[planet].pos, Moved(pos0, dPos, delta)), RadiusOf(table[planet].kind).value)
    ensures Bounce(Moved(pos0, dPos, delta), dPos, [planet], table, delta) == (pos0, Scaled(dPos, -0.2))
  {
    BounceHit(Moved(pos0, dPos, delta), dPos, [planet], table, delta);
    MovedBack(pos0, dPos, delta);
    assert [planet][1..] == [];
  }

  /** A planet at the head of the list that has the particle strictly inside takes back its step. */
  lemma BounceHit(pos: Vec2, dPos: Vec2, planets: seq<SpriteId>, table: map<SpriteId, Sprite>, delta: real)
    requires AllIn(planets, table) && planets != []
    requires RadiusOf(table[planets[0]].kind).Some?
    requires StrictlyWithin(Diff(table[planets[0]].pos, pos), RadiusOf(table[planets[0]].kind).value)
    ensures AllIn(planets[1..], table)
    ensures Bounce(pos, dPos, planets, table, delta)
         == Bounce(Moved(pos, dPos, -delta), Scaled(dPos, -0.2), planets[1..], table, delta)
  {
    assert AllIn(planets[1..], table) by {
      forall j | 0 <= j < |planets[1..]| ensures planets[1..][j] in table {
        assert planets[1..][j] == planets[j + 1];
      }
    }
  }

  /** A particle strictly inside none of the listed planets is left where it is, with its velocity. */
  lemma {:induction false} BounceMiss(pos: Vec2, dPos: Vec2, planets: seq<SpriteId>, table: map<SpriteId, Sprite>, delta: real)
    requires AllIn(planets, table)
    requires forall j :: 0 <= j < |planets| && RadiusOf(table[planets[j]].kind).Some? ==>
               !StrictlyWithin(Diff(table[planets[j]].pos, pos), RadiusOf(table[planets[j]].kind).value)
    ensures Bounce(pos, dPos, planets, table, delta) == (pos, dPos)
    decreases |planets|
  {
    if planets != [] {
      var rest := planets[1..];
      assert AllIn(rest, table) by {
        forall j | 0 <= j < |rest| ensures rest[j] in table {
          assert rest[j] == planets[j + 1];
        }
      }
      forall j | 0 <= j < |rest| && RadiusOf(table[rest[j]].kind).Some?
        ensures !StrictlyWithin(Diff(table[rest[j]].pos, pos), RadiusOf(table[rest[j]].kind).value)
      {
        assert rest[j] == planets[j + 1];
      }
      BounceMiss(pos, dPos, rest, table, delta);
    }
  }

  /** A step by `-delta` takes back a step by `delta`. */
  lemma MovedBack(pos: Vec2, dPos: Vec2, delta: real)
    ensures Moved(Moved(pos, dPos, delta), dPos, -delta) == pos
  {
    assert dPos.x * -delta == -(dPos.x * delta);
    assert dPos.y * -delta == -(dPos.y * delta);
  }

  /**
   * `Particle.update`: ages, moves by `dPos * delta`, grows by the factor
   * `1 + (resize - 1) * delta` unless `resize` is 1, spins by `dRot`, then bounces off
   * the planets when the tag list `planet` exists.
   */
  function ParticleUpdate(w: World, id: SpriteId, delta: real): (w': World)
    requires Valid(w) && id in w.sprites && w.sprites[id].kind.Particle?
    ensures Valid(w') && OnlyChanged(w, w', id)
    ensures var p := w.sprites[id]; var p' := w'.sprites[id];
      && p'.ttl == Tick(p.ttl, delta) && p'.kind.Particle?
      && p'.kind.rot - p.kind.rot == p.kind.dRot
      && p'.kind.resize == p.kind.resize && p'.origin == p.origin
      && SqLen(p'.dPos) <= SqLen(p.dPos)
      && (p.kind.resize == 1.0 ==> p'.rect == p.rect)
      && (p.kind.resize != 1.0 ==> p'.rect == Scaled(p.rect, 1.0 + (p.kind.resize - 1.0) * delta))
      && (PlanetTag !in w.hash ==> p'.dPos == p.dPos && Diff(p'.pos, p.pos) == Scaled(p.dPos, delta))
    ensures var p := w.sprites[id]; var p' := w'.sprites[id];
      PlanetTag in w.hash ==>
        && AllIn(w.hash[PlanetTag], w.sprites)
        && (p'.pos, p'.dPos) == Bounce(Moved(p.pos, p.dPos, delta), p.dPos, w.hash[PlanetTag], w.sprites, delta)
  {
    var p := w.sprites[id];
    var pos := Moved(p.pos, p.dPos, delta);
    var rect := if p.kind.resize != 1.0 then Scaled(p.rect, 1.0 + (p.kind.resize - 1.0) * delta) else p.rect;
    var k := Particle(p.kind.rot + p.kind.dRot, p.kind.dRot, p.kind.resize);
    var (pos', dPos') :=
      if PlanetTag in w.hash then
        assert AllIn(w.hash[PlanetTag], w.sprites);
        Bounce(pos, p.dPos, w.hash[PlanetTag], w.sprites, delta)
      else (pos, p.dPos);
    Put(w, id, p.(ttl := Tick(p.ttl, delta), pos := pos', dPos := dPos', rect := rect, kind := k))
  }

  /**
   * A particle whose step carries it strictly inside the only listed planet ends the
   * update where it started, flying back at a fifth of its speed.
   */
  lemma ParticleBouncesBack(w: World, id: SpriteId, planet: SpriteId, delta: real)
    requires Valid(w) && id in w.sprites && w.sprites[id].kind.Particle?
    requires PlanetTag in w.hash && w.hash[PlanetTag] == [planet]
    requires planet in w.sprites && RadiusOf(w.sprites[planet].kind).Some?
    requires StrictlyWithin(Diff(w.sprites[planet].pos, Moved(w.sprites[id].pos, w.sprites[id].dPos, delta)),
                            RadiusOf(w.sprites[planet].kind).value)
    ensures var p := w.sprites[id]; var p' := ParticleUpdate(w, id, delta).sprites[id];
      p'.pos == p.pos && p'.dPos == Scaled(p.dPos, -0.2)
  {
    var p := w.sprites[id];
    BounceUndoesStep(p.pos, p.dPos, planet, w.sprites, delta);
  }
}
