/**
 * The sprite hierarchy of space.js (`Sprite` and its subclasses, lines 165-526)
 * as one record with a kind-specific part. References between sprites
 * (`orbits`, `planetFrom`, `boarded`, `customer`, `landedPlanet`) are ids into the
 * registry's sprite table.
 */
module Sprites {
  import opened Base
  import opened Vectors
  import opened Lifetime

  type SpriteId = nat

  datatype Kind =
    | Plain
    | Planet(radius: real)
    | Moon(radius: real, orbits: SpriteId, orbitRadius: real, angularPos: real, angularSpeed: real)
    | Customer(planetFrom: SpriteId, planetTo: SpriteId, boarded: Option<SpriteId>, money: nat)
    | Particle(rot: real, dRot: real, resize: real)
    | Junk(rot: real, dRot: real)
    | Player(rot: real, customer: Option<SpriteId>, landed: bool,
             landedPlanet: Option<SpriteId>, landedPos: Option<Vec2>)
    | Text(text: string)

  datatype Sprite = Sprite(pos: Vec2, rect: Vec2, origin: Vec2, dPos: Vec2, ttl: Ttl, kind: Kind)

  /** `Customer.radius` (space.js:234). */
  const CustomerRadius := 10.0
  /** The player's fixed size (space.js:340). */
  const PlayerSize := Vec2(50.0, 20.0)

  /** The `radius` field, absent (`undefined`) on kinds that have none. */
  function RadiusOf(k: Kind): Option<real> {
    match k
    case Planet(r) => Some(r)
    case Moon(r, _, _, _, _) => Some(r)
    case Customer(_, _, _, _) => Some(CustomerRadius)
    case _ => None
  }

  /** The `planetFrom` field, absent on every kind but `Customer`. */
  function PlanetFromOf(k: Kind): Option<SpriteId> {
    if k.Customer? then Some(k.planetFrom) else None
  }

  /** The `planetTo` field, absent on every kind but `Customer`. */
  function PlanetToOf(k: Kind): Option<SpriteId> {
    if k.Customer? then Some(k.planetTo) else None
  }

  function OptSet(o: Option<SpriteId>): set<SpriteId> {
    if o.Some? then {o.value} else {}
  }

  /** The sprites this kind refers to. */
  function RefsOf(k: Kind): set<SpriteId> {
    match k
    case Moon(_, o, _, _, _) => {o}
    case Customer(f, t, b, _) => {f, t} + OptSet(b)
    case Player(_, c, _, lp, _) => OptSet(c) + OptSet(lp)
    case _ => {}
  }

  /** The player's landing fields are set and cleared together (space.js:347-349, 406-408, 426-428). */
  predicate LandingFlagsAgree(k: Kind) {
    k.Player? ==> (k.landed <==> k.landedPlanet.Some?) && (k.landed <==> k.landedPos.Some?)
  }

  /** A sprite that only refers to sprites in `ids` and whose flags agree. */
  predicate WellFormed(s: Sprite, ids: set<SpriteId>) {
    RefsOf(s.kind) <= ids && LandingFlagsAgree(s.kind)
  }

  /** JavaScript truthiness of an optional number: absent and 0 are falsy. */
  predicate Falsy(a: Option<real>) {
    a.None? || a.value == 0.0
  }

  /** `a || d` for an optional number. */
  function OrDefault(a: Option<real>, d: real): real {
    if Falsy(a) then d else a.value
  }

  /**
   * The `Sprite` constructor (space.js:166-174): the origin defaults to the centre of
   * the rectangle, the velocity to zero and a falsy `ttl` to `Infinity`.
   */
  function NewSprite(pos: Vec2, rect: Vec2, origin: Option<Vec2>, dPos: Option<Vec2>,
                     ttl: Option<real>, kind: Kind): (s: Sprite)
    ensures s.pos == pos && s.rect == rect && s.kind == kind
    ensures origin.None? ==> s.origin.x * 2.0 == rect.x && s.origin.y * 2.0 == rect.y
    ensures origin.Some? ==> s.origin == origin.value
    ensures dPos.None? ==> s.dPos == Zero
    ensures dPos.Some? ==> s.dPos == dPos.value
    ensures Falsy(ttl) ==> s.ttl == Inf
    ensures !Falsy(ttl) ==> s.ttl == Finite(ttl.value)
  {
    var o := if origin.Some? then origin.value else Scaled(rect, 0.5);
    var d := if dPos.Some? then dPos.value else Zero;
    Sprite(pos, rect, o, d, FromArg(ttl), kind)
  }

  /** `new Planet({x, y, r})` (space.js:181-186). */
  function NewPlanet(pos: Vec2, r: real): (s: Sprite)
    ensures s.pos == pos && RadiusOf(s.kind) == Some(r)
    ensures s.ttl == Inf && s.dPos == Zero
  {
    NewSprite(pos, Zero, None, None, None, Planet(r))
  }

  /**
   * `new Moon({...})` (space.js:206-214): falsy orbit radius, angle and angular
   * speed default to four radii of the orbited planet, 0 and 0.25.
   */
  function NewMoon(pos: Vec2, r: real, orbits: SpriteId, orbitsRadius: real,
                   orbitRadius: Option<real>, angularPos: Option<real>,
                   angularSpeed: Option<real>): (s: Sprite)
    ensures s.kind.Moon? && s.kind.orbits == orbits && s.kind.radius == r
    ensures Falsy(orbitRadius) ==> s.kind.orbitRadius == orbitsRadius * 4.0
    ensures !Falsy(orbitRadius) ==> s.kind.orbitRadius == orbitRadius.value
    ensures Falsy(angularPos) ==> s.kind.angularPos == 0.0
    ensures !Falsy(angularPos) ==> s.kind.angularPos == angularPos.value
    ensures Falsy(angularSpeed) ==> s.kind.angularSpeed == 0.25
    ensures !Falsy(angularSpeed) ==> s.kind.angularSpeed == angularSpeed.value
    ensures s.ttl == Inf
  {
    NewSprite(pos, Zero, None, None, None,
      Moon(r, orbits, OrDefault(orbitRadius, orbitsRadius * 4.0),
           OrDefault(angularPos, 0.0), OrDefault(angularSpeed, 0.25)))
  }

  /**
   * `new Customer({planetFrom, planetTo})` (space.js:226-237): it waits at the
   * pickup planet's position, unboarded, with a fare of `floor(draw * 20 + 10)`.
   */
  function NewCustomer(from: SpriteId, fromPos: Vec2, to: SpriteId, draw: real): (s: Sprite)
    requires 0.0 <= draw < 1.0
    ensures s.pos == fromPos && s.ttl == Inf
    ensures s.kind.Customer? && s.kind.boarded.None?
    ensures PlanetFromOf(s.kind) == Some(from) && PlanetToOf(s.kind) == Some(to)
    ensures 10 <= s.kind.money <= 29
  {
    var m := (draw * 20.0 + 10.0).Floor;
    NewSprite(fromPos, Zero, None, None, None, Customer(from, to, None, m))
  }

  /** `new Particle({...})` (space.js:270-276): falsy `rot`/`dRot` become 0, falsy `resize` 1. */
  function NewParticle(pos: Vec2, rect: Vec2, dPos: Vec2, ttl: Option<real>,
                       rot: Option<real>, dRot: Option<real>, resize: Option<real>): (s: Sprite)
    ensures s.kind.Particle? && s.pos == pos && s.rect == rect && s.dPos == dPos
    ensures s.kind.resize != 0.0
    ensures Falsy(rot) ==> s.kind.rot == 0.0
    ensures !Falsy(rot) ==> s.kind.rot == rot.value
    ensures Falsy(dRot) ==> s.kind.dRot == 0.0
    ensures !Falsy(dRot) ==> s.kind.dRot == dRot.value
    ensures Falsy(resize) ==> s.kind.resize == 1.0
    ensures !Falsy(resize) ==> s.kind.resize == resize.value
    ensures Falsy(ttl) ==> s.ttl == Inf
    ensures !Falsy(ttl) ==> s.ttl == Finite(ttl.value)
  {
    NewSprite(pos, rect, None, Some(dPos), ttl,
      Particle(OrDefault(rot, 0.0), OrDefault(dRot, 0.0), OrDefault(resize, 1.0)))
  }

  /**
   * `new Player({x, y})` (space.js:339-350): a 50 by 20 craft pivoting on its centre,
   * at rest, not landed and carrying nobody.
   */
  function NewPlayer(pos: Vec2): (s: Sprite)
    ensures s.pos == pos && s.dPos == Zero && s.ttl == Inf
    ensures s.origin == Vec2(25.0, 10.0) && s.rect == Vec2(50.0, 20.0)
    ensures s.kind.Player? && s.kind.rot == 0.0 && !s.kind.landed && s.kind.customer.None?
    ensures WellFormed(s, {})
  {
    NewSprite(pos, PlayerSize, None, Some(Zero), None, Player(0.0, None, false, None, None))
  }
}
