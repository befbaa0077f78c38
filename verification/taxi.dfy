/**
 * The rest of `Player.update` (space.js:352-469) after the planet loop: thrust with
 * its exhaust particle, rotation, the speed limit, drifting, and the pickup and
 * delivery of customers while landed.
 */
module Taxi {
  import opened Base
  import opened Vectors
  import opened Lifetime
  import opened Sprites
  import opened Registry
  import opened Host
  import opened Bodies
  import opened Pilot

  const CustomerTag := "customer"

  // ---------------------------------------------------------------- landed craft

  /** `this.pos = this.landedPlanet.pos.sum(this.landedPos)` (space.js:366-367): a landed craft rides its planet. */
  function Pin(w: World, pid: SpriteId): (w': World)
    requires Valid(w) && PlayerAt(w, pid) && w.sprites[pid].kind.landed
    ensures Valid(w') && PlayerAt(w', pid) && OnlyChanged(w, w', pid)
    ensures var k := w.sprites[pid].kind;
      && k.landedPlanet.Some? && k.landedPos.Some? && k.landedPlanet.value in w.sprites
      && w'.sprites[pid] == w.sprites[pid].(pos := Sum(w.sprites[k.landedPlanet.value].pos, k.landedPos.value))
  {
    SpriteFacts(w, pid);
    var p := w.sprites[pid];
    var planet := w.sprites[p.kind.landedPlanet.value];
    SetCraft(w, pid, p.(pos := Sum(planet.pos, p.kind.landedPos.value)))
  }

  /**
   * The `if (this.game.spriteHash.planet)` block (space.js:356-412) for a craft
   * heading `d`: without a "planet" list nothing happens; a landed craft is
   * pinned to its planet; otherwise every listed planet acts on it in turn.
   */
  function Navigate(w: World, pid: SpriteId, d: Vec2, env: Env): (w': World)
    requires Valid(w) && PlayerAt(w, pid)
    ensures Valid(w') && PlayerAt(w', pid) && ListsKept(w, w') && Bystanders(w, w', pid)
    ensures w'.hud == w.hud && w'.camera == w.camera
    ensures w'.sprites[pid].kind.rot == w.sprites[pid].kind.rot
    ensures w'.sprites[pid].kind.customer == w.sprites[pid].kind.customer
    ensures w'.credits == w.credits
    ensures forall x :: x in w.sprites && x != pid ==> x in w'.sprites && w'.sprites[x].kind == w.sprites[x].kind
    ensures PlanetTag !in w.hash ==> w' == w
    ensures var p := w.sprites[pid]; var k := p.kind;
      PlanetTag in w.hash && k.landed ==>
        && k.landedPlanet.Some? && k.landedPos.Some? && k.landedPlanet.value in w.sprites
        && w'.sprites[pid] == p.(pos := Sum(w.sprites[k.landedPlanet.value].pos, k.landedPos.value))
    ensures var p := w.sprites[pid]; var p' := w'.sprites[pid];
      PlanetTag in w.hash && !p.kind.landed ==>
        var planets := w.hash[PlanetTag];
        var sensors, gear := Sensors(p.pos, p.origin, d), Gear(p.pos, p.origin, d);
        && p'.pos == p.pos
        && (p'.kind.landed <==> AnyLands(w, planets, p.pos, sensors, gear))
        && (AnyExplodes(w, planets, p.pos, sensors) ==> p'.ttl == Finite(0.0))
        && (!AnyExplodes(w, planets, p.pos, sensors) ==> p'.ttl == p.ttl)
  {
    var p := w.sprites[pid];
    if PlanetTag !in w.hash then w
    else if p.kind.landed then Pin(w, pid)
    else
      var planets := w.hash[PlanetTag];
      assert AllIn(planets, w.sprites);
      var sensors, gear := Sensors(p.pos, p.origin, d), Gear(p.pos, p.origin, d);
      PlanetPassFrame(w, pid, planets, p.pos, sensors, gear, env);
      PlanetPassOutcome(w, pid, planets, p.pos, sensors, gear, env);
      PlanetPass(w, pid, planets, p.pos, sensors, gear, env)
  }

  // ---------------------------------------------------------------- thrust

  /**
   * The exhaust particle of space.js:415-425 for a craft at `pos` heading `d` whose
   * velocity after thrust is `dPos`: 15 behind the craft, blown backwards at 40
   * plus the craft's velocity and a jitter of up to 10 per axis, living 1 to 3
   * seconds, with resize 0.4.
   */
  function Exhaust(pos: Vec2, d: Vec2, dPos: Vec2, id: SpriteId, env: Env): (s: Sprite)
    ensures s.kind.Particle? && WellFormed(s, {}) && s.kind.resize == 0.4
    ensures s.pos == Sum(pos, Scaled(d, -15.0)) && s.rect == Vec2(8.0, 8.0)
  {
    var jitter := Vec2(env.rnd(id, 0) * 20.0 - 10.0, env.rnd(id, 1) * 20.0 - 10.0);
    NewParticle(Sum(pos, Scaled(d, -15.0)), Vec2(8.0, 8.0), Sum(Sum(Scaled(d, -40.0), dPos), jitter),
                Some(env.rnd(id, 2) * 2.0 + 1.0), None, None, Some(0.4))
  }

  /** With draws in [0, 1) the exhaust strays at most 10 per axis from its drift and lives 1 to 3 seconds. */
  lemma ExhaustJitter(pos: Vec2, d: Vec2, dPos: Vec2, id: SpriteId, env: Env)
    requires forall j :: 0 <= j < 3 ==> 0.0 <= env.rnd(id, j) < 1.0
    ensures var s := Exhaust(pos, d, dPos, id, env); var drift := Sum(Scaled(d, -40.0), dPos);
      && -10.0 <= s.dPos.x - drift.x < 10.0 && -10.0 <= s.dPos.y - drift.y < 10.0
      && s.ttl.Finite? && 1.0 <= s.ttl.left < 3.0
  {
    assert 0.0 <= env.rnd(id, 0) < 1.0 && 0.0 <= env.rnd(id, 1) < 1.0 && 0.0 <= env.rnd(id, 2) < 1.0;
  }

  /** The craft under thrust (space.js:414, 426-428): accelerated along its heading and no longer landed. */
  function Thrusted(p: Sprite, d: Vec2, delta: real): (p': Sprite)
    requires p.kind.Player?
    ensures p'.kind.Player? && !p'.kind.landed && p'.kind.landedPlanet.None? && p'.kind.landedPos.None?
    ensures p'.dPos == Sum(p.dPos, Scaled(d, delta * ThrustStrength))
    ensures p'.pos == p.pos && p'.origin == p.origin && p'.ttl == p.ttl
    ensures p'.kind.rot == p.kind.rot && p'.kind.customer == p.kind.customer
  {
    p.(dPos := Sum(p.dPos, Scaled(d, delta * ThrustStrength)),
       kind := Player(p.kind.rot, p.kind.customer, false, None, None))
  }

  /**
   * The `ArrowUp` branch (space.js:413-429): the craft is thrusted and one exhaust
   * particle, with the next id, is appended to layer 0 and to the "debris" list.
   */
  function Thrust(w: World, pid: SpriteId, d: Vec2, env: Env): (w': World)
    requires Valid(w) && PlayerAt(w, pid)
    ensures Valid(w') && PlayerAt(w', pid) && ListsKept(w, w')
    ensures |w'.layers| >= |w.layers| && forall i :: 0 < i < |w.layers| ==> w'.layers[i] == w.layers[i]
    ensures w'.hud == w.hud && w'.camera == w.camera
    ensures w'.sprites[pid] == Thrusted(w.sprites[pid], d, env.delta)
    ensures w'.next == w.next + 1 && w.next in w'.sprites
    ensures w'.sprites[w.next] == Exhaust(w.sprites[pid].pos, d, w'.sprites[pid].dPos, w.next, env)
    ensures Layer(w', 0) == Layer(w, 0) + [w.next]
    ensures Tagged(w', DebrisTag) == Tagged(w, DebrisTag) + [w.next]
    ensures w'.credits == w.credits
    ensures forall x :: x in w.sprites && x != pid ==> x in w'.sprites && w'.sprites[x] == w.sprites[x]
  {
    SpriteFacts(w, pid);
    var p := w.sprites[pid];
    var p' := Thrusted(p, d, env.delta);
    var w1 := SetCraft(w, pid, p');
    AddSprite(w1, Exhaust(p.pos, d, p'.dPos, w1.next, env), Some(DebrisTag)).0
  }

  // ---------------------------------------------------------------- steering and drifting

  /**
   * `ArrowLeft`/`ArrowRight` (space.js:433-442): a landed craft keeps its heading;
   * otherwise each held key turns it by 0.02.
   */
  function Turned(p: Sprite, keys: Keys): (p': Sprite)
    requires p.kind.Player?
    ensures p'.kind.Player? && p' == p.(kind := p'.kind)
    ensures p'.kind == Player(p'.kind.rot, p.kind.customer, p.kind.landed, p.kind.landedPlanet, p.kind.landedPos)
    ensures p.kind.landed ==> p'.kind.rot == p.kind.rot
    ensures !p.kind.landed ==>
              p'.kind.rot == p.kind.rot + (if keys.right then TurnStep else 0.0) - (if keys.left then TurnStep else 0.0)
  {
    var k := p.kind;
    var r1 := if keys.left && !k.landed then k.rot - TurnStep else k.rot;
    var r2 := if keys.right && !k.landed then r1 + TurnStep else r1;
    p.(kind := Player(r2, k.customer, k.landed, k.landedPlanet, k.landedPos))
  }

  /** The speed limit (space.js:443-446): a velocity above 300 is scaled down by the host's `clamp`. */
  function Clamped(p: Sprite, clamp: (Vec2, real) -> Vec2): (p': Sprite)
    ensures p' == p.(dPos := p'.dPos)
    ensures Within(p.dPos, MaxSpeed) ==> p'.dPos == p.dPos
    ensures !Within(p.dPos, MaxSpeed) ==> p'.dPos == clamp(p.dPos, MaxSpeed)
  {
    if Within(p.dPos, MaxSpeed) then p else p.(dPos := clamp(p.dPos, MaxSpeed))
  }

  /**
   * Whenever the host's `clamp` brings a velocity above the limit back to length
   * 300 at most, the craft is at most 300 fast after the speed limit.
   */
  lemma ClampedWithinLimit(p: Sprite, clamp: (Vec2, real) -> Vec2)
    requires forall v :: !Within(v, MaxSpeed) ==> Within(clamp(v, MaxSpeed), MaxSpeed)
    ensures Within(Clamped(p, clamp).dPos, MaxSpeed)
  {
  }

  /** space.js:448-453: a flying craft drifts by its velocity, a landed one is brought to rest. */
  function Drifted(p: Sprite, delta: real): (p': Sprite)
    requires p.kind.Player?
    ensures p'.kind == p.kind && p'.ttl == p.ttl && p'.origin == p.origin
    ensures !p.kind.landed ==> p'.dPos == p.dPos && Diff(p'.pos, p.pos) == Scaled(p.dPos, delta)
    ensures p.kind.landed ==> p'.pos == p.pos && p'.dPos == Zero
  {
    if p.kind.landed then p.(dPos := Zero) else p.(pos := Moved(p.pos, p.dPos, delta))
  }

  /** Turning, the speed limit and drifting, which touch the craft alone. */
  function Steer(w: World, pid: SpriteId, env: Env): (w': World)
    requires Valid(w) && PlayerAt(w, pid)
    ensures Valid(w') && PlayerAt(w', pid) && OnlyChanged(w, w', pid)
    ensures w'.sprites[pid] == Drifted(Clamped(Turned(w.sprites[pid], env.keys), env.clamp), env.delta)
  {
    SpriteFacts(w, pid);
    SetCraft(w, pid, Drifted(Clamped(Turned(w.sprites[pid], env.keys), env.clamp), env.delta))
  }

  // ---------------------------------------------------------------- pickup and delivery

  /** `customer.planetFrom === planet`: sprites of other kinds have no `planetFrom`. */
  predicate WaitsAt(table: map<SpriteId, Sprite>, id: SpriteId, planet: SpriteId)
    requires id in table
  {
    PlanetFromOf(table[id].kind) == Some(planet)
  }

  /** The position of the first sprite at or after position `i` of `ids` that waits at `planet`. */
  function FindFrom(table: map<SpriteId, Sprite>, ids: seq<SpriteId>, planet: SpriteId, i: nat): (r: Option<nat>)
    requires AllIn(ids, table) && i <= |ids|
    ensures r.Some? ==> i <= r.value < |ids| && WaitsAt(table, ids[r.value], planet)
    ensures r.Some? ==> forall j :: i <= j < r.value ==> !WaitsAt(table, ids[j], planet)
    ensures r.None? ==> forall j :: i <= j < |ids| ==> !WaitsAt(table, ids[j], planet)
    decreases |ids| - i
  {
    if i == |ids| then None
    else if WaitsAt(table, ids[i], planet) then Some(i)
    else FindFrom(table, ids, planet, i + 1)
  }

  /**
   * `spriteHash.customer.find(c => c.planetFrom === landedPlanet)` (space.js:455):
   * the position of the first listed sprite waiting at `planet`, whatever its
   * lifetime and whether or not it has boarded already.
   */
  function FirstPickup(table: map<SpriteId, Sprite>, ids: seq<SpriteId>, planet: SpriteId): (r: Option<nat>)
    requires AllIn(ids, table)
    ensures r.Some? ==> r.value < |ids| && WaitsAt(table, ids[r.value], planet)
    ensures r.Some? ==> forall j :: 0 <= j < r.value ==> !WaitsAt(table, ids[j], planet)
    ensures r.None? ==> forall j :: 0 <= j < |ids| ==> !WaitsAt(table, ids[j], planet)
  {
    FindFrom(table, ids, planet, 0)
  }

  /** `customer.boarded = this; this.customer = customer` (space.js:457-458). */
  function Board(w: World, pid: SpriteId, c: SpriteId): (w': World)
    requires Valid(w) && PlayerAt(w, pid) && c in w.sprites && w.sprites[c].kind.Customer?
    ensures Valid(w') && PlayerAt(w', pid) && c != pid
    ensures w'.sprites.Keys == w.sprites.Keys && w' == w.(sprites := w'.sprites)
    ensures w'.sprites[c] == w.sprites[c].(kind := w.sprites[c].kind.(boarded := Some(pid)))
    ensures w'.sprites[pid] == w.sprites[pid].(kind := w.sprites[pid].kind.(customer := Some(c)))
    ensures forall x :: x in w.sprites && x != pid && x != c ==> w'.sprites[x] == w.sprites[x]
  {
    SpriteFacts(w, pid);
    SpriteFacts(w, c);
    var ck := w.sprites[c].kind;
    var w1 := Put(w, c, w.sprites[c].(kind := Customer(ck.planetFrom, ck.planetTo, Some(pid), ck.money)));
    var pk := w.sprites[pid].kind;
    Put(w1, pid, w.sprites[pid].(kind := Player(pk.rot, Some(c), pk.landed, pk.landedPlanet, pk.landedPos)))
  }

  /**
   * `customer.ttl = 0; customer.boarded = null; credits += customer.money;
   * this.customer = null` (space.js:462-465).
   */
  function Deliver(w: World, pid: SpriteId, c: SpriteId): (w': World)
    requires Valid(w) && PlayerAt(w, pid) && c in w.sprites && w.sprites[c].kind.Customer?
    ensures Valid(w') && PlayerAt(w', pid) && c != pid
    ensures w'.credits == w.credits + w.sprites[c].kind.money
    ensures w'.sprites.Keys == w.sprites.Keys && w' == w.(sprites := w'.sprites, credits := w'.credits)
    ensures w'.sprites[c] == w.sprites[c].(ttl := Finite(0.0), kind := w.sprites[c].kind.(boarded := None))
    ensures w'.sprites[pid] == w.sprites[pid].(kind := w.sprites[pid].kind.(customer := None))
    ensures forall x :: x in w.sprites && x != pid && x != c ==> w'.sprites[x] == w.sprites[x]
  {
    SpriteFacts(w, pid);
    SpriteFacts(w, c);
    var ck := w.sprites[c].kind;
    var w1 := Put(w, c, w.sprites[c].(ttl := Finite(0.0), kind := Customer(ck.planetFrom, ck.planetTo, None, ck.money)));
    var pk := w.sprites[pid].kind;
    var w2 := Put(w1, pid, w.sprites[pid].(kind := Player(pk.rot, None, pk.landed, pk.landedPlanet, pk.landedPos)));
    w2.(credits := w2.credits + ck.money)
  }

  /**
   * What docking leaves alone: the sprite ids, the lists and the camera; the craft
   * changes only its passenger, no sprite but the craft and its old or new
   * passenger changes, and credits never drop.
   */
  predicate Docked(w: World, w': World, pid: SpriteId)
    requires PlayerAt(w, pid) && PlayerAt(w', pid)
  {
    && w'.sprites.Keys == w.sprites.Keys && w'.next == w.next
    && w'.layers == w.layers && w'.hash == w.hash && w'.hud == w.hud && w'.camera == w.camera
    && w'.credits >= w.credits
    && w'.sprites[pid] == w.sprites[pid].(kind := w'.sprites[pid].kind)
    && w'.sprites[pid].kind == w.sprites[pid].kind.(customer := w'.sprites[pid].kind.customer)
    && forall x :: (x in w.sprites && x != pid && Some(x) != w.sprites[pid].kind.customer
                    && Some(x) != w'.sprites[pid].kind.customer) ==> w'.sprites[x] == w.sprites[x]
  }

  /**
   * The landed branch after the craft has stopped (space.js:454-467): without a
   * passenger, board the first customer listed as waiting at the landed planet;
   * with one, deliver it if this is its destination. A missing "customer" list
   * makes `find` throw, which ends the frame: `Crash`.
   */
  function Dock(w: World, pid: SpriteId): (r: Result<World>)
    requires Valid(w) && PlayerAt(w, pid) && w.sprites[pid].kind.landed
    ensures r.Crash? <==> w.sprites[pid].kind.customer.None? && CustomerTag !in w.hash
    ensures r.Ok? ==> Valid(r.value) && PlayerAt(r.value, pid) && Docked(w, r.value, pid)
  {
    SpriteFacts(w, pid);
    var k := w.sprites[pid].kind;
    var planet := k.landedPlanet.value;
    match k.customer
    case None =>
      if CustomerTag !in w.hash then Crash("spriteHash.customer is undefined")
      else
        var ids := w.hash[CustomerTag];
        assert AllIn(ids, w.sprites);
        (match FirstPickup(w.sprites, ids, planet)
         case None => Ok(w)
         case Some(i) => Ok(Board(w, pid, ids[i])))
    case Some(c) =>
      if PlanetToOf(w.sprites[c].kind) == Some(planet) then Ok(Deliver(w, pid, c)) else Ok(w)
  }

  /**
   * Boarding: a landed craft without a passenger takes the first listed sprite
   * waiting at its planet, whose `boarded` becomes the craft; credits stay as
   * they are.
   */
  lemma DockBoards(w: World, pid: SpriteId, i: nat)
    requires Valid(w) && PlayerAt(w, pid) && w.sprites[pid].kind.landed
    requires w.sprites[pid].kind.landedPlanet.Some?
    requires w.sprites[pid].kind.customer.None? && CustomerTag in w.hash
    requires i < |w.hash[CustomerTag]| && AllIn(w.hash[CustomerTag], w.sprites)
    requires WaitsAt(w.sprites, w.hash[CustomerTag][i], w.sprites[pid].kind.landedPlanet.value)
    requires forall j :: 0 <= j < i ==>
      !WaitsAt(w.sprites, w.hash[CustomerTag][j], w.sprites[pid].kind.landedPlanet.value)
    ensures var r := Dock(w, pid); var c := w.hash[CustomerTag][i];
      && r.Ok? && c in r.value.sprites
      && r.value.sprites[pid].kind.customer == Some(c)
      && r.value.sprites[c].kind.Customer? && r.value.sprites[c].kind.boarded == Some(pid)
      && r.value.credits == w.credits
  {
    var ids := w.hash[CustomerTag];
    var planet := w.sprites[pid].kind.landedPlanet.value;
    assert FirstPickup(w.sprites, ids, planet) == Some(i);
  }

  /** When no listed sprite waits at the landed planet, a craft without a passenger changes nothing. */
  lemma DockNobodyWaiting(w: World, pid: SpriteId)
    requires Valid(w) && PlayerAt(w, pid) && w.sprites[pid].kind.landed
    requires w.sprites[pid].kind.landedPlanet.Some?
    requires w.sprites[pid].kind.customer.None? && CustomerTag in w.hash
    requires AllIn(w.hash[CustomerTag], w.sprites)
    requires forall j :: 0 <= j < |w.hash[CustomerTag]| ==>
      !WaitsAt(w.sprites, w.hash[CustomerTag][j], w.sprites[pid].kind.landedPlanet.value)
    ensures Dock(w, pid) == Ok(w)
  {
    assert FirstPickup(w.sprites, w.hash[CustomerTag], w.sprites[pid].kind.landedPlanet.value).None?;
  }

  /**
   * Delivery: landed at its passenger's destination, the craft is paid the fare,
   * the passenger's lifetime drops to 0 and it leaves the craft; elsewhere the
   * passenger stays aboard and nothing changes.
   */
  lemma DockDelivers(w: World, pid: SpriteId)
    requires Valid(w) && PlayerAt(w, pid) && w.sprites[pid].kind.landed
    requires w.sprites[pid].kind.landedPlanet.Some? && w.sprites[pid].kind.customer.Some?
    ensures var r := Dock(w, pid); var c := w.sprites[pid].kind.customer.value; var k := w.sprites[pid].kind;
      && c in w.sprites && w.sprites[c].kind.Customer? && r.Ok?
      && (w.sprites[c].kind.planetTo == k.landedPlanet.value ==>
            && r.value.credits == w.credits + w.sprites[c].kind.money
            && r.value.sprites[c].ttl == Finite(0.0)
            && r.value.sprites[c].kind.Customer? && r.value.sprites[c].kind.boarded.None?
            && r.value.sprites[pid].kind.customer.None?)
      && (w.sprites[c].kind.planetTo != k.landedPlanet.value ==> r.value == w)
  {
    SpriteFacts(w, pid);
  }

  /** Docking changes the credits only by paying a delivered passenger's fare. */
  lemma DockCredits(w: World, pid: SpriteId)
    requires Valid(w) && PlayerAt(w, pid) && w.sprites[pid].kind.landed
    ensures var r := Dock(w, pid); var c := w.sprites[pid].kind.customer;
      r.Ok? && r.value.credits != w.credits ==>
        && c.Some? && c.value in w.sprites && w.sprites[c.value].kind.Customer?
        && r.value.credits == w.credits + w.sprites[c.value].kind.money
        && r.value.sprites[pid].kind.customer.None?
  {
    SpriteFacts(w, pid);
  }

  // ---------------------------------------------------------------- the whole update

  /**
   * What each part of `Player.update` before the landed branch keeps: ids only
   * grow, the lists as `ListsKept` says, every sprite but the craft and its
   * passenger, the HUD, the camera, the credits and the craft's passenger.
   */
  ghost predicate CraftStep(w: World, w': World, pid: SpriteId)
    requires PlayerAt(w, pid)
  {
    && PlayerAt(w', pid)
    && w.sprites.Keys <= w'.sprites.Keys
    && ListsKept(w, w')
    && Bystanders(w, w', pid)
    && w'.hud == w.hud && w'.camera == w.camera && w'.credits == w.credits
    && w'.sprites[pid].kind.customer == w.sprites[pid].kind.customer
    && PassengerKept(w, w', pid)
  }

  /** The craft's passenger, if any, keeps its kind: its route, fare and `boarded`. */
  predicate PassengerKept(w: World, w': World, pid: SpriteId)
    requires PlayerAt(w, pid)
  {
    var c := w.sprites[pid].kind.customer;
    c.Some? && c.value in w.sprites ==> c.value in w'.sprites && w'.sprites[c.value].kind == w.sprites[c.value].kind
  }

  lemma CraftStepTrans(w1: World, w2: World, w3: World, pid: SpriteId)
    requires PlayerAt(w1, pid) && PlayerAt(w2, pid)
    requires CraftStep(w1, w2, pid) && CraftStep(w2, w3, pid)
    ensures CraftStep(w1, w3, pid)
  {
    ListsKeptTrans(w1, w2, w3);
  }

  /** A change to the craft alone that keeps its passenger is a `CraftStep`. */
  lemma CraftOnlyStep(w: World, w': World, pid: SpriteId)
    requires Valid(w) && PlayerAt(w, pid) && PlayerAt(w', pid) && OnlyChanged(w, w', pid)
    requires w'.sprites[pid].kind.customer == w.sprites[pid].kind.customer
    ensures CraftStep(w, w', pid)
  {
    SameListsKept(w, w');
    SpriteFacts(w, pid);
    var c := w.sprites[pid].kind.customer;
    assert PassengerKept(w, w', pid) by {
      if c.Some? && c.value in w.sprites && c.value != pid {
        assert w'.sprites[c.value] == w.sprites[c.value];
      }
    }
  }

  /** `Navigate` is a `CraftStep`. */
  lemma NavigateStep(w: World, pid: SpriteId, d: Vec2, env: Env)
    requires Valid(w) && PlayerAt(w, pid)
    ensures CraftStep(w, Navigate(w, pid, d, env), pid)
  {
    var w' := Navigate(w, pid, d, env);
    SpriteFacts(w, pid);
    assert w.sprites.Keys <= w'.sprites.Keys by {
      forall x | x in w.sprites ensures x in w'.sprites {
        if x != pid { assert x in w'.sprites; }
      }
    }
    var c := w.sprites[pid].kind.customer;
    assert PassengerKept(w, w', pid) by {
      if c.Some? && c.value in w.sprites && c.value != pid {
        assert w'.sprites[c.value].kind == w.sprites[c.value].kind;
      }
    }
  }

  /** `Thrust` is a `CraftStep`. */
  lemma ThrustStep(w: World, pid: SpriteId, d: Vec2, env: Env)
    requires Valid(w) && PlayerAt(w, pid)
    ensures CraftStep(w, Thrust(w, pid, d, env), pid)
  {
    var w' := Thrust(w, pid, d, env);
    SpriteFacts(w, pid);
    assert Bystanders(w, w', pid);
    var c := w.sprites[pid].kind.customer;
    assert PassengerKept(w, w', pid) by {
      if c.Some? && c.value in w.sprites && c.value != pid {
        assert w'.sprites[c.value] == w.sprites[c.value];
      }
    }
  }

  /**
   * `Player.update` up to the landed branch (space.js:352-453), with `heading(rot)`
   * as the thrust direction: the planet block, thrust while `ArrowUp` is held,
   * turning, the speed limit and drifting.
   */
  function Fly(w: World, pid: SpriteId, env: Env): (w': World)
    requires Valid(w) && PlayerAt(w, pid)
    ensures Valid(w') && CraftStep(w, w', pid)
  {
    var d := env.heading(w.sprites[pid].kind.rot);
    var w1 := Navigate(w, pid, d, env);
    NavigateStep(w, pid, d, env);
    var w2 := if env.keys.up then ThrustStep(w1, pid, d, env); Thrust(w1, pid, d, env) else w1;
    CraftStepTrans(w, w1, w2, pid);
    var w3 := Steer(w2, pid, env);
    CraftOnlyStep(w2, w3, pid);
    CraftStepTrans(w, w2, w3, pid);
    w3
  }

  /** A `CraftStep` followed by docking keeps what `PlayerUpdate` promises. */
  lemma FlyThenDock(w: World, w3: World, w4: World, pid: SpriteId)
    requires PlayerAt(w, pid) && PlayerAt(w3, pid) && PlayerAt(w4, pid)
    requires CraftStep(w, w3, pid) && Docked(w3, w4, pid)
    ensures w.sprites.Keys <= w4.sprites.Keys && ListsKept(w, w4) && w4.credits >= w.credits
    ensures w4.hud == w.hud && w4.camera == w.camera
    ensures forall x :: (x in w.sprites && x != pid && Some(x) != w.sprites[pid].kind.customer
                         && Some(x) != w4.sprites[pid].kind.customer) ==> w4.sprites[x] == w.sprites[x]
  {
    assert ListsKept(w3, w4) by {
      assert w4.layers == w3.layers && w4.hash == w3.hash && w4.next == w3.next;
    }
    ListsKeptTrans(w, w3, w4);
  }

  /**
   * `Player.update(delta)` (space.js:352-469): `Fly`, then, once stopped on a
   * planet, docking.
   */
  function PlayerUpdate(w: World, pid: SpriteId, env: Env): (r: Result<World>)
    requires Valid(w) && PlayerAt(w, pid)
    ensures r.Ok? ==> Valid(r.value) && PlayerAt(r.value, pid) && r.value.credits >= w.credits
    ensures r.Ok? ==> w.sprites.Keys <= r.value.sprites.Keys && ListsKept(w, r.value)
    ensures r.Ok? ==> r.value.hud == w.hud && r.value.camera == w.camera
    ensures r.Ok? ==> forall x :: (x in w.sprites && x != pid && Some(x) != w.sprites[pid].kind.customer
                                  && Some(x) != r.value.sprites[pid].kind.customer) ==> r.value.sprites[x] == w.sprites[x]
    ensures r.Crash? ==> CustomerTag !in w.hash
  {
    var w3 := Fly(w, pid, env);
    if w3.sprites[pid].kind.landed then
      var r := Dock(w3, pid);
      if r.Ok? then FlyThenDock(w, w3, r.value, pid); r else r
    else Ok(w3)
  }

  /** Holding `ArrowUp` leaves the craft flying: not landed, with no landing planet or offset. */
  lemma PlayerUpdateThrust(w: World, pid: SpriteId, env: Env)
    requires Valid(w) && PlayerAt(w, pid) && env.keys.up
    ensures var r := PlayerUpdate(w, pid, env);
      && r.Ok? && PlayerAt(r.value, pid)
      && !r.value.sprites[pid].kind.landed
      && r.value.sprites[pid].kind.landedPlanet.None? && r.value.sprites[pid].kind.landedPos.None?
  {
    var d := env.heading(w.sprites[pid].kind.rot);
    var w1 := Navigate(w, pid, d, env);
    var w2 := Thrust(w1, pid, d, env);
    var w3 := Steer(w2, pid, env);
    assert Fly(w, pid, env) == w3;
    assert PlayerUpdate(w, pid, env) == Ok(w3);
  }

  /**
   * The heading changes by 0.02 per held turn key, and only when the craft ends
   * the update flying; a landed craft keeps its heading.
   */
  lemma PlayerUpdateTurn(w: World, pid: SpriteId, env: Env)
    requires Valid(w) && PlayerAt(w, pid)
    ensures var r := PlayerUpdate(w, pid, env); var rot := w.sprites[pid].kind.rot;
      r.Ok? ==>
        && PlayerAt(r.value, pid)
        && (r.value.sprites[pid].kind.landed ==> r.value.sprites[pid].kind.rot == rot)
        && (!r.value.sprites[pid].kind.landed ==>
              r.value.sprites[pid].kind.rot
                == rot + (if env.keys.right then TurnStep else 0.0) - (if env.keys.left then TurnStep else 0.0))
  {
    var d := env.heading(w.sprites[pid].kind.rot);
    var w1 := Navigate(w, pid, d, env);
    var w2 := if env.keys.up then Thrust(w1, pid, d, env) else w1;
    var w3 := Steer(w2, pid, env);
    assert Fly(w, pid, env) == w3;
    assert w2.sprites[pid].kind.rot == w.sprites[pid].kind.rot;
    assert w3.sprites[pid].kind.landed == w2.sprites[pid].kind.landed;
    if w3.sprites[pid].kind.landed {
      assert PlayerUpdate(w, pid, env) == Dock(w3, pid);
    } else {
      assert PlayerUpdate(w, pid, env) == Ok(w3);
    }
  }

  /**
   * The credits change in an update only when the craft delivers the passenger it
   * carried, by that passenger's fare, and the passenger's lifetime is then 0.
   */
  lemma PlayerUpdateCredits(w: World, pid: SpriteId, env: Env)
    requires Valid(w) && PlayerAt(w, pid)
    ensures var r := PlayerUpdate(w, pid, env); var c := w.sprites[pid].kind.customer;
      r.Ok? && r.value.credits != w.credits ==>
        && c.Some? && c.value in w.sprites && w.sprites[c.value].kind.Customer?
        && r.value.credits == w.credits + w.sprites[c.value].kind.money
        && c.value in r.value.sprites && r.value.sprites[c.value].ttl == Finite(0.0)
        && PlayerAt(r.value, pid) && r.value.sprites[pid].kind.customer.None?
  {
    SpriteFacts(w, pid);
    var w3 := Fly(w, pid, env);
    if w3.sprites[pid].kind.landed {
      assert PlayerUpdate(w, pid, env) == Dock(w3, pid);
      DockCredits(w3, pid);
      var c := w.sprites[pid].kind.customer;
      if c.Some? {
        SpriteFacts(w3, pid);
        if Dock(w3, pid).Ok? && Dock(w3, pid).value.credits != w3.credits {
          DockDelivers(w3, pid);
        }
      }
    } else {
      assert PlayerUpdate(w, pid, env) == Ok(w3);
    }
  }

  /**
   * The craft ends `Fly` landed exactly when no thrust is applied and it either was
   * landed already or, with a "planet" list, one of the listed planets lands it.
   */
  lemma FlyLanded(w: World, pid: SpriteId, env: Env)
    requires Valid(w) && PlayerAt(w, pid)
    ensures var p := w.sprites[pid]; var d := env.heading(p.kind.rot);
      Fly(w, pid, env).sprites[pid].kind.landed <==>
        && !env.keys.up
        && (|| p.kind.landed
            || (PlanetTag in w.hash &&
                AnyLands(w, w.hash[PlanetTag], p.pos, Sensors(p.pos, p.origin, d), Gear(p.pos, p.origin, d))))
  {
    var d := env.heading(w.sprites[pid].kind.rot);
    var w1 := Navigate(w, pid, d, env);
    var w2 := if env.keys.up then Thrust(w1, pid, d, env) else w1;
    var w3 := Steer(w2, pid, env);
    assert Fly(w, pid, env) == w3;
    assert w3.sprites[pid].kind.landed == w2.sprites[pid].kind.landed;
  }

  /**
   * A flying craft that a listed planet explodes ends the update with lifetime 0,
   * whatever thrust, steering and docking do afterwards.
   */
  lemma PlayerUpdateExplodes(w: World, pid: SpriteId, env: Env)
    requires Valid(w) && PlayerAt(w, pid) && !w.sprites[pid].kind.landed && PlanetTag in w.hash
    requires var p := w.sprites[pid]; var d := env.heading(p.kind.rot);
      AnyExplodes(w, w.hash[PlanetTag], p.pos, Sensors(p.pos, p.origin, d))
    ensures var r := PlayerUpdate(w, pid, env);
      r.Ok? ==> PlayerAt(r.value, pid) && r.value.sprites[pid].ttl == Finite(0.0)
  {
    var d := env.heading(w.sprites[pid].kind.rot);
    var w1 := Navigate(w, pid, d, env);
    var w2 := if env.keys.up then Thrust(w1, pid, d, env) else w1;
    var w3 := Steer(w2, pid, env);
    assert Fly(w, pid, env) == w3;
    assert w3.sprites[pid].ttl == Finite(0.0);
    if w3.sprites[pid].kind.landed {
      assert PlayerUpdate(w, pid, env) == Dock(w3, pid);
    } else {
      assert PlayerUpdate(w, pid, env) == Ok(w3);
    }
  }

  /**
   * Boarding in the update: a craft without a passenger that ends `Fly` landed takes
   * the first listed sprite waiting at its planet, or, when nobody waits there,
   * changes nothing more.
   */
  lemma PlayerUpdateBoards(w: World, pid: SpriteId, env: Env)
    requires Valid(w) && PlayerAt(w, pid) && w.sprites[pid].kind.customer.None? && CustomerTag in w.hash
    requires Fly(w, pid, env).sprites[pid].kind.landed
    ensures var w3 := Fly(w, pid, env); var ids := w.hash[CustomerTag];
      && CustomerTag in w3.hash && w3.hash[CustomerTag] == ids && AllIn(ids, w3.sprites)
      && w3.sprites[pid].kind.landedPlanet.Some?
      && var r := PlayerUpdate(w, pid, env); var i := FirstPickup(w3.sprites, ids, w3.sprites[pid].kind.landedPlanet.value);
      && r.Ok?
      && (i.None? ==> r.value == w3)
      && (i.Some? ==>
            && ids[i.value] in r.value.sprites && PlayerAt(r.value, pid)
            && r.value.sprites[pid].kind.customer == Some(ids[i.value])
            && r.value.sprites[ids[i.value]].kind.Customer? && r.value.sprites[ids[i.value]].kind.boarded == Some(pid)
            && r.value.credits == w.credits)
  {
    var w3 := Fly(w, pid, env);
    var ids := w.hash[CustomerTag];
    SpriteFacts(w3, pid);
    assert CustomerTag != DebrisTag;
    assert w3.hash[CustomerTag] == ids;
    assert AllIn(ids, w3.sprites);
    assert PlayerUpdate(w, pid, env) == Dock(w3, pid);
    var planet := w3.sprites[pid].kind.landedPlanet.value;
    match FirstPickup(w3.sprites, ids, planet)
    case None => DockNobodyWaiting(w3, pid);
    case Some(i) => DockBoards(w3, pid, i);
  }

  /**
   * Delivery in the update: a craft carrying a passenger that ends `Fly` landed on
   * the passenger's destination is paid its fare, and the passenger leaves the craft
   * with lifetime 0.
   */
  lemma PlayerUpdateDelivers(w: World, pid: SpriteId, env: Env, c: SpriteId)
    requires Valid(w) && PlayerAt(w, pid) && w.sprites[pid].kind.customer == Some(c)
    requires c in w.sprites && w.sprites[c].kind.Customer?
    requires Fly(w, pid, env).sprites[pid].kind.landed
    requires Fly(w, pid, env).sprites[pid].kind.landedPlanet == Some(w.sprites[c].kind.planetTo)
    ensures var r := PlayerUpdate(w, pid, env);
      && r.Ok? && PlayerAt(r.value, pid)
      && r.value.credits == w.credits + w.sprites[c].kind.money
      && c in r.value.sprites && r.value.sprites[c].ttl == Finite(0.0)
      && r.value.sprites[c].kind.Customer? && r.value.sprites[c].kind.boarded.None?
      && r.value.sprites[pid].kind.customer.None?
  {
    var w3 := Fly(w, pid, env);
    assert PassengerKept(w, w3, pid);
    assert w3.sprites[c].kind == w.sprites[c].kind;
    SpriteFacts(w3, pid);
    assert PlayerUpdate(w, pid, env) == Dock(w3, pid);
    DockDelivers(w3, pid);
  }
}
