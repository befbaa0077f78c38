/**
 * `Game.updateAndRender` without the drawing (space.js:71-91): cleanup, then every
 * layer's sprites, then the HUD sprites, then the camera.
 */
module GameLoop {
  import opened Base
  import opened Vectors
  import opened Lifetime
  import opened Sprites
  import opened Registry
  import opened Host
  import opened Bodies
  import opened Pilot
  import opened Taxi

  /**
   * What every step of a frame keeps: the invariant, the sprite ids, the lists as
   * `ListsKept` says (so the "customer" list too) and the credit floor.
   */
  ghost predicate Progress(w: World, w': World) {
    && Valid(w')
    && w.sprites.Keys <= w'.sprites.Keys
    && ListsKept(w, w')
    && w'.credits >= w.credits
  }

  lemma ProgressTrans(w1: World, w2: World, w3: World)
    requires Progress(w1, w2) && Progress(w2, w3)
    ensures Progress(w1, w3)
  {
    ListsKeptTrans(w1, w2, w3);
  }

  /**
   * `sprite.update(delta)` for every class but the player: plain sprites, planets
   * and texts run `Sprite.update`; moons, customers, particles and junk run their own.
   */
  function BodyUpdate(w: World, id: SpriteId, env: Env): (w': World)
    requires Valid(w) && id in w.sprites && !w.sprites[id].kind.Player?
    ensures Valid(w') && OnlyChanged(w, w', id)
  {
    match w.sprites[id].kind
    case Moon(_, _, _, _, _) => MoonUpdate(w, id, env)
    case Customer(_, _, _, _) => CustomerUpdate(w, id, env.delta)
    case Particle(_, _, _) => ParticleUpdate(w, id, env.delta)
    case Junk(_, _) => JunkUpdate(w, id, env.delta)
    case _ => BaseUpdate(w, id, env.delta)
  }

  /** A change to one sprite's state alone is progress. */
  lemma OnlyChangedProgress(w: World, w': World, id: SpriteId)
    requires Valid(w') && OnlyChanged(w, w', id)
    ensures Progress(w, w')
  {
    assert w'.layers == w.layers && w'.hash == w.hash && w'.next == w.next;
  }

  /** `sprite.update(delta)` dispatched on the sprite's class; only the player's update can throw. */
  function UpdateSprite(w: World, id: SpriteId, env: Env): (r: Result<World>)
    requires Valid(w) && id in w.sprites
    ensures r.Ok? ==> Progress(w, r.value)
    ensures r.Crash? ==> w.sprites[id].kind.Player? && CustomerTag !in w.hash
  {
    if w.sprites[id].kind.Player? then PlayerUpdate(w, id, env)
    else
      var w' := BodyUpdate(w, id, env);
      OnlyChangedProgress(w, w', id);
      Ok(w')
  }

  /**
   * Every sprite but the player changes at most its own state: no sprite is added,
   * no list changes and the credits stay as they are.
   */
  lemma OthersTouchOnlyThemselves(w: World, id: SpriteId, env: Env)
    requires Valid(w) && id in w.sprites && !w.sprites[id].kind.Player?
    ensures var r := UpdateSprite(w, id, env); r.Ok? && OnlyChanged(w, r.value, id)
  {
  }

  /**
   * `list.forEach(sprite => sprite.update(delta))` over the ids the list held when
   * the loop started; an exception ends the loop.
   */
  function UpdateAll(w: World, ids: seq<SpriteId>, env: Env): (r: Result<World>)
    requires Valid(w) && AllIn(ids, w.sprites)
    ensures r.Ok? ==> Progress(w, r.value)
    ensures r.Crash? ==> CustomerTag !in w.hash
    decreases |ids|
  {
    if ids == [] then Ok(w)
    else
      match UpdateSprite(w, ids[0], env)
      case Crash(e) => Crash(e)
      case Ok(w1) =>
        assert AllIn(ids[1..], w1.sprites) by {
          forall j | 0 <= j < |ids[1..]| ensures ids[1..][j] in w1.sprites {
            assert ids[1..][j] == ids[j + 1];
          }
        }
        var r := UpdateAll(w1, ids[1..], env);
        if r.Ok? then ProgressTrans(w, w1, r.value); r else r
  }

  /**
   * `this.sprites.forEach(layer => ...)` (space.js:123-127) from layer `i` on: the
   * indices below the array's starting length `n`, skipping those that are holes
   * when the loop reaches them.
   */
  function UpdateLayers(w: World, i: nat, n: nat, env: Env): (r: Result<World>)
    requires Valid(w) && i <= n
    ensures r.Ok? ==> Progress(w, r.value)
    ensures r.Crash? ==> CustomerTag !in w.hash
    decreases n - i
  {
    if i == n then Ok(w)
    else if i < |w.layers| && w.layers[i].Some? then
      var ids := w.layers[i].value;
      assert AllIn(ids, w.sprites);
      match UpdateAll(w, ids, env)
      case Crash(e) => Crash(e)
      case Ok(w1) =>
        var r := UpdateLayers(w1, i + 1, n, env);
        if r.Ok? then ProgressTrans(w, w1, r.value); r else r
    else UpdateLayers(w, i + 1, n, env)
  }

  /**
   * One frame (space.js:71-91 without drawing): cleanup first, then the layers as
   * they were after cleanup, the HUD list, and the camera. The frame throws only
   * when a player update finds no "customer" list. Because cleanup comes first, a
   * layer keeps every sprite that was alive when the frame began, even one whose
   * lifetime runs out during the frame, and gains only sprites created in it.
   */
  function Frame(w: World, env: Env): (r: Result<World>)
    requires Valid(w)
    ensures r.Ok? ==> Valid(r.value) && r.value.credits >= w.credits
    ensures r.Ok? ==> w.sprites.Keys <= r.value.sprites.Keys
    ensures r.Ok? ==> KeepsLiving(w, r.value)
    ensures r.Crash? ==> CustomerTag !in w.hash
  {
    match FrameUpdates(Cleanup(w), env)
    case Crash(e) => Crash(e)
    case Ok(w') => CleanupThenProgress(w, w'); Ok(w')
  }

  /**
   * What the layers hold after a frame: every sprite that was in layer `i` and alive
   * when the frame began is still there, and any other member is new.
   */
  ghost predicate KeepsLiving(w: World, w': World) {
    && (forall i: nat, x: SpriteId :: x in Layer(w, i) && LiveIn(w, x) ==> x in Layer(w', i))
    && (forall i: nat, x: SpriteId :: x in Layer(w', i) ==> w.next <= x || (x in Layer(w, i) && LiveIn(w, x)))
  }

  /** The part of a frame after cleanup: the layers, the HUD list and the camera. */
  function FrameUpdates(w: World, env: Env): (r: Result<World>)
    requires Valid(w)
    ensures r.Ok? ==> Progress(w, r.value)
    ensures r.Crash? ==> CustomerTag !in w.hash
  {
    match SpriteUpdates(w, env)
    case Crash(e) => Crash(e)
    case Ok(w3) =>
      CameraProgress(w3);
      ProgressTrans(w, w3, UpdateCamera(w3));
      Ok(UpdateCamera(w3))
  }

  /** Moving the camera is progress. */
  lemma CameraProgress(w: World)
    requires Valid(w)
    ensures Progress(w, UpdateCamera(w))
  {
    var w' := UpdateCamera(w);
    assert w'.layers == w.layers && w'.hash == w.hash && w'.next == w.next;
  }

  /** Every layer's sprites, then the HUD sprites. */
  function SpriteUpdates(w: World, env: Env): (r: Result<World>)
    requires Valid(w)
    ensures r.Ok? ==> Progress(w, r.value)
    ensures r.Crash? ==> CustomerTag !in w.hash
  {
    match UpdateLayers(w, 0, |w.layers|, env)
    case Crash(e) => Crash(e)
    case Ok(w2) =>
      assert AllIn(w2.hud, w2.sprites);
      var r := UpdateAll(w2, w2.hud, env);
      if r.Ok? then ProgressTrans(w, w2, r.value); r
      else
        assert CustomerTag in w.hash ==> CustomerTag in w2.hash;
        r
  }

  /** What a frame's updates keep, seen from before its cleanup. */
  lemma CleanupThenProgress(w: World, w': World)
    requires Valid(w) && Progress(Cleanup(w), w')
    ensures w.sprites.Keys <= w'.sprites.Keys && w'.credits >= w.credits
    ensures KeepsLiving(w, w')
  {
    CleanupLayers(w);
  }
}
