/**
 * The `Game` registry of space.js:40-139: a table of every sprite ever added,
 * the sparse array of layers (`sprites`), the tag index (`spriteHash`), the HUD
 * list and the credit balance.
 */
module Registry {
  import opened Base
  import opened Vectors
  import opened Lifetime
  import opened Sprites

  /** `Camera` (space.js:140-164) without its drawing transform. */
  datatype Camera = Camera(pos: Vec2, follow: Option<SpriteId>)

  /**
   * `sprites` maps every id ever handed out to the sprite's current state;
   * `layers` is the source's `sprites` array, where `None` is a hole.
   */
  datatype World = World(
    sprites: map<SpriteId, Sprite>,
    next: SpriteId,
    layers: seq<Option<seq<SpriteId>>>,
    hash: map<string, seq<SpriteId>>,
    hud: seq<SpriteId>,
    credits: int,
    camera: Option<Camera>)

  /** The tag list of the sprites players and particles are tested against. */
  const PlanetTag := "planet"

  /** `this.credits = 10` (space.js:48). */
  const InitialCredits := 10

  /** A player's `customer` is a `Customer` sprite of the table. */
  predicate CarriesCustomer(s: Sprite, table: map<SpriteId, Sprite>) {
    s.kind.Player? && s.kind.customer.Some? ==>
      s.kind.customer.value in table && table[s.kind.customer.value].kind.Customer?
  }

  /**
   * Sprite `id` was handed out below the id counter, refers only to sprites of the
   * table, and, if it is a player, carries only a customer.
   */
  predicate SpriteOk(table: map<SpriteId, Sprite>, next: SpriteId, id: SpriteId)
    requires id in table
  {
    id < next && WellFormed(table[id], table.Keys) && CarriesCustomer(table[id], table)
  }

  /** Every id the registry lists or a sprite mentions is a sprite of the table. */
  predicate Valid(w: World) {
    && (forall id {:trigger SpriteOk(w.sprites, w.next, id)} :: id in w.sprites ==> SpriteOk(w.sprites, w.next, id))
    && (forall i, j :: 0 <= i < |w.layers| && w.layers[i].Some? && 0 <= j < |w.layers[i].value|
          ==> w.layers[i].value[j] in w.sprites)
    && (forall k, j :: k in w.hash && 0 <= j < |w.hash[k]| ==> w.hash[k][j] in w.sprites)
    && (forall j :: 0 <= j < |w.hud| ==> w.hud[j] in w.sprites)
    && (w.camera.Some? && w.camera.value.follow.Some? ==> w.camera.value.follow.value in w.sprites)
  }

  /** What `Valid` says of one sprite of the table. */
  lemma SpriteFacts(w: World, id: SpriteId)
    requires Valid(w) && id in w.sprites
    ensures id < w.next && RefsOf(w.sprites[id].kind) <= w.sprites.Keys
    ensures LandingFlagsAgree(w.sprites[id].kind) && CarriesCustomer(w.sprites[id], w.sprites)
  {
    assert SpriteOk(w.sprites, w.next, id);
  }

  /** The next id has not been handed out yet. */
  lemma FreshId(w: World)
    requires Valid(w)
    ensures w.next !in w.sprites
  {
    if w.next in w.sprites {
      SpriteFacts(w, w.next);
    }
  }

  /** `new Game()` (space.js:41-50). */
  function NewGame(): (w: World)
    ensures Valid(w) && w.credits == InitialCredits
    ensures w.sprites == map[] && w.layers == [] && w.hash == map[] && w.hud == []
  {
    World(map[], 0, [], map[], [], InitialCredits, None)
  }

  /** Layer `i` as a list, empty for a hole or an index past the end. */
  function Layer(w: World, i: nat): seq<SpriteId> {
    if i < |w.layers| && w.layers[i].Some? then w.layers[i].value else []
  }

  /** `spriteHash[key] || []`. */
  function Tagged(w: World, key: string): seq<SpriteId> {
    if key in w.hash then w.hash[key] else []
  }

  /** `if (hashKey)`: a missing or empty key adds no tag. */
  predicate HasTag(key: Option<string>) {
    key.Some? && key.value != ""
  }

  function Holes(n: nat): (r: seq<Option<seq<SpriteId>>>)
    ensures |r| == n && forall i :: 0 <= i < n ==> r[i].None?
  {
    seq(n, _ => None)
  }

  /** `sprites[layer] ||= []; sprites[layer].push(id)` on the sparse array. */
  function Append(layers: seq<Option<seq<SpriteId>>>, layer: nat, id: SpriteId): (r: seq<Option<seq<SpriteId>>>)
    ensures |r| == if layer < |layers| then |layers| else layer + 1
    ensures r[layer].Some?
    ensures layer < |layers| && layers[layer].Some? ==> r[layer].value == layers[layer].value + [id]
    ensures layer >= |layers| || layers[layer].None? ==> r[layer].value == [id]
    ensures forall i :: 0 <= i < |layers| && i != layer ==> r[i] == layers[i]
    ensures forall i :: |layers| <= i < |r| && i != layer ==> r[i].None?
  {
    if layer < |layers| then
      var old_ := if layers[layer].Some? then layers[layer].value else [];
      layers[layer := Some(old_ + [id])]
    else
      layers + Holes(layer - |layers|) + [Some([id])]
  }

  /** Replaces the state of an existing sprite; a customer stays a customer. */
  function Put(w: World, id: SpriteId, s: Sprite): (w': World)
    requires Valid(w) && id in w.sprites && WellFormed(s, w.sprites.Keys)
    requires CarriesCustomer(s, w.sprites)
    requires s.kind.Customer? <==> w.sprites[id].kind.Customer?
    ensures Valid(w')
    ensures w' == w.(sprites := w.sprites[id := s])
  {
    var w' := w.(sprites := w.sprites[id := s]);
    forall x | x in w'.sprites ensures SpriteOk(w'.sprites, w'.next, x) {
      assert SpriteOk(w.sprites, w.next, x);
      var k := w.sprites[x].kind;
      if x != id && k.Player? && k.customer.Some? {
        assert w.sprites[k.customer.value].kind.Customer?;
      }
    }
    w'
  }

  /** `sprite.ttl = t` on an existing sprite. */
  function SetTtl(w: World, id: SpriteId, t: Ttl): (w': World)
    requires Valid(w) && id in w.sprites
    ensures Valid(w')
    ensures w' == w.(sprites := w.sprites[id := w.sprites[id].(ttl := t)])
  {
    SpriteFacts(w, id);
    Put(w, id, w.sprites[id].(ttl := t))
  }

  /** The record update `addSpriteToLayer` performs, with the new sprite at id `w.next`. */
  function Added(w: World, s: Sprite, layer: nat, key: Option<string>): World {
    var hash := if HasTag(key) then w.hash[key.value := Tagged(w, key.value) + [w.next]] else w.hash;
    World(w.sprites[w.next := s], w.next + 1, Append(w.layers, layer, w.next), hash, w.hud, w.credits, w.camera)
  }

  /**
   * `addSpriteToLayer(sprite, layer, hashKey)` (space.js:99-112): gives the sprite the
   * next id, appends it to layer `layer` (creating the layer when it is a hole or
   * past the end) and, for a non-empty key, to that key's tag list; returns its id.
   */
  function AddSpriteToLayer(w: World, s: Sprite, layer: nat, key: Option<string>): (res: (World, SpriteId))
    requires Valid(w) && WellFormed(s, w.sprites.Keys) && CarriesCustomer(s, w.sprites)
    ensures var (w', id) := res;
      && id == w.next && id !in w.sprites
      && Valid(w')
      && w'.sprites == w.sprites[id := s] && w'.next == w.next + 1
      && Layer(w', layer) == Layer(w, layer) + [id]
      && (forall i :: i != layer ==> Layer(w', i) == Layer(w, i))
      && |w'.layers| >= |w.layers|
      && (forall i :: 0 <= i < |w.layers| && i != layer ==> w'.layers[i] == w.layers[i])
      && (HasTag(key) ==> w'.hash.Keys == w.hash.Keys + {key.value}
                          && Tagged(w', key.value) == Tagged(w, key.value) + [id])
      && (!HasTag(key) ==> w'.hash == w.hash)
      && (forall k :: k in w.hash && (!HasTag(key) || k != key.value) ==> w'.hash[k] == w.hash[k])
      && w'.hud == w.hud && w'.credits == w.credits && w'.camera == w.camera
  {
    var id := w.next;
    FreshId(w);
    var w' := Added(w, s, layer, key);
    assert Valid(w') by {
      forall x | x in w'.sprites ensures SpriteOk(w'.sprites, w'.next, x) {
        if x != id {
          assert SpriteOk(w.sprites, w.next, x);
        }
      }
      forall i, j | 0 <= i < |w'.layers| && w'.layers[i].Some? && 0 <= j < |w'.layers[i].value|
        ensures w'.layers[i].value[j] in w'.sprites
      {
        if i != layer {
          assert i < |w.layers|;
          assert w'.layers[i] == w.layers[i];
        } else if j < |w'.layers[i].value| - 1 {
          assert w'.layers[i].value[j] == w.layers[i].value[j];
        }
      }
    }
    (w', id)
  }

  /** `addSprite(sprite, hashKey)` (space.js:96-98): adds to layer 0. */
  function AddSprite(w: World, s: Sprite, key: Option<string>): (res: (World, SpriteId))
    requires Valid(w) && WellFormed(s, w.sprites.Keys) && CarriesCustomer(s, w.sprites)
    ensures res == AddSpriteToLayer(w, s, 0, key)
    ensures Layer(res.0, 0) == Layer(w, 0) + [res.1]
  {
    AddSpriteToLayer(w, s, 0, key)
  }

  /** `addHudSprite(sprite)` (space.js:113-117): appends to the HUD list only. */
  function AddHudSprite(w: World, s: Sprite): (res: (World, SpriteId))
    requires Valid(w) && WellFormed(s, w.sprites.Keys) && CarriesCustomer(s, w.sprites)
    ensures var (w', id) := res;
      && id == w.next && id !in w.sprites && Valid(w')
      && w'.sprites == w.sprites[id := s]
      && w'.hud == w.hud + [id]
      && w'.layers == w.layers && w'.hash == w.hash
      && w'.credits == w.credits && w'.camera == w.camera
  {
    var id := w.next;
    FreshId(w);
    var w' := w.(sprites := w.sprites[id := s], next := id + 1, hud := w.hud + [id]);
    assert Valid(w') by {
      forall x | x in w'.sprites ensures SpriteOk(w'.sprites, w'.next, x) {
        if x != id {
          assert SpriteOk(w.sprites, w.next, x);
        }
      }
      forall j | 0 <= j < |w'.hud| ensures w'.hud[j] in w'.sprites {
        if j < |w.hud| { assert w'.hud[j] == w.hud[j]; }
      }
    }
    (w', id)
  }

  /** `setCamera(camera)` (space.js:68-70). */
  function SetCamera(w: World, c: Camera): (w': World)
    requires Valid(w) && (c.follow.Some? ==> c.follow.value in w.sprites)
    ensures Valid(w') && w'.camera == Some(c)
    ensures w'.sprites == w.sprites && w'.layers == w.layers && w'.hash == w.hash
    ensures w'.hud == w.hud && w'.credits == w.credits && w'.next == w.next
  {
    w.(camera := Some(c))
  }

  /** `Camera.update` (space.js:148-153): a following camera moves onto its target. */
  function UpdateCamera(w: World): (w': World)
    requires Valid(w)
    ensures Valid(w')
    ensures w'.sprites == w.sprites && w'.layers == w.layers && w'.hash == w.hash
    ensures w'.hud == w.hud && w'.credits == w.credits && w'.next == w.next
    ensures w.camera.Some? <==> w'.camera.Some?
    ensures w.camera.Some? ==> w'.camera.value.follow == w.camera.value.follow
    ensures w.camera.Some? && w.camera.value.follow.Some? ==>
              w'.camera.value.pos == w.sprites[w.camera.value.follow.value].pos
    ensures w.camera.Some? && w.camera.value.follow.None? ==> w'.camera == w.camera
  {
    match w.camera
    case None => w
    case Some(c) =>
      match c.follow
      case None => w
      case Some(f) => w.(camera := Some(c.(pos := w.sprites[f].pos)))
  }

  // ---------------------------------------------------------------- cleanup

  predicate AllIn(ids: seq<SpriteId>, table: map<SpriteId, Sprite>) {
    forall j :: 0 <= j < |ids| ==> ids[j] in table
  }

  /** `layer.filter(sprite => sprite.ttl > 0)`. */
  function Survivors(ids: seq<SpriteId>, table: map<SpriteId, Sprite>): (r: seq<SpriteId>)
    requires AllIn(ids, table)
    ensures |r| <= |ids| && AllIn(r, table)
    ensures forall x :: x in r <==> x in ids && table[x].ttl.Alive()
    decreases |ids|
  {
    if ids == [] then []
    else
      var rest := Survivors(ids[1..], table);
      if table[ids[0]].ttl.Alive() then [ids[0]] + rest else rest
  }

  /**
   * `cleanupSprites` (space.js:118-122): every layer is replaced by its living sprites;
   * holes stay holes, and neither the tag index nor the HUD list is touched.
   */
  function Cleanup(w: World): (w': World)
    requires Valid(w)
    ensures Valid(w')
    ensures |w'.layers| == |w.layers|
    ensures forall i :: 0 <= i < |w.layers| ==> (w'.layers[i].Some? <==> w.layers[i].Some?)
    ensures forall i, x :: 0 <= i < |w.layers| && w.layers[i].Some? ==>
              (x in w'.layers[i].value <==> x in w.layers[i].value && w.sprites[x].ttl.Alive())
    ensures forall i :: 0 <= i < |w.layers| && w.layers[i].Some? ==>
              w'.layers[i] == Some(Survivors(w.layers[i].value, w.sprites))
    ensures w'.sprites == w.sprites && w'.next == w.next
    ensures w'.hash == w.hash && w'.hud == w.hud
    ensures w'.credits == w.credits && w'.camera == w.camera
  {
    var layers := seq(|w.layers|, i requires 0 <= i < |w.layers| =>
      if w.layers[i].Some? then Some(Survivors(w.layers[i].value, w.sprites)) else None);
    w.(layers := layers)
  }

  /** Sprite `x` exists and its lifetime is above 0. */
  predicate LiveIn(w: World, x: SpriteId) {
    x in w.sprites && w.sprites[x].ttl.Alive()
  }

  /** After cleanup a layer lists exactly the living sprites it listed before. */
  lemma CleanupLayers(w: World)
    requires Valid(w)
    ensures forall i: nat, x: SpriteId :: x in Layer(Cleanup(w), i) <==> x in Layer(w, i) && LiveIn(w, x)
  {
    forall i: nat, x: SpriteId ensures x in Layer(Cleanup(w), i) <==> x in Layer(w, i) && LiveIn(w, x) {
      if i < |w.layers| && w.layers[i].Some? {
        var ids := w.layers[i].value;
        assert Layer(Cleanup(w), i) == Survivors(ids, w.sprites);
        if x in ids {
          var j :| 0 <= j < |ids| && ids[j] == x;
        }
      } else {
        assert Layer(Cleanup(w), i) == [] && Layer(w, i) == [];
      }
    }
  }

  /** Filtering a concatenation filters each part: relative order is kept. */
  lemma {:induction false} SurvivorsConcat(a: seq<SpriteId>, b: seq<SpriteId>, table: map<SpriteId, Sprite>)
    requires AllIn(a, table) && AllIn(b, table)
    ensures AllIn(a + b, table)
    ensures Survivors(a + b, table) == Survivors(a, table) + Survivors(b, table)
    decreases |a|
  {
    assert AllIn(a + b, table) by {
      forall j | 0 <= j < |a + b| ensures (a + b)[j] in table {
        if j < |a| { assert (a + b)[j] == a[j]; } else { assert (a + b)[j] == b[j - |a|]; }
      }
    }
    if a != [] {
      assert (a + b)[0] == a[0];
      assert (a + b)[1..] == a[1..] + b;
      SurvivorsConcat(a[1..], b, table);
      var ra := Survivors(a[1..], table);
      var rb := Survivors(b, table);
      if table[a[0]].ttl.Alive() {
        assert [a[0]] + ra + rb == [a[0]] + (ra + rb);
      }
    } else {
      assert a + b == b;
    }
  }

  /** A single sprite is kept exactly when it is alive. */
  lemma SurvivorsSingle(x: SpriteId, table: map<SpriteId, Sprite>)
    requires x in table
    ensures Survivors([x], table) == if table[x].ttl.Alive() then [x] else []
  {
    assert [x][1..] == [];
  }

  /** When every sprite of a layer lives, cleanup keeps the layer as it is. */
  lemma {:induction false} SurvivorsAllAlive(ids: seq<SpriteId>, table: map<SpriteId, Sprite>)
    requires AllIn(ids, table)
    requires forall j :: 0 <= j < |ids| ==> table[ids[j]].ttl.Alive()
    ensures Survivors(ids, table) == ids
    decreases |ids|
  {
    if ids != [] {
      SurvivorsAllAlive(ids[1..], table);
      assert [ids[0]] + ids[1..] == ids;
    }
  }

  /** When exactly the sprite at position `k` has expired, cleanup removes just that one. */
  lemma SurvivorsOneDead(ids: seq<SpriteId>, k: nat, table: map<SpriteId, Sprite>)
    requires AllIn(ids, table) && k < |ids|
    requires !table[ids[k]].ttl.Alive()
    requires forall j :: 0 <= j < |ids| && j != k ==> table[ids[j]].ttl.Alive()
    ensures Survivors(ids, table) == ids[..k] + ids[k + 1..]
  {
    var a, b := ids[..k], ids[k + 1..];
    assert AllIn(a, table) && AllIn(b, table) by {
      forall j | 0 <= j < |a| ensures a[j] in table { assert a[j] == ids[j]; }
      forall j | 0 <= j < |b| ensures b[j] in table { assert b[j] == ids[k + 1 + j]; }
    }
    assert Survivors(a, table) == a by {
      forall j | 0 <= j < |a| ensures table[a[j]].ttl.Alive() { assert a[j] == ids[j]; }
      SurvivorsAllAlive(a, table);
    }
    assert Survivors(b, table) == b by {
      forall j | 0 <= j < |b| ensures table[b[j]].ttl.Alive() { assert b[j] == ids[k + 1 + j]; }
      SurvivorsAllAlive(b, table);
    }
    SurvivorsSingle(ids[k], table);
    SurvivorsConcat([ids[k]], b, table);
    SplitAround(ids, k);
    SurvivorsConcat(a, [ids[k]] + b, table);
  }

  lemma SplitAround(ids: seq<SpriteId>, k: nat)
    requires k < |ids|
    ensures ids == ids[..k] + ([ids[k]] + ids[k + 1..])
  {
    assert [ids[k]] + ids[k + 1..] == ids[k..];
  }

  /** Filtering twice is filtering once. */
  lemma {:induction false} SurvivorsIdempotent(ids: seq<SpriteId>, table: map<SpriteId, Sprite>)
    requires AllIn(ids, table)
    ensures Survivors(Survivors(ids, table), table) == Survivors(ids, table)
    decreases |ids|
  {
    if ids != [] {
      var rest := Survivors(ids[1..], table);
      SurvivorsIdempotent(ids[1..], table);
      if table[ids[0]].ttl.Alive() {
        assert ([ids[0]] + rest)[1..] == rest;
      }
    }
  }

  /** Running cleanup twice gives the same registry as running it once. */
  lemma CleanupIdempotent(w: World)
    requires Valid(w)
    ensures Cleanup(Cleanup(w)) == Cleanup(w)
  {
    var c := Cleanup(w);
    var cc := Cleanup(c);
    assert |cc.layers| == |c.layers|;
    forall i | 0 <= i < |c.layers|
      ensures cc.layers[i] == c.layers[i]
    {
      if w.layers[i].Some? {
        SurvivorsIdempotent(w.layers[i].value, w.sprites);
      }
    }
  }

  /** A layer whose sprites are all alive survives cleanup unchanged. */
  lemma CleanupKeepsLiving(w: World, layer: nat)
    requires Valid(w) && layer < |w.layers| && w.layers[layer].Some?
    requires forall j :: 0 <= j < |w.layers[layer].value| ==> w.sprites[w.layers[layer].value[j]].ttl.Alive()
    ensures Cleanup(w).layers[layer] == w.layers[layer]
  {
    SurvivorsAllAlive(w.layers[layer].value, w.sprites);
  }
}
