# Space taxi: a Dafny model of the game core

This project models the discrete logic of `space.js`, a small canvas game in
which the player flies a taxi between planets. The player picks up customers
waiting on one planet and delivers them to another for a fare. The model covers:

- `Vec2d` arithmetic, both as values (`Vectors`) and as the mutable objects the
  source uses (`VecHeap`: `diff`/`sum` copy the receiver, `_add`/`_sub` change it).
- Sprite lifetimes (`Lifetime`): a falsy constructor `ttl` becomes `Infinity`, and
  `Sprite.update` takes `delta` off.
- The sprite kinds and their constructors (`Sprites`).
- The `Game` registry (`Registry`): every sprite ever added lives in a table keyed
  by id. The `sprites` array of layers is a sparse array of id lists, `spriteHash`
  maps each tag to an id list, and there is a HUD list, the credit balance and the
  camera. It also covers `addSpriteToLayer`/`addSprite`/`addHudSprite` and
  `cleanupSprites`.
- The `update` of every sprite kind except the player (`Bodies`), including the
  particle bounce off planets.
- `Player.update`:
  - `Pilot` covers the hull sensors and gear, the per-planet pull, explosion and
    landing, and the 100-fragment explosion.
  - `Taxi` covers the landed craft riding its planet, thrust and its exhaust
    particle, turning, the speed limit, drifting, boarding and delivery.
- One frame of `updateAndRender` without the drawing (`GameLoop`).

Distances are compared as squared lengths (`Within(v, r)` is `|v|^2 <= r^2` with
`r >= 0`), so no square root is needed. `Vectors.WithinIsLengthTest` shows this
is the source's `calcDist() <= r` test.

Real numbers stand in for doubles. The host supplies the following as inputs, in
`Host.Env`:

- the frame delta and key states;
- `cos`/`sin` of the heading;
- `getNormalized`;
- the speed-limit rescaling;
- every `Math.random()` draw, as `rnd(id, j)` = the `j`-th draw made while
  building sprite `id`.

A thrown `TypeError` is the `Crash` case of `Base.Result`. It happens when a
landed player without a passenger looks for customers and `spriteHash.customer`
does not exist.

Three details of the code that the model keeps as they are:

- A frame runs cleanup *before* the updates (space.js:77-78). Sprites that expire
  during a frame are therefore still in their layers until the next frame.
- `cleanupSprites` does not prune `spriteHash` or the HUD list. A delivered
  customer (lifetime 0) therefore stays in the "customer" list.
- The pickup `find` ignores lifetime and `boarded`. `Taxi.DockBoards` holds for
  every listed sprite waiting at the planet, including one delivered earlier.

## Model

| member | source | states |
|---|---|---|
| Vectors.DiffThenSum | space.js:9-14 | `v.diff(u).sum(u)` and `v.sum(u).diff(u)` both give `v` back |
| Vectors.WithinIsLengthTest | space.js:25-28 | for any non-negative `len` squaring to the squared length, the squared tests agree with `len <= r` and `len < r` |
| Vectors.SqLenScaled | space.js:29-35 | `getMultiplied(k)` multiplies the squared length by `k*k` |
| VecHeap.New | space.js:4-8 | `new Vec2d(v)` allocates a fresh cell holding `v` and leaves every existing cell unchanged |
| VecHeap.SubInPlace | space.js:15-19 | `_sub` changes only the receiver, whose new value plus the argument is its old value |
| VecHeap.AddInPlace | space.js:20-24 | `_add` changes only the receiver, whose new value minus the argument is its old value |
| VecHeap.DiffNew | space.js:9-11 | `diff` returns a fresh vector holding the difference and changes no existing vector |
| VecHeap.SumNew | space.js:12-14 | `sum` returns a fresh vector holding the sum and changes no existing vector |
| VecHeap.AddToItselfDoubles | space.js:20-24 | `v._add(v)` doubles `v`, because both components are read before they are written |
| VecHeap.DiffSumRoundTrip | space.js:9-14 | `v.diff(u).sum(u)` is a new vector equal to `v`, and every existing vector is unchanged |
| Lifetime.FromArg | space.js:171 | `ttl \|\| Infinity`: infinite exactly for an absent or zero argument, otherwise that finite number |
| Lifetime.TickExact | space.js:175-177 | one update takes exactly `delta` off a finite lifetime and leaves `Infinity` alive |
| Lifetime.TickAllFinite | space.js:175-177 | over many frames a finite lifetime drops by exactly the sum of the deltas |
| Lifetime.InfNeverExpires | space.js:175-177 | an infinite lifetime never reaches `ttl <= 0`, whatever the deltas |
| Lifetime.FalsyTtlNeverExpires | space.js:171-177 | a sprite built with a falsy `ttl` is never removed for age |
| Sprites.NewSprite | space.js:166-174 | origin defaults to half the rectangle and velocity to zero; `ttl` becomes infinite exactly when falsy and otherwise stays that finite number |
| Sprites.NewPlanet | space.js:181-186 | a planet has radius `r`, no velocity and an infinite lifetime |
| Sprites.NewMoon | space.js:206-214 | falsy orbit radius, angle and angular speed default to four planet radii, 0 and 0.25, and truthy ones are kept as given; a moon never expires |
| Sprites.NewCustomer | space.js:226-237 | a customer waits unboarded at its pickup planet's position and is paid a fare between 10 and 29 |
| Sprites.NewParticle | space.js:270-276 | `rot`, `dRot` and `resize` are kept when truthy and default to 0, 0 and 1 when falsy, so `resize` is never 0; `ttl` is infinite exactly when falsy and otherwise that number |
| Sprites.NewPlayer | space.js:339-350 | the craft is 50 by 20, starts at rest, heading 0, not landed, carrying nobody, pivoting on (25, 10) |
| Registry.NewGame | space.js:41-50 | a new game has no sprites, layers, tags or HUD, and 10 credits |
| Registry.Append | space.js:101-104 | pushing onto layer `L` creates it when it is a hole or past the end and leaves every other layer as it was |
| Registry.AddSpriteToLayer | space.js:99-112 | the new sprite goes at the end of layer `L`, and of tag list `k` when `k` is non-empty; every other layer, tag list, the HUD, credits and camera are unchanged and the new id is returned |
| Registry.AddSprite | space.js:96-98 | `addSprite` is `addSpriteToLayer` on layer 0 |
| Registry.AddHudSprite | space.js:113-117 | appends to the HUD list only; the layers and tag lists are untouched |
| Registry.SetCamera | space.js:68-70 | installs the camera and keeps the sprites, layers, tag lists, HUD, credits and id counter |
| Registry.UpdateCamera | space.js:148-153 | a following camera moves onto its target's position; otherwise the camera is unchanged |
| Registry.Survivors | space.js:120 | the filtered list holds exactly the listed sprites with `ttl > 0` |
| Registry.Cleanup | space.js:118-122 | each layer becomes the filter of its living sprites, in their original order; holes stay holes; tag lists, HUD list, credits and sprite table are untouched |
| Registry.CleanupLayers | space.js:118-122 | a sprite is in layer `i` after cleanup exactly when it was there before and its lifetime was above 0 |
| Registry.SurvivorsConcat | space.js:120 | filtering a concatenation filters each part, so relative order is kept |
| Registry.SurvivorsAllAlive | space.js:120 | a list whose sprites all live is kept as it is |
| Registry.SurvivorsOneDead | space.js:120 | when exactly one sprite has expired, only that one is removed, and the others keep their order |
| Registry.SurvivorsIdempotent | space.js:120 | filtering twice equals filtering once |
| Registry.CleanupIdempotent | space.js:118-122 | running `cleanupSprites` twice gives the same registry as running it once |
| Registry.CleanupKeepsLiving | space.js:118-122 | a layer of living sprites survives cleanup unchanged |
| Bodies.BaseUpdate | space.js:175-177 | only the sprite's lifetime changes, by exactly `delta`; `Infinity` stays infinite |
| Bodies.MoonUpdate | space.js:215-223 | only the position and the angle change: the angle advances by `angularSpeed * delta` and the moon sits at its orbit radius along the heading from its planet's centre; radius, orbit, speed, velocity and lifetime are kept |
| Bodies.MoonStaysOnOrbit | space.js:215-223 | with unit headings the moon is always exactly one orbit radius from its planet |
| Bodies.CustomerUpdate | space.js:238-244 | a customer ages, and while boarded sits at its carrier's position; otherwise it stays put; nothing else about it, and no other sprite, changes |
| Bodies.JunkUpdate | space.js:320-325 | junk ages, moves by `dPos * delta` and spins by `dRot`; its velocity, size and pivot and every other sprite are unchanged |
| Bodies.Bounce | space.js:285-295 | bouncing never speeds a particle up, and sprites without a radius never bounce it |
| Bodies.BounceMiss | space.js:285-295 | a particle strictly inside none of the listed planets keeps its position and velocity |
| Bodies.BounceUndoesStep | space.js:285-295 | a particle that stepped strictly inside a planet is put back where it was and reversed at a fifth of its speed |
| Bodies.ParticleUpdate | space.js:277-296 | a particle ages, spins and keeps its `resize`; it grows by the factor `1 + (resize - 1) * delta` unless `resize` is 1; it never speeds up; without a planet list it simply drifts, and with one it moves by `dPos * delta` and then bounces off the listed planets in order |
| Bodies.ParticleBouncesBack | space.js:277-296 | a particle whose step carries it strictly inside the only listed planet ends the update where it started, flying back at a fifth of its speed |
| Pilot.Sensors | space.js:357-363 | in the craft's frame the nose lies `55 - origin.x` ahead on the axis, the front fins `30 - origin.x` and the back fins `3.5 - origin.x` ahead, each `5 + origin.y` to the left and to the right |
| Pilot.Gear | space.js:364 | the gear lies `origin.x` behind the pivot, on the axis |
| Pilot.HullFrame | space.js:357-364 | for a unit heading, a hull point's offsets along and across the heading are its two craft-frame coordinates, and its squared distance from the pivot is the sum of their squares |
| Pilot.PlayerHull | space.js:357-364 | for the player's pivot (25, 10): nose 30 ahead, front fins 5 ahead and back fins 21.5 behind at 15 to either side, gear 25 behind; each fin is the mirror image of its partner across the axis, and the nose is its own |
| Pilot.HullAlongHeading | space.js:357-364 | for the player's pivot and a unit heading, the nose is 30 ahead, the gear 25 behind, and they are 55 apart |
| Pilot.SensorHit | space.js:376-382 | `exploded` is set exactly when some sensor lies within the planet's radius |
| Pilot.Hit | space.js:370-382 | a planet explodes the craft exactly when it is in range (within 4 radii) and touches a sensor |
| Pilot.Touchdown | space.js:404-405 | a planet lands the craft exactly when it is in range, touches the gear and touches no sensor |
| Pilot.Landed | space.js:406-408 | landing sets `landed`, the planet and the offset together and keeps heading and passenger |
| Pilot.DebrisParticle | space.js:387-395 | a fragment is a particle with no references, resize 1 and heading 0 |
| Pilot.DebrisJitter | space.js:388-392 | with draws in [0, 1), a fragment starts within 25 by 10 of the craft and lives 1 to 6 seconds |
| Pilot.Fragments | space.js:387-395 | an explosion draws 100 fragments, each a particle that refers to no other sprite |
| Pilot.SpawnDebris | space.js:386-396 | the loop gives the fragments consecutive ids from the id counter and appends them, in order, to layer 0 |
| Pilot.SpawnDebrisTags | space.js:386-396 | the same ids are appended, in order, to the "debris" list |
| Pilot.SpawnDebrisFrame | space.js:386-396 | the other layers, every tag list but "debris", the HUD, credits and camera are unchanged |
| Pilot.SpawnDebrisKeys | space.js:386-396 | the sprite table gains exactly the new ids |
| Pilot.SpawnDebrisOlder | space.js:386-396 | every sprite below the first new id is unchanged |
| Pilot.SpawnDebrisSprites | space.js:386-396 | the `k`-th new id holds the `k`-th fragment |
| Pilot.SpawnDebrisValid | space.js:386-396 | spawning keeps the registry invariant and every sprite already there |
| Pilot.FragmentsPlaced | space.js:386-396 | after spawning, each new id holds the fragment drawn for that id |
| Pilot.Doom | space.js:385-399 | the craft's lifetime becomes 0, a carried customer's becomes 2, and nothing else changes |
| Pilot.Explode | space.js:384-403 | 100 new ids; craft lifetime 0; passenger lifetime 2; every other sprite unchanged |
| Pilot.ExplodeSpawnsDebris | space.js:386-396 | exactly 100 new ids are appended, in order, to layer 0 and to the "debris" list |
| Pilot.ExplodeFragments | space.js:386-396 | each new id holds a fragment built around the craft from its own draws |
| Pilot.ExplodeFrame | space.js:384-403 | layers other than 0 and tag lists other than "debris" are unchanged |
| Pilot.ExplodeLists | space.js:384-403 | other layers and tag lists are unchanged, ids only grow, and layer 0 keeps its sprites and gains only new ids |
| Pilot.CraftAfter | space.js:375 | an attracting planet adds the host's unit vector towards its centre to the craft's velocity and keeps position, pivot, lifetime, heading and passenger |
| Pilot.PlanetStep | space.js:369-410 | one planet keeps the invariant; other sprites keep position and kind; the craft keeps position, heading and passenger; HUD, credits and camera are unchanged |
| Pilot.PlanetStepPull | space.js:370-375 | a planet out of range changes nothing, and one in range adds the host's unit vector of the difference to the craft's velocity |
| Pilot.PlanetStepExplosion | space.js:376-399 | a sensor inside an in-range planet gives craft lifetime 0, 100 fragments in layer 0 and "debris", and passenger lifetime 2 |
| Pilot.PlanetStepCalm | space.js:369-410 | without an explosion only the craft changes, and its lifetime does not |
| Pilot.PlanetStepLanding | space.js:404-409 | the craft lands on a planet exactly when the gear is within the radius, no sensor is, and the planet is in range; `landedPos` is then `pos - planet.pos`; otherwise the landing fields are unchanged |
| Pilot.VerdictsKept | space.js:369-410 | planets do not move during the loop, so each planet's explode and land verdicts stay the same |
| Pilot.PlanetPass | space.js:369-410 | the whole loop keeps the invariant and what `PlanetStep` keeps |
| Pilot.PlanetPassLanding | space.js:369-410 | a craft that was not landed is landed after the loop exactly when some listed planet lands it |
| Pilot.LandsOnSplit | space.js:369-410 | some listed planet lands the craft exactly when the first one does or, after the first step, one of the rest does |
| Pilot.PlanetPassCalm | space.js:369-410 | when no listed planet explodes the craft, only the craft changes and its lifetime is kept |
| Pilot.PlanetPassExplodes | space.js:376-385 | when some listed planet explodes the craft, its lifetime is 0 after the loop |
| Pilot.PlanetPassFirstExplodes | space.js:376-385 | a craft exploded by the first planet has lifetime 0 after the loop |
| Pilot.PlanetPassOutcome | space.js:369-410 | after the loop the craft is landed exactly when it was or some listed planet lands it; its lifetime is 0 when some listed planet explodes it and unchanged otherwise |
| Pilot.PlanetPassStaysDown | space.js:369-410 | a craft whose lifetime is 0 keeps it through the rest of the loop, whichever planets explode it again |
| Pilot.PlanetStepFrame | space.js:369-410 | one planet keeps every layer but 0 and every tag list but "debris", layer 0 gains only new ids, and every sprite but the craft and its passenger is unchanged |
| Pilot.PlanetPassFrame | space.js:369-410 | the whole loop keeps the same lists and leaves every sprite but the craft and its passenger unchanged |
| Taxi.Pin | space.js:366-367 | a landed craft is placed at its planet's position plus its landing offset, and nothing else changes |
| Taxi.Navigate | space.js:356-412 | without a "planet" list nothing changes; a landed craft is moved to its planet's position plus its landing offset; a flying craft keeps its position, is landed afterwards exactly when some listed planet lands it, ends with lifetime 0 when some listed planet explodes it and keeps its lifetime otherwise; in every case the invariant, the craft's heading and passenger, credits, HUD, camera, every other sprite's kind, the lists as `ListsKept` says, and every sprite but the craft and its passenger are kept |
| Taxi.Exhaust | space.js:415-425 | the exhaust is a reference-free 8 by 8 particle, 15 behind the craft, with resize 0.4 |
| Taxi.ExhaustJitter | space.js:415-422 | with draws in [0, 1), the exhaust velocity is within 10 per axis of `-40 * heading + dPos` and it lives 1 to 3 seconds |
| Taxi.Thrusted | space.js:414-428 | thrust adds `heading * delta * 200` to the velocity and clears `landed`, `landedPlanet` and `landedPos` |
| Taxi.Thrust | space.js:413-429 | the craft is thrusted; exactly one exhaust particle with the next id is appended to layer 0 and to "debris"; every older sprite, the other layers, the HUD, camera and credits are unchanged |
| Taxi.Turned | space.js:433-442 | a landed craft keeps its heading; otherwise the heading changes by +0.02 for right and -0.02 for left |
| Taxi.Clamped | space.js:443-446 | a velocity within 300 is kept, and a faster one is replaced by the host's rescaling |
| Taxi.ClampedWithinLimit | space.js:443-446 | if the rescaling meets its promise, the craft is at most 300 fast afterwards |
| Taxi.Drifted | space.js:448-453 | a flying craft moves by `dPos * delta` and keeps its velocity; a landed craft stays put and is brought to rest |
| Taxi.Steer | space.js:433-453 | turning, the speed limit and drifting change the craft alone |
| Taxi.NavigateStep | space.js:356-412 | the planet block keeps the lists, every sprite but the craft and its passenger, the passenger's kind, HUD, camera and credits |
| Taxi.ThrustStep | space.js:413-429 | thrust keeps the same facts |
| Taxi.CraftOnlyStep | space.js:433-453 | a change to the craft alone that keeps its passenger keeps the same facts |
| Taxi.Fly | space.js:352-453 | the update up to the landed branch keeps the invariant and all of the facts above |
| Taxi.FindFrom | space.js:455 | returns the first position from `i` on whose sprite waits at the planet, or none when no such sprite exists |
| Taxi.FirstPickup | space.js:455 | `find` returns the first listed sprite whose `planetFrom` is the planet, or none when there is none |
| Taxi.Board | space.js:457-458 | the customer's `boarded` becomes the craft and the craft's `customer` becomes that customer; nothing else changes |
| Taxi.Deliver | space.js:462-465 | credits grow by the fare; the customer's lifetime becomes 0 and `boarded` null; the craft's `customer` becomes null |
| Taxi.Dock | space.js:454-467 | throws exactly when there is no passenger and no "customer" list; otherwise the craft changes only its passenger, no sprite but the craft and its old or new passenger changes, credits never drop, and lists and ids are untouched |
| Taxi.DockBoards | space.js:454-459 | without a passenger, the first listed sprite waiting at the landed planet boards, whatever its lifetime; credits are unchanged |
| Taxi.DockNobodyWaiting | space.js:454-459 | without a passenger and with nobody waiting at the planet, nothing changes |
| Taxi.DockDelivers | space.js:460-466 | at the passenger's destination: credits += fare, customer lifetime 0, not boarded, craft empty; elsewhere nothing changes |
| Taxi.DockCredits | space.js:454-467 | docking changes the credits only by paying a carried passenger's fare, after which the craft is empty |
| Taxi.FlyThenDock | space.js:352-467 | flying then docking keeps the ids, lists, HUD, camera and credit floor, and every sprite but the craft and its old or new passenger |
| Taxi.PlayerUpdate | space.js:352-469 | the invariant is kept; credits never drop; no sprite disappears; layers other than 0 and tag lists other than "debris" are kept and layer 0 gains only new ids; HUD and camera are kept; every sprite but the craft and its old or new passenger is unchanged; throws only without a "customer" list |
| Taxi.PlayerUpdateThrust | space.js:413-429 | with the thrust key held, the craft ends the update flying with no landing planet or offset |
| Taxi.PlayerUpdateTurn | space.js:433-442 | the heading changes by ±0.02 per held turn key when the craft ends the update flying, and not at all when it ends landed |
| Taxi.PlayerUpdateCredits | space.js:460-466 | credits change only on delivery of the carried passenger, by its fare, leaving the passenger at lifetime 0 and the craft empty |
| Taxi.FlyLanded | space.js:356-453 | the craft ends the flight part landed exactly when the thrust key is not held and it was landed already or, with a "planet" list, some listed planet lands it |
| Taxi.PlayerUpdateExplodes | space.js:368-385 | a flying craft that a listed planet explodes ends the update with lifetime 0, whatever thrust, steering and docking do |
| Taxi.PlayerUpdateBoards | space.js:454-459 | a craft without a passenger that ends the flight landed takes the first listed sprite waiting at its planet, which then records the craft as its carrier, and credits stay; with nobody waiting, nothing more changes |
| Taxi.PlayerUpdateDelivers | space.js:460-466 | a craft that ends the flight landed on its passenger's destination is paid the fare; the passenger is left with lifetime 0, not boarded, and the craft is empty |
| GameLoop.UpdateSprite | space.js:123-130 | dispatching `update` keeps the invariant, the sprite ids and the credit floor; only a player update throws, and only without a "customer" list |
| GameLoop.BodyUpdate | space.js:175-325 | the update of every class but the player keeps the invariant and changes its own sprite only |
| GameLoop.OthersTouchOnlyThemselves | space.js:175-325 | every non-player update succeeds and changes its own sprite only |
| GameLoop.UpdateAll | space.js:123-130 | updating a list of sprites keeps the invariant, ids and credit floor; it throws only without a "customer" list |
| GameLoop.UpdateLayers | space.js:123-127 | updating the layers (skipping holes) keeps the same facts |
| GameLoop.Frame | space.js:71-91 | a frame keeps the invariant, every sprite id and the credit floor; because cleanup runs first, each layer afterwards holds every sprite that was in it and alive when the frame began, and otherwise only sprites created during the frame; it throws only when there is no "customer" list |
| GameLoop.FrameUpdates | space.js:78-82 | the layer, HUD and camera updates keep the invariant, the ids, the lists and the credit floor |
| GameLoop.SpriteUpdates | space.js:78-79 | the layer and HUD updates keep the same facts |
| GameLoop.CameraProgress | space.js:148-153 | moving the camera keeps the same facts |
| GameLoop.CleanupThenProgress | space.js:77-82 | updates that keep those facts after cleanup keep every sprite that was alive in its layer and add only new ones |

## Left out

- Drawing: every `render`, the camera transform, `handleResize` and the canvas.
  They are output only.
- `requestAnimationFrame`, `Date.now` and the keyboard listeners. These are host
  plumbing; the frame delta and key states are inputs.
- The delayed scenario reset `setTimeout(() => this.game.setup(), 1000)` after an
  explosion (space.js:400-402) is not modelled: it is a timer callback outside
  the frame.
- The scenario script (space.js:530-565) and the `Junk` constructor's random
  defaults are not modelled. They are fixed content, not logic.
- `Text.updateText` callbacks are not modelled: texts age like plain sprites.
  The callbacks are arbitrary caller code.
- `Math.cos`/`Math.sin`, `getNormalized` and the speed-limit division are host
  inputs, because they need square roots and trigonometry. `Taxi.Clamped` takes
  the rescaled vector from the host. `Taxi.ClampedWithinLimit` states what
  follows when the host keeps its promise.
- Floating point: reals are exact where doubles round. The cached `dist` field of
  `Vec2d` is not modelled; it only feeds `getNormalized`, which is a host input.
- `Sprites.NewPlanet` and `Sprites.NewMoon` fix the lifetime at `Infinity` and the
  velocity at zero, although `Sprite`'s constructor would accept both
  (space.js:166-174): no call site passes either.
- A `Crash` result drops the frame's partial updates. In the source the updates
  made before the throw stay in place, and no further frame is requested
  (space.js:71-91). The model keeps only the fact that the frame ended.
- Negative and non-integer layer indices are not modelled. The source only uses
  layers 0, 1 and 2.
- `Pilot.Doom`: the source sets the customer's lifetime after spawning the
  fragments, and the model does it before. The two steps touch different sprites,
  so the result is the same.
- Sprites are always referenced by id, and the sprite-level model uses vector
  values; `VecHeap` alone models aliasing. Every constructor but `Junk` copies
  the vectors it is given. `Junk` keeps the caller's `dPos` object (space.js:312),
  but the scenario passes each junk a fresh `Vec2d` (space.js:538), so no two
  sprites share a vector object.
