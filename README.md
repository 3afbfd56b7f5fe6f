# CoopGame health component and tracker bot, modelled in Dafny

This project models the decision logic of two pieces of the CoopGame shooter:

- **USHealthComponent** (`health_component.dfy`, module `Health`): a component
  holding `Health` and `DefaultHealth`. `BeginPlay` resets `Health` to
  `DefaultHealth` and, on the authority with an owner, binds the damage handler
  to the owner's `OnTakeAnyDamage`. `HandleTakeAnyDamage` ignores non-positive
  damage, otherwise sets `Health` to `FMath::Clamp(Health - Damage, 0, DefaultHealth)`
  and broadcasts `OnHealthChanged` once with the new `Health` and the raw `Damage`.
  The class `HealthComponent` has these fields; the broadcasts are recorded in
  its `Broadcasts` sequence.
- **ASTrackerBot** (`tracker_bot.dfy`, module `Tracker`): the one-shot
  `SelfDestruct` latch on `bExploded`, the `Health == 0` detonation test of
  `HandleTakeDamage`, the lazily created material instance, the index-1 choice
  of `GetNextPawnPoint` and the inclusive arrive-or-push branch of `Tick`. The
  class `TrackerBot` has the source's fields; every engine call it makes
  (emitter, radial damage, debug sphere, `Destroy`, `AddForce`, material
  creation and pulse) is appended to its `Trace` as a `BotEvent`. Each method
  is specified by a pure function of the old state (`AfterSelfDestruct`,
  `AfterHandleTakeDamage`, `AfterTick`, `AfterBeginPlay`), and the lemmas are
  stated about those functions. The predicate `Consistent` says that `Destroy`
  and the radial damage request are on record exactly once if the bot has
  exploded and never otherwise, and a created material instance exactly once
  if `MatInst` is set; every handler preserves it.
- **The wiring** (`coop_game.dfy`, module `Coop`): the bot's constructor binds
  `HandleTakeDamage` to its health component's `OnHealthChanged`.
  `OwnerTakeAnyDamage` delivers a hit through both handlers, and `AfterHits`
  follows a run of hits. The lemmas show that Health and the bot's equality
  test agree: the bot ends exploded exactly when its Health ends at 0 after at
  least one broadcast. Five hits of 20 on a fresh bot detonate it exactly once.

Engine inputs are parameters: the owner's role, the actor location, the
distance to the target, the navigation path, the world time, and whether the
engine returns a material instance. Floats are modelled as `real`.

## Model

| member | source | states |
|---|---|---|
| `Health.Clamp` | Source/CoopGame/Components/SHealthComponent.cpp:42 | with ordered bounds the result lies in them, equals the input inside them and the nearer bound outside; with inverted bounds it is one of the bounds |
| `Health.AfterTakeAnyDamage` | Source/CoopGame/Components/SHealthComponent.cpp:36-42 | non-positive damage leaves Health unchanged; positive damage lands in [0, DefaultHealth], subtracts exactly when the difference is in range, and gives exactly 0 when the damage is at least the Health |
| `Health.DamageNeverHeals` | Source/CoopGame/Components/SHealthComponent.cpp:36-42 | from a Health within bounds, one call keeps it non-negative and never raises it |
| `Health.DamagesKeepBounds` | Source/CoopGame/Components/SHealthComponent.cpp:42 | any sequence of calls keeps 0 <= Health and never raises Health above where it started |
| `Health.ZeroStaysZero` | Source/CoopGame/Components/SHealthComponent.cpp:42 | once Health is exactly 0, any further damage leaves it exactly 0 |
| `Health.DamagesReachZero` | Source/CoopGame/Components/SHealthComponent.cpp:36-42 | positive hits whose total is at least the Health bring it to exactly 0 |
| `Health.FiveHitsOfTwenty` | Source/CoopGame/Components/SHealthComponent.cpp:10 | from the default 100, four hits of 20 leave exactly 20 and five leave exactly 0 |
| `Health.HealthComponent.constructor` | Source/CoopGame/Components/SHealthComponent.cpp:8-13 | DefaultHealth is 100, the handler is not bound, nothing has been broadcast |
| `Health.HealthComponent.BeginPlay` | Source/CoopGame/Components/SHealthComponent.cpp:17-32 | Health becomes DefaultHealth in every case; the handler is bound only on the authority with an owner; nothing is broadcast |
| `Health.HealthComponent.HandleTakeAnyDamage` | Source/CoopGame/Components/SHealthComponent.cpp:34-48 | Health follows AfterTakeAnyDamage; exactly one broadcast carrying the new Health and the raw Damage when Damage > 0, none otherwise; DefaultHealth unchanged; 0 <= Health <= DefaultHealth afterwards |
| `Tracker.GetNextPawnPoint` | Source/CoopGame/Private/AI/STrackerBot.cpp:82-88 | the second path point when the path has more than one point, the zero vector otherwise |
| `Tracker.NextPawnPointSkipsStart` | Source/CoopGame/Private/AI/STrackerBot.cpp:81-88 | for a path that starts at the bot, the chosen point is the first one after the start, or the zero vector when there is none |
| `Tracker.ExplosionEventCounts` | Source/CoopGame/Private/AI/STrackerBot.cpp:100-116 | one explosion issues exactly one Destroy and one radial damage request, and no material or force call |
| `Tracker.AfterSelfDestruct` | Source/CoopGame/Private/AI/STrackerBot.cpp:92-118 | the bot is exploded afterwards; target and material pointer are untouched |
| `Tracker.SelfDestructIdempotent` | Source/CoopGame/Private/AI/STrackerBot.cpp:94-100 | a second SelfDestruct changes nothing, wherever it happens |
| `Tracker.SelfDestructEffects` | Source/CoopGame/Private/AI/STrackerBot.cpp:92-118 | an already exploded bot emits nothing; otherwise it emits, in order, the effect at its location, radial damage of ExplosionDamage over ExplosionRadius ignoring only itself, the debug sphere and Destroy; exactly one Destroy and one radial damage are then on record |
| `Tracker.AfterHandleTakeDamage` | Source/CoopGame/Private/AI/STrackerBot.cpp:47-67 | the bot is exploded afterwards if and only if it already was or the reported Health equals 0; the target is untouched |
| `Tracker.PulseEffects` | Source/CoopGame/Private/AI/STrackerBot.cpp:50-58 | the material instance is requested only while MatInst is null, so at most one instance is ever created and later hits reuse it; the old trace is kept and exactly the request (when the pointer was null) and the pulse (when the pointer is set) are appended |
| `Tracker.HandleTakeDamageEffects` | Source/CoopGame/Private/AI/STrackerBot.cpp:47-67 | a new Destroy is issued exactly when the reported Health equals 0 and the bot has not exploded; a material request is made exactly when MatInst is null; the trace stays consistent |
| `Tracker.HandleTakeDamageTrace` | Source/CoopGame/Private/AI/STrackerBot.cpp:47-67 | the old trace is kept and exactly these are appended: the material request when MatInst was null, the pulse when MatInst is set, then the four explosion calls when the reported Health equals 0 and the bot had not exploded |
| `Tracker.AfterTick` | Source/CoopGame/Private/AI/STrackerBot.cpp:122-150 | Tick never changes the latch or the material pointer |
| `Tracker.TickBranches` | Source/CoopGame/Private/AI/STrackerBot.cpp:127-146 | at or within RequiredDistanceToTarget, the boundary included, the target is recomputed and no force applied; beyond it the target is kept and the trace gains exactly one force of MovementForce toward NextPathPoint and nothing else |
| `Tracker.AfterBeginPlay` | Source/CoopGame/Private/AI/STrackerBot.cpp:36-43 | the first target is the path's chosen point; nothing else changes |
| `Tracker.TrackerBot.constructor` | Source/CoopGame/Private/AI/STrackerBot.cpp:15-33 | MovementForce 1000, RequiredDistanceToTarget 100, ExplosionRadius 200, ExplosionDamage 40, bUseVelocityChange false; not exploded, no material instance, empty trace |
| `Tracker.TrackerBot.BeginPlay` | Source/CoopGame/Private/AI/STrackerBot.cpp:36-43 | the new state is AfterBeginPlay of the old; properties unchanged |
| `Tracker.TrackerBot.HandleTakeDamage` | Source/CoopGame/Private/AI/STrackerBot.cpp:47-67 | the new state is AfterHandleTakeDamage of the old; properties unchanged |
| `Tracker.TrackerBot.SelfDestruct` | Source/CoopGame/Private/AI/STrackerBot.cpp:92-118 | the new state is AfterSelfDestruct of the old; properties unchanged |
| `Tracker.TrackerBot.Tick` | Source/CoopGame/Private/AI/STrackerBot.cpp:122-150 | the new state is AfterTick of the old; properties unchanged |
| `Coop.AfterHit` | Source/CoopGame/Components/SHealthComponent.cpp:34-48 | Health follows the component's rule; a non-positive hit changes nothing; a positive hit leaves the bot exploded exactly when it was already or the new Health is 0 |
| `Coop.HitsFollowHealth` | Source/CoopGame/Components/SHealthComponent.cpp:34-48 | the Health after a run of hits is the component's Health after the same damages |
| `Coop.HitsKeepInvariants` | Source/CoopGame/Components/SHealthComponent.cpp:42 | any run of hits keeps 0 <= Health, never raises it, keeps the bot's trace consistent and never undoes an explosion |
| `Coop.MissesChangeNothing` | Source/CoopGame/Components/SHealthComponent.cpp:36-39 | hits that carry no positive damage leave Health and the bot as they were |
| `Coop.ExplodesIffKilled` | Source/CoopGame/Private/AI/STrackerBot.cpp:63-66 | after any run of hits the bot is exploded if and only if it was already, or its Health ended at exactly 0 and at least one hit was broadcast |
| `Coop.FiveHitsDetonateOnce` | Source/CoopGame/Private/AI/STrackerBot.cpp:92-118 | from a fresh bot with Health 100, four hits of 20 leave it unexploded; five bring Health to 0 and issue exactly one Destroy and one radial damage request |
| `Coop.OwnerTakeAnyDamage` | Source/CoopGame/Private/AI/STrackerBot.cpp:26 | an unbound component ignores the damage; a bound one applies it and each broadcast reaches the bot's HandleTakeDamage, so the new Health and bot state are AfterHit of the old; 0 <= Health <= DefaultHealth is kept |

## Left out

- Engine object construction and wiring: `CreateDefaultSubobject`, mesh settings, `SetSimulatePhysics`, `PrimaryActorTick`. The delegate bindings are modelled only as which handler a damage event or broadcast reaches.
- Replication (`SetIsReplicated`, `GetLifetimeReplicatedProps`) is network transport with no decision logic.
- `UE_LOG` lines, the "Target Reached!" debug string, the debug arrow and the per-frame debug sphere of `Tick` are fire-and-forget output and are not recorded. The explosion's debug sphere is recorded because it sits in the explosion's order of calls.
- Player lookup and `FindPathToActorSynchronously`: the path is an input sequence. A null path (no navigation system) is not modelled.
- Vector length and `Normalize`: `Tick` takes the distance to the target as an input, and the recorded force is the pair (NextPathPoint - location, MovementForce) rather than the normalised and scaled vector. The normalisation of a zero vector is not modelled.
- IEEE float rounding: values are real numbers, so the subtraction in the clamp is exact.
- Health.DamagesReachZero: holds for real-valued Health only. With 32-bit floats, a hit far smaller than the Health can round away entirely (100 - 0.000001 rounds back to 100), so such hits never lower the Health however many there are.
- The instigator controller passed to `ApplyRadialDamage` and the damage type (null) are not recorded; the other arguments are.
- `OnHealthChanged` passes the owning component, the damage type, the instigator and the causer along. The model carries the last three as opaque identities (`DamageSource`), and the bot's handler does not use them.
- The fields the constructors do not set (`Health`, `bExploded`, `MatInst`, `NextPathPoint`) start at zero or null, following the engine's zero-initialisation of objects. The headers that declare them are not part of this model.
- Tracker.GetNextPawnPoint: the fallback `FVector()` is modelled as the zero vector. The engine's default vector constructor is not part of this model, and some engine versions leave its components uninitialised.
- `Tick` does not check `bExploded`, and neither does the model. Once `Destroy` has been called, the engine stops ticking the actor; the model does not cover this.
- Proximity arming, a repeating self-damage timer, authority gating of the explosion and delayed actor removal do not appear in these sources and are not modelled.
