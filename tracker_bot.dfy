/**
 Model of ASTrackerBot's decision logic: the one-shot SelfDestruct latch, the
 detonation test in HandleTakeDamage, the lazily created material instance,
 the index-1 path selection and the per-frame arrive-or-push branch of Tick.
 Engine calls are recorded as BotEvents appended to a trace.
 */
module Tracker {

  /** An FVector with real components. */
  datatype Vector = Vector(x: real, y: real, z: real)

  const ZeroVector: Vector := Vector(0.0, 0.0, 0.0)

  function Sub(a: Vector, b: Vector): Vector
  {
    Vector(a.x - b.x, a.y - b.y, a.z - b.z)
  }

  /** The identity of an actor in the world. */
  type ActorId = nat

  /** The engine calls the bot makes, in the order it makes them. */
  datatype BotEvent =
    | CreateMaterialInstance(created: bool)
    | PulseMaterial(lastTimeDamageTaken: real)
    | ExplosionEffect(location: Vector)
    | RadialDamage(baseDamage: real, origin: Vector, radius: real, ignored: seq<ActorId>, causer: ActorId, fullDamage: bool)
    | DebugSphere(center: Vector, radius: real)
    | Destroy
    | AddForce(toward: Vector, magnitude: real, velocityChange: bool)

  predicate IsDestroy(e: BotEvent) { e.Destroy? }
  predicate IsRadialDamage(e: BotEvent) { e.RadialDamage? }
  predicate IsMaterialCreated(e: BotEvent) { e.CreateMaterialInstance? && e.created }
  predicate IsMaterialAttempt(e: BotEvent) { e.CreateMaterialInstance? }
  predicate IsForce(e: BotEvent) { e.AddForce? }

  /** The bot's tunable properties. */
  datatype BotConfig = BotConfig(
    self: ActorId,
    movementForce: real,
    requiredDistanceToTarget: real,
    explosionRadius: real,
    explosionDamage: real,
    useVelocityChange: bool)

  /** The values the constructor gives the tunable properties. */
  function ConstructorConfig(self: ActorId): BotConfig
  {
    BotConfig(self, 1000.0, 100.0, 200.0, 40.0, false)
  }

  /** The state the bot's handlers change, with the trace of engine calls so far. */
  datatype BotView = BotView(exploded: bool, nextPathPoint: Vector, hasMatInst: bool, trace: seq<BotEvent>)

  /** A freshly constructed bot: every field zero-initialised. */
  const InitialView: BotView := BotView(false, ZeroVector, false, [])

  /** The number of events in a trace that satisfy p. */
  function Count(trace: seq<BotEvent>, p: BotEvent -> bool): (n: nat)
    ensures n <= |trace|
    ensures n == 0 <==> forall i :: 0 <= i < |trace| ==> !p(trace[i])
    decreases |trace|
  {
    if trace == [] then 0
    else
      assert forall i :: 1 <= i < |trace| ==> trace[i] == trace[1..][i - 1];
      (if p(trace[0]) then 1 else 0) + Count(trace[1..], p)
  }

  lemma {:induction false} CountConcat(a: seq<BotEvent>, b: seq<BotEvent>, p: BotEvent -> bool)
    ensures Count(a + b, p) == Count(a, p) + Count(b, p)
    decreases |a|
  {
    if a == [] {
      assert a + b == b;
    } else {
      assert (a + b)[1..] == a[1..] + b;
      CountConcat(a[1..], b, p);
    }
  }

  /** The destruction, radial damage and material instance each appear in the
      trace exactly as often as the latch or pointer that records them says. */
  predicate Consistent(s: BotView)
  {
    && Count(s.trace, IsDestroy) == (if s.exploded then 1 else 0)
    && Count(s.trace, IsRadialDamage) == (if s.exploded then 1 else 0)
    && Count(s.trace, IsMaterialCreated) == (if s.hasMatInst then 1 else 0)
  }

  /** The first point of a navigation path is the bot's own position, so the
      point to head for is the second one; a shorter path gives the zero vector. */
  function GetNextPawnPoint(pathPoints: seq<Vector>): (p: Vector)
    ensures |pathPoints| > 1 ==> p == pathPoints[1]
    ensures |pathPoints| <= 1 ==> p == ZeroVector
  {
    if |pathPoints| > 1 then pathPoints[1] else ZeroVector
  }

  /** For a path that starts at the bot, the chosen point is the first one after
      the start, and the zero vector when the path has nowhere to go. */
  lemma NextPawnPointSkipsStart(start: Vector, rest: seq<Vector>)
    ensures GetNextPawnPoint([start] + rest) == if rest == [] then ZeroVector else rest[0]
  {
  }

  /** The engine calls of one explosion at location, in order. */
  function ExplosionEvents(c: BotConfig, location: Vector): seq<BotEvent>
  {
    [ ExplosionEffect(location),
      RadialDamage(c.explosionDamage, location, c.explosionRadius, [c.self], c.self, true),
      DebugSphere(location, c.explosionRadius),
      Destroy ]
  }

  lemma CountFour(a: BotEvent, b: BotEvent, c: BotEvent, d: BotEvent, p: BotEvent -> bool)
    ensures Count([a, b, c, d], p)
         == (if p(a) then 1 else 0) + (if p(b) then 1 else 0) + (if p(c) then 1 else 0) + (if p(d) then 1 else 0)
  {
    assert [a, b, c, d][1..] == [b, c, d];
    assert [b, c, d][1..] == [c, d];
    assert [c, d][1..] == [d];
    assert [d][1..] == [];
    assert Count([d], p) == (if p(d) then 1 else 0);
    assert Count([c, d], p) == (if p(c) then 1 else 0) + Count([d], p);
    assert Count([b, c, d], p) == (if p(b) then 1 else 0) + Count([c, d], p);
  }

  lemma ExplosionEventCounts(c: BotConfig, location: Vector)
    ensures Count(ExplosionEvents(c, location), IsDestroy) == 1
    ensures Count(ExplosionEvents(c, location), IsRadialDamage) == 1
    ensures Count(ExplosionEvents(c, location), IsMaterialCreated) == 0
    ensures Count(ExplosionEvents(c, location), IsMaterialAttempt) == 0
    ensures Count(ExplosionEvents(c, location), IsForce) == 0
  {
    var es := ExplosionEvents(c, location);
    CountFour(es[0], es[1], es[2], es[3], IsDestroy);
    CountFour(es[0], es[1], es[2], es[3], IsRadialDamage);
    CountFour(es[0], es[1], es[2], es[3], IsMaterialCreated);
    CountFour(es[0], es[1], es[2], es[3], IsMaterialAttempt);
    CountFour(es[0], es[1], es[2], es[3], IsForce);
  }

  /** The bot after SelfDestruct(). */
  function AfterSelfDestruct(c: BotConfig, s: BotView, location: Vector): (r: BotView)
    ensures r.exploded
    ensures r.nextPathPoint == s.nextPathPoint && r.hasMatInst == s.hasMatInst
  {
    if s.exploded then s
    else s.(exploded := true, trace := s.trace + ExplosionEvents(c, location))
  }

  /** SelfDestruct is idempotent: a second call changes nothing. */
  lemma SelfDestructIdempotent(c: BotConfig, s: BotView, first: Vector, second: Vector)
    ensures AfterSelfDestruct(c, AfterSelfDestruct(c, s, first), second) == AfterSelfDestruct(c, s, first)
  {
  }

  /** A first SelfDestruct emits the effect, the radial damage that ignores only
      the bot, the debug sphere and Destroy, in that order; afterwards exactly
      one Destroy and one radial damage request are on record. */
  lemma SelfDestructEffects(c: BotConfig, s: BotView, location: Vector)
    requires Consistent(s)
    ensures Consistent(AfterSelfDestruct(c, s, location))
    ensures Count(AfterSelfDestruct(c, s, location).trace, IsDestroy) == 1
    ensures Count(AfterSelfDestruct(c, s, location).trace, IsRadialDamage) == 1
    ensures s.exploded ==> AfterSelfDestruct(c, s, location).trace == s.trace
    ensures !s.exploded ==>
      (AfterSelfDestruct(c, s, location).trace == s.trace +
        [ ExplosionEffect(location),
          RadialDamage(c.explosionDamage, location, c.explosionRadius, [c.self], c.self, true),
          DebugSphere(location, c.explosionRadius),
          Destroy ])
  {
    if !s.exploded {
      var es := ExplosionEvents(c, location);
      ExplosionEventCounts(c, location);
      CountConcat(s.trace, es, IsDestroy);
      CountConcat(s.trace, es, IsRadialDamage);
      CountConcat(s.trace, es, IsMaterialCreated);
    }
  }

  /** The bot after the material instance is requested, which happens only
      while the pointer is still null; materialCreated is the engine's answer. */
  function AfterMaterialRequest(s: BotView, materialCreated: bool): BotView
  {
    if s.hasMatInst then s
    else s.(hasMatInst := materialCreated, trace := s.trace + [CreateMaterialInstance(materialCreated)])
  }

  /** The bot after its material pulse: the instance is requested when the
      pointer is still null, and the pulse runs when the pointer is set. */
  function AfterPulse(s: BotView, time: real, materialCreated: bool): BotView
  {
    var t := AfterMaterialRequest(s, materialCreated);
    if t.hasMatInst then t.(trace := t.trace + [PulseMaterial(time)]) else t
  }

  /** The bot after HandleTakeDamage reports the given Health. */
  function AfterHandleTakeDamage(c: BotConfig, s: BotView, health: real, time: real, location: Vector, materialCreated: bool): (r: BotView)
    ensures r.exploded == (s.exploded || health == 0.0)
    ensures r.nextPathPoint == s.nextPathPoint
  {
    var pulsed := AfterPulse(s, time, materialCreated);
    if health == 0.0 then AfterSelfDestruct(c, pulsed, location) else pulsed
  }

  /** The material pulse keeps the trace consistent, asks the engine for an
      instance only while the pointer is null, and never detonates. */
  lemma {:induction false} PulseEffects(s: BotView, time: real, materialCreated: bool)
    requires Consistent(s)
    ensures Consistent(AfterPulse(s, time, materialCreated))
    ensures AfterPulse(s, time, materialCreated).exploded == s.exploded
    ensures Count(AfterPulse(s, time, materialCreated).trace, IsMaterialAttempt)
         == Count(s.trace, IsMaterialAttempt) + (if s.hasMatInst then 0 else 1)
    ensures AfterPulse(s, time, materialCreated).hasMatInst == (s.hasMatInst || materialCreated)
    ensures AfterPulse(s, time, materialCreated).nextPathPoint == s.nextPathPoint
    ensures AfterPulse(s, time, materialCreated).trace
         == s.trace
          + (if s.hasMatInst then [] else [CreateMaterialInstance(materialCreated)])
          + (if s.hasMatInst || materialCreated then [PulseMaterial(time)] else [])
  {
    var t := AfterMaterialRequest(s, materialCreated);
    if !s.hasMatInst {
      var e := [CreateMaterialInstance(materialCreated)];
      CountConcat(s.trace, e, IsDestroy);
      CountConcat(s.trace, e, IsRadialDamage);
      CountConcat(s.trace, e, IsMaterialCreated);
      CountConcat(s.trace, e, IsMaterialAttempt);
    }
    if t.hasMatInst {
      var e := [PulseMaterial(time)];
      CountConcat(t.trace, e, IsDestroy);
      CountConcat(t.trace, e, IsRadialDamage);
      CountConcat(t.trace, e, IsMaterialCreated);
      CountConcat(t.trace, e, IsMaterialAttempt);
    }
  }

  /** HandleTakeDamage detonates exactly when the reported Health equals 0 and
      the bot has not exploded yet; a consistent trace stays consistent, so
      Destroy is on record at most once, and the material instance is created
      at most once. */
  lemma HandleTakeDamageEffects(c: BotConfig, s: BotView, health: real, time: real, location: Vector, materialCreated: bool)
    requires Consistent(s)
    ensures Consistent(AfterHandleTakeDamage(c, s, health, time, location, materialCreated))
    ensures Count(AfterHandleTakeDamage(c, s, health, time, location, materialCreated).trace, IsDestroy)
         == Count(s.trace, IsDestroy) + (if health == 0.0 && !s.exploded then 1 else 0)
    ensures Count(AfterHandleTakeDamage(c, s, health, time, location, materialCreated).trace, IsMaterialAttempt)
         == Count(s.trace, IsMaterialAttempt) + (if s.hasMatInst then 0 else 1)
  {
    var pulsed := AfterPulse(s, time, materialCreated);
    PulseEffects(s, time, materialCreated);
    if health == 0.0 {
      SelfDestructEffects(c, pulsed, location);
      if !pulsed.exploded {
        ExplosionEventCounts(c, location);
        CountConcat(pulsed.trace, ExplosionEvents(c, location), IsMaterialAttempt);
      }
    }
  }

  /** HandleTakeDamage keeps the old trace and appends only the pulse calls,
      followed by the explosion calls when it detonates for the first time. */
  lemma HandleTakeDamageTrace(c: BotConfig, s: BotView, health: real, time: real, location: Vector, materialCreated: bool)
    ensures AfterHandleTakeDamage(c, s, health, time, location, materialCreated).trace
         == s.trace
          + (if s.hasMatInst then [] else [CreateMaterialInstance(materialCreated)])
          + (if s.hasMatInst || materialCreated then [PulseMaterial(time)] else [])
          + (if health == 0.0 && !s.exploded then ExplosionEvents(c, location) else [])
    ensures s.trace <= AfterHandleTakeDamage(c, s, health, time, location, materialCreated).trace
  {
  }

  /** The bot after one Tick, given the distance to NextPathPoint, the actor
      location and the path the navigation system returns. */
  function AfterTick(c: BotConfig, s: BotView, distanceToTarget: real, location: Vector, pathPoints: seq<Vector>): (r: BotView)
    ensures r.exploded == s.exploded && r.hasMatInst == s.hasMatInst
  {
    if distanceToTarget <= c.requiredDistanceToTarget then
      s.(nextPathPoint := GetNextPawnPoint(pathPoints))
    else
      s.(trace := s.trace + [AddForce(Sub(s.nextPathPoint, location), c.movementForce, c.useVelocityChange)])
  }

  /** At or within RequiredDistanceToTarget (the boundary included) Tick
      re-targets and applies no force; beyond it Tick keeps the target and
      applies exactly one force of MovementForce toward NextPathPoint. */
  lemma TickBranches(c: BotConfig, s: BotView, distanceToTarget: real, location: Vector, pathPoints: seq<Vector>)
    requires Consistent(s)
    ensures Consistent(AfterTick(c, s, distanceToTarget, location, pathPoints))
    ensures distanceToTarget <= c.requiredDistanceToTarget ==>
      && AfterTick(c, s, distanceToTarget, location, pathPoints).nextPathPoint == GetNextPawnPoint(pathPoints)
      && AfterTick(c, s, distanceToTarget, location, pathPoints).trace == s.trace
    ensures distanceToTarget > c.requiredDistanceToTarget ==>
      && AfterTick(c, s, distanceToTarget, location, pathPoints).nextPathPoint == s.nextPathPoint
      && Count(AfterTick(c, s, distanceToTarget, location, pathPoints).trace, IsForce) == Count(s.trace, IsForce) + 1
      && AfterTick(c, s, distanceToTarget, location, pathPoints).trace
         == s.trace + [AddForce(Sub(s.nextPathPoint, location), c.movementForce, c.useVelocityChange)]
  {
    if distanceToTarget > c.requiredDistanceToTarget {
      var e := [AddForce(Sub(s.nextPathPoint, location), c.movementForce, c.useVelocityChange)];
      CountConcat(s.trace, e, IsForce);
      CountConcat(s.trace, e, IsDestroy);
      CountConcat(s.trace, e, IsRadialDamage);
      CountConcat(s.trace, e, IsMaterialCreated);
    }
  }

  /** The bot after BeginPlay picks its first target. */
  function AfterBeginPlay(s: BotView, pathPoints: seq<Vector>): (r: BotView)
    ensures r.nextPathPoint == GetNextPawnPoint(pathPoints)
    ensures r.exploded == s.exploded && r.hasMatInst == s.hasMatInst && r.trace == s.trace
  {
    s.(nextPathPoint := GetNextPawnPoint(pathPoints))
  }

  class TrackerBot {
    const Id: ActorId
    var MovementForce: real
    var RequiredDistanceToTarget: real
    var ExplosionRadius: real
    var ExplosionDamage: real
    var bUseVelocityChange: bool
    var bExploded: bool
    var NextPathPoint: Vector
    /** Whether MatInst is non-null. */
    var HasMatInst: bool
    /** The engine calls made so far, oldest first. */
    var Trace: seq<BotEvent>

    function Config(): BotConfig
      reads this
    {
      BotConfig(Id, MovementForce, RequiredDistanceToTarget, ExplosionRadius, ExplosionDamage, bUseVelocityChange)
    }

    function View(): BotView
      reads this
    {
      BotView(bExploded, NextPathPoint, HasMatInst, Trace)
    }

    constructor (id: ActorId)
      ensures Config() == ConstructorConfig(id)
      ensures View() == InitialView
    {
      Id := id;
      bUseVelocityChange := false;
      MovementForce := 1000.0;
      RequiredDistanceToTarget := 100.0;
      ExplosionRadius := 200.0;
      ExplosionDamage := 40.0;
      bExploded := false;
      NextPathPoint := ZeroVector;
      HasMatInst := false;
      Trace := [];
    }

    /** pathPoints is the path the navigation system finds to the player. */
    method BeginPlay(pathPoints: seq<Vector>)
      modifies this
      ensures Config() == old(Config())
      ensures View() == AfterBeginPlay(old(View()), pathPoints)
    {
      NextPathPoint := GetNextPawnPoint(pathPoints);
    }

    /** health and healthDelta are the broadcast's arguments; time is the world
        time, location the actor location and materialCreated whether the engine
        returns a material instance if one is requested. */
    method HandleTakeDamage(health: real, healthDelta: real, time: real, location: Vector, materialCreated: bool)
      modifies this
      ensures Config() == old(Config())
      ensures View() == AfterHandleTakeDamage(Config(), old(View()), health, time, location, materialCreated)
    {
      if !HasMatInst {
        HasMatInst := materialCreated;
        Trace := Trace + [CreateMaterialInstance(materialCreated)];
      }
      if HasMatInst {
        Trace := Trace + [PulseMaterial(time)];
      }
      if health == 0.0 {
        SelfDestruct(location);
      }
    }

    method SelfDestruct(location: Vector)
      modifies this
      ensures Config() == old(Config())
      ensures View() == AfterSelfDestruct(Config(), old(View()), location)
    {
      if bExploded {
        return;
      }
      bExploded := true;
      Trace := Trace + [ExplosionEffect(location)];
      var ignoredActors := [Id];
      Trace := Trace + [RadialDamage(ExplosionDamage, location, ExplosionRadius, ignoredActors, Id, true)];
      Trace := Trace + [DebugSphere(location, ExplosionRadius)];
      Trace := Trace + [Destroy];
    }

    /** distanceToTarget is the length of (location - NextPathPoint); pathPoints
        is the path the navigation system would return if asked. */
    method Tick(deltaTime: real, distanceToTarget: real, location: Vector, pathPoints: seq<Vector>)
      modifies this
      ensures Config() == old(Config())
      ensures View() == AfterTick(Config(), old(View()), distanceToTarget, location, pathPoints)
    {
      if distanceToTarget <= RequiredDistanceToTarget {
        NextPathPoint := GetNextPawnPoint(pathPoints);
      } else {
        var forceDirection := Sub(NextPathPoint, location);
        Trace := Trace + [AddForce(forceDirection, MovementForce, bUseVelocityChange)];
      }
    }
  }
}
