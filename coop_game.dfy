/**
 The wiring between the two components: the tracker bot owns a health
 component, the component's damage handler listens to the bot's
 OnTakeAnyDamage, and the bot's HandleTakeDamage listens to the component's
 OnHealthChanged. The lemmas follow a run of hits through both.
 */
module Coop {
  import opened Health
  import opened Tracker

  /** One damage event delivered to the bot: the damage with its source, and
      the engine facts the bot's handler consults. */
  datatype Hit = Hit(damage: real, source: DamageSource, time: real, location: Vector, materialCreated: bool)

  /** The bot's Health together with the rest of its state. */
  datatype World = World(health: real, bot: BotView)

  /** One hit: the component applies it and, when it broadcasts, the bot's
      handler sees the new Health. */
  function AfterHit(c: BotConfig, defaultHealth: real, w: World, hit: Hit): (r: World)
    ensures r.health == AfterTakeAnyDamage(w.health, defaultHealth, hit.damage)
    ensures hit.damage <= 0.0 ==> r == w
    ensures hit.damage > 0.0 ==> r.bot.exploded == (w.bot.exploded || r.health == 0.0)
  {
    var health := AfterTakeAnyDamage(w.health, defaultHealth, hit.damage);
    if hit.damage > 0.0 then
      World(health, AfterHandleTakeDamage(c, w.bot, health, hit.time, hit.location, hit.materialCreated))
    else
      World(health, w.bot)
  }

  function AfterHits(c: BotConfig, defaultHealth: real, w: World, hits: seq<Hit>): World
    decreases |hits|
  {
    if hits == [] then w else AfterHits(c, defaultHealth, AfterHit(c, defaultHealth, w, hits[0]), hits[1..])
  }

  function Damages(hits: seq<Hit>): seq<real>
  {
    seq(|hits|, i requires 0 <= i < |hits| => hits[i].damage)
  }

  /** Some hit carries positive damage, so the component broadcasts at least once. */
  predicate SomeHitLands(hits: seq<Hit>)
  {
    exists i :: 0 <= i < |hits| && hits[i].damage > 0.0
  }

  /** The Health in a run of hits is exactly the component's Health after the
      same damages. */
  lemma {:induction false} HitsFollowHealth(c: BotConfig, defaultHealth: real, w: World, hits: seq<Hit>)
    ensures AfterHits(c, defaultHealth, w, hits).health == AfterDamages(w.health, defaultHealth, Damages(hits))
    decreases |hits|
  {
    if hits != [] {
      assert Damages(hits)[1..] == Damages(hits[1..]);
      HitsFollowHealth(c, defaultHealth, AfterHit(c, defaultHealth, w, hits[0]), hits[1..]);
    }
  }

  /** Any run of hits keeps 0 <= Health, never raises Health, keeps the bot's
      trace consistent and never undoes an explosion. */
  lemma {:induction false} HitsKeepInvariants(c: BotConfig, defaultHealth: real, w: World, hits: seq<Hit>)
    requires 0.0 <= w.health <= defaultHealth
    requires Consistent(w.bot)
    ensures 0.0 <= AfterHits(c, defaultHealth, w, hits).health <= w.health
    ensures Consistent(AfterHits(c, defaultHealth, w, hits).bot)
    ensures w.bot.exploded ==> AfterHits(c, defaultHealth, w, hits).bot.exploded
    decreases |hits|
  {
    if hits != [] {
      var hit := hits[0];
      var next := AfterHit(c, defaultHealth, w, hit);
      DamageNeverHeals(w.health, defaultHealth, hit.damage);
      if hit.damage > 0.0 {
        HandleTakeDamageEffects(c, w.bot, next.health, hit.time, hit.location, hit.materialCreated);
      }
      HitsKeepInvariants(c, defaultHealth, next, hits[1..]);
    }
  }

  /** Hits without positive damage change nothing. */
  lemma {:induction false} MissesChangeNothing(c: BotConfig, defaultHealth: real, w: World, hits: seq<Hit>)
    requires !SomeHitLands(hits)
    ensures AfterHits(c, defaultHealth, w, hits) == w
    decreases |hits|
  {
    if hits != [] {
      assert hits[0].damage <= 0.0;
      assert !SomeHitLands(hits[1..]) by {
        forall i | 0 <= i < |hits[1..]| ensures hits[1..][i].damage <= 0.0 {
          assert hits[1..][i] == hits[i + 1];
        }
      }
      MissesChangeNothing(c, defaultHealth, w, hits[1..]);
    }
  }

  /** Over any run of hits the bot ends exploded exactly when it started
      exploded, or its Health ended at 0 and at least one hit was broadcast:
      the health component and the bot's equality test agree on death. */
  lemma {:induction false} ExplodesIffKilled(c: BotConfig, defaultHealth: real, w: World, hits: seq<Hit>)
    requires 0.0 <= w.health <= defaultHealth
    requires Consistent(w.bot)
    ensures AfterHits(c, defaultHealth, w, hits).bot.exploded
        <==> (w.bot.exploded || (AfterHits(c, defaultHealth, w, hits).health == 0.0 && SomeHitLands(hits)))
    decreases |hits|
  {
    if hits == [] {
      return;
    }
    var hit := hits[0];
    var rest := hits[1..];
    var next := AfterHit(c, defaultHealth, w, hit);
    var last := AfterHits(c, defaultHealth, next, rest);
    assert last == AfterHits(c, defaultHealth, w, hits);
    DamageNeverHeals(w.health, defaultHealth, hit.damage);
    if hit.damage > 0.0 {
      HandleTakeDamageEffects(c, w.bot, next.health, hit.time, hit.location, hit.materialCreated);
    }
    HitsKeepInvariants(c, defaultHealth, next, rest);
    ExplodesIffKilled(c, defaultHealth, next, rest);
    assert SomeHitLands(rest) ==> SomeHitLands(hits) by {
      if SomeHitLands(rest) {
        var i :| 0 <= i < |rest| && rest[i].damage > 0.0;
        assert hits[i + 1] == rest[i];
      }
    }
    if hit.damage <= 0.0 {
      assert SomeHitLands(hits) ==> SomeHitLands(rest) by {
        if SomeHitLands(hits) {
          var i :| 0 <= i < |hits| && hits[i].damage > 0.0;
          assert i != 0;
          assert rest[i - 1] == hits[i];
        }
      }
    } else {
      assert SomeHitLands(hits);
      if last.health == 0.0 && next.health != 0.0 && !SomeHitLands(rest) {
        MissesChangeNothing(c, defaultHealth, next, rest);
      }
    }
  }

  /** From a freshly spawned bot with Health reset to the default 100, four
      hits of 20 leave it alive and untouched by any explosion, and a fifth
      detonates it, with exactly one Destroy and one radial damage request. */
  lemma FiveHitsDetonateOnce(self: ActorId, hits: seq<Hit>)
    requires |hits| == 5
    requires forall i :: 0 <= i < |hits| ==> hits[i].damage == 20.0
    ensures !AfterHits(ConstructorConfig(self), ConstructorDefaultHealth, World(ConstructorDefaultHealth, InitialView), hits[..4]).bot.exploded
    ensures AfterHits(ConstructorConfig(self), ConstructorDefaultHealth, World(ConstructorDefaultHealth, InitialView), hits).health == 0.0
    ensures AfterHits(ConstructorConfig(self), ConstructorDefaultHealth, World(ConstructorDefaultHealth, InitialView), hits).bot.exploded
    ensures Count(AfterHits(ConstructorConfig(self), ConstructorDefaultHealth, World(ConstructorDefaultHealth, InitialView), hits).bot.trace, IsDestroy) == 1
    ensures Count(AfterHits(ConstructorConfig(self), ConstructorDefaultHealth, World(ConstructorDefaultHealth, InitialView), hits).bot.trace, IsRadialDamage) == 1
  {
    var c := ConstructorConfig(self);
    var w := World(ConstructorDefaultHealth, InitialView);
    assert Consistent(w.bot);
    assert Damages(hits) == [20.0, 20.0, 20.0, 20.0, 20.0];
    assert Damages(hits[..4]) == [20.0, 20.0, 20.0, 20.0];
    FiveHitsOfTwenty();
    HitsFollowHealth(c, ConstructorDefaultHealth, w, hits);
    HitsFollowHealth(c, ConstructorDefaultHealth, w, hits[..4]);
    assert hits[0].damage > 0.0;
    assert SomeHitLands(hits);
    ExplodesIffKilled(c, ConstructorDefaultHealth, w, hits);
    ExplodesIffKilled(c, ConstructorDefaultHealth, w, hits[..4]);
    HitsKeepInvariants(c, ConstructorDefaultHealth, w, hits);
  }

  /** The bot's OnTakeAnyDamage. It reaches the component's handler only when
      BeginPlay bound it, and each OnHealthChanged broadcast reaches the bot's
      HandleTakeDamage with the broadcast's Health and Damage. */
  method OwnerTakeAnyDamage(comp: HealthComponent, bot: TrackerBot, hit: Hit)
    modifies comp, bot
    ensures comp.DefaultHealth == old(comp.DefaultHealth) && comp.BoundToOwner == old(comp.BoundToOwner)
    ensures bot.Config() == old(bot.Config())
    ensures old(comp.Valid()) ==> comp.Valid()
    ensures old(comp.BoundToOwner) ==>
      World(comp.Health, bot.View()) == AfterHit(bot.Config(), comp.DefaultHealth, old(World(comp.Health, bot.View())), hit)
    ensures old(comp.BoundToOwner) ==>
      comp.Broadcasts == old(comp.Broadcasts) + (if hit.damage > 0.0 then [HealthChanged(comp.Health, hit.damage, hit.source)] else [])
    ensures !old(comp.BoundToOwner) ==>
      comp.Health == old(comp.Health) && comp.Broadcasts == old(comp.Broadcasts) && bot.View() == old(bot.View())
  {
    if comp.BoundToOwner {
      var before := |comp.Broadcasts|;
      comp.HandleTakeAnyDamage(hit.damage, hit.source);
      if |comp.Broadcasts| > before {
        var broadcast := comp.Broadcasts[before];
        bot.HandleTakeDamage(broadcast.health, broadcast.healthDelta, hit.time, hit.location, hit.materialCreated);
      }
    }
  }
}
