/**
 Model of USHealthComponent: an actor component that keeps the owner's Health
 between 0 and DefaultHealth, applies incoming damage with a clamp and
 broadcasts OnHealthChanged once per applied hit.
 */
module Health {

  /** Opaque identities of the engine objects that a damage event passes
      through unchanged: the damage type, the instigating controller and the
      causing actor. */
  datatype DamageSource = DamageSource(damageType: nat, instigatedBy: nat, damageCauser: nat)

  /** One OnHealthChanged broadcast: the new Health and the Damage argument
      exactly as the handler received it (not the clamped difference). */
  datatype HealthChanged = HealthChanged(health: real, healthDelta: real, source: DamageSource)

  /** The value the component's constructor gives DefaultHealth. */
  const ConstructorDefaultHealth: real := 100.0

  /** FMath::Clamp as the engine defines it: X < Min ? Min : (X < Max ? X : Max).
      With inverted bounds (Max < Min) it yields Min below Min and Max otherwise. */
  function Clamp(x: real, lo: real, hi: real): (r: real)
    ensures lo <= hi ==> lo <= r <= hi
    ensures lo <= x <= hi ==> r == x
    ensures x <= lo <= hi ==> r == lo
    ensures lo <= hi <= x ==> r == hi
    ensures hi < lo ==> r == lo || r == hi
  {
    if x < lo then lo else if x < hi then x else hi
  }

  /** The Health that HandleTakeAnyDamage leaves behind. */
  function AfterTakeAnyDamage(health: real, defaultHealth: real, damage: real): (r: real)
    ensures damage <= 0.0 ==> r == health
    ensures damage > 0.0 && 0.0 <= defaultHealth ==> 0.0 <= r <= defaultHealth
    ensures damage > 0.0 && 0.0 <= health - damage <= defaultHealth ==> r == health - damage
    ensures damage > 0.0 && 0.0 <= defaultHealth && health <= damage ==> r == 0.0
  {
    if damage <= 0.0 then health else Clamp(health - damage, 0.0, defaultHealth)
  }

  /** Damage never raises a Health that starts within its bounds. */
  lemma DamageNeverHeals(health: real, defaultHealth: real, damage: real)
    requires 0.0 <= health <= defaultHealth
    ensures 0.0 <= AfterTakeAnyDamage(health, defaultHealth, damage) <= health
  {
  }

  /** The Health after a sequence of HandleTakeAnyDamage calls, first hit first. */
  function AfterDamages(health: real, defaultHealth: real, damages: seq<real>): real
    decreases |damages|
  {
    if damages == [] then health
    else AfterDamages(AfterTakeAnyDamage(health, defaultHealth, damages[0]), defaultHealth, damages[1..])
  }

  /** The sum of a sequence of damage amounts. */
  function Total(damages: seq<real>): real
    decreases |damages|
  {
    if damages == [] then 0.0 else damages[0] + Total(damages[1..])
  }

  /** Any sequence of calls keeps 0 <= Health <= DefaultHealth and never raises Health. */
  lemma {:induction false} DamagesKeepBounds(health: real, defaultHealth: real, damages: seq<real>)
    requires 0.0 <= health <= defaultHealth
    ensures 0.0 <= AfterDamages(health, defaultHealth, damages) <= health
    decreases |damages|
  {
    if damages != [] {
      var next := AfterTakeAnyDamage(health, defaultHealth, damages[0]);
      DamageNeverHeals(health, defaultHealth, damages[0]);
      DamagesKeepBounds(next, defaultHealth, damages[1..]);
    }
  }

  /** Once Health is exactly 0 it stays exactly 0, whatever damage follows. */
  lemma {:induction false} ZeroStaysZero(defaultHealth: real, damages: seq<real>)
    requires 0.0 <= defaultHealth
    ensures AfterDamages(0.0, defaultHealth, damages) == 0.0
    decreases |damages|
  {
    if damages != [] {
      ZeroStaysZero(defaultHealth, damages[1..]);
    }
  }

  /** With real-valued Health, positive hits that add up to at least the
      current Health bring it to exactly 0: the clamp lands on the boundary, so
      an equality test against 0 sees it. */
  lemma {:induction false} DamagesReachZero(health: real, defaultHealth: real, damages: seq<real>)
    requires 0.0 <= health <= defaultHealth
    requires forall i :: 0 <= i < |damages| ==> damages[i] > 0.0
    requires Total(damages) >= health
    ensures AfterDamages(health, defaultHealth, damages) == 0.0
    decreases |damages|
  {
    if damages != [] {
      var next := AfterTakeAnyDamage(health, defaultHealth, damages[0]);
      if health <= damages[0] {
        ZeroStaysZero(defaultHealth, damages[1..]);
      } else {
        assert next == health - damages[0];
        DamagesReachZero(next, defaultHealth, damages[1..]);
      }
    }
  }

  /** From the default 100, four hits of 20 leave exactly 20 and a fifth leaves exactly 0. */
  lemma FiveHitsOfTwenty()
    ensures AfterDamages(ConstructorDefaultHealth, ConstructorDefaultHealth, [20.0, 20.0, 20.0, 20.0]) == 20.0
    ensures AfterDamages(ConstructorDefaultHealth, ConstructorDefaultHealth, [20.0, 20.0, 20.0, 20.0, 20.0]) == 0.0
  {
    var five := [20.0, 20.0, 20.0, 20.0, 20.0];
    assert Total(five) == 100.0;
    DamagesReachZero(ConstructorDefaultHealth, ConstructorDefaultHealth, five);
  }

  class HealthComponent {
    var Health: real
    var DefaultHealth: real
    /** Whether HandleTakeAnyDamage is bound to the owner's OnTakeAnyDamage. */
    var BoundToOwner: bool
    /** Every OnHealthChanged broadcast so far, oldest first. */
    var Broadcasts: seq<HealthChanged>

    ghost predicate Valid()
      reads this
    {
      0.0 <= Health <= DefaultHealth
    }

    /** Health is not set by the constructor and keeps the engine's zero
        initialisation until BeginPlay. */
    constructor ()
      ensures DefaultHealth == ConstructorDefaultHealth && Health == 0.0
      ensures !BoundToOwner && Broadcasts == []
      ensures Valid()
    {
      DefaultHealth := ConstructorDefaultHealth;
      Health := 0.0;
      BoundToOwner := false;
      Broadcasts := [];
    }

    /** Binds the damage handler only on the authority and only when there is
        an owner; resets Health to DefaultHealth in every case. */
    method BeginPlay(ownerIsAuthority: bool, hasOwner: bool)
      modifies this
      ensures Health == DefaultHealth == old(DefaultHealth)
      ensures BoundToOwner == (old(BoundToOwner) || (ownerIsAuthority && hasOwner))
      ensures Broadcasts == old(Broadcasts)
      ensures 0.0 <= DefaultHealth ==> Valid()
    {
      if ownerIsAuthority {
        if hasOwner {
          BoundToOwner := true;
        }
      }
      Health := DefaultHealth;
    }

    /** Ignores non-positive damage; otherwise clamps Health - Damage into
        [0, DefaultHealth] and broadcasts once with the raw Damage. */
    method HandleTakeAnyDamage(damage: real, source: DamageSource)
      modifies this
      ensures Health == AfterTakeAnyDamage(old(Health), old(DefaultHealth), damage)
      ensures DefaultHealth == old(DefaultHealth) && BoundToOwner == old(BoundToOwner)
      ensures Broadcasts == old(Broadcasts) + (if damage > 0.0 then [HealthChanged(Health, damage, source)] else [])
      ensures 0.0 <= DefaultHealth && (damage > 0.0 || old(Valid())) ==> Valid()
    {
      if damage <= 0.0 {
        return;
      }
      Health := Clamp(Health - damage, 0.0, DefaultHealth);
      Broadcasts := Broadcasts + [HealthChanged(Health, damage, source)];
    }
  }
}
