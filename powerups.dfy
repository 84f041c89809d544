/** The six power-up records and their cooldown state machine:
    Available --use--> cooling down --one tick per second--> Available. */
module Powerups {

  datatype Kind = Slow | Skip | Hint | Shield | Double | Reveal

  const AllKinds: set<Kind> := {Slow, Skip, Hint, Shield, Double, Reveal}

  /** One entry of the `powerups` table. */
  datatype Powerup = Powerup(available: bool, cooldown: int, maxCooldown: int, cost: int)

  /** The `maxCooldown` column, in seconds. */
  function MaxCooldown(k: Kind): nat
  {
    match k
    case Slow => 5
    case Skip => 3
    case Hint => 4
    case Shield => 8
    case Double => 10
    case Reveal => 12
  }

  /** The `cost` column, in points. */
  function Cost(k: Kind): nat
  {
    match k
    case Slow => 100
    case Skip => 150
    case Hint => 50
    case Shield => 200
    case Double => 300
    case Reveal => 250
  }

  /** A power-up as the constructor creates it: available, not cooling down. */
  function Fresh(k: Kind): (p: Powerup)
    ensures WellFormed(k, p) && p.available
  {
    Powerup(true, 0, MaxCooldown(k), Cost(k))
  }

  /** The whole table as the constructor creates it. */
  function InitialTable(): (t: map<Kind, Powerup>)
    ensures TableWellFormed(t)
    ensures forall k :: k in t ==> t[k].available
  {
    map k | k in AllKinds :: Fresh(k)
  }

  /** The record keeps its table constants, its cooldown stays within
      0..maxCooldown, and it is available exactly when the cooldown is 0. */
  ghost predicate WellFormed(k: Kind, p: Powerup)
  {
    && p.maxCooldown == MaxCooldown(k)
    && p.cost == Cost(k)
    && 0 <= p.cooldown <= p.maxCooldown
    && (p.available <==> p.cooldown == 0)
  }

  ghost predicate TableWellFormed(t: map<Kind, Powerup>)
  {
    t.Keys == AllKinds && forall k :: k in t ==> WellFormed(k, t[k])
  }

  /** The guard of `usePowerup` that precedes the score check. */
  predicate Ready(p: Powerup)
  {
    p.available && p.cooldown <= 0
  }

  /** What a successful use does to the record: `available = false`, `cooldown = maxCooldown`. */
  function Arm(p: Powerup): (q: Powerup)
    ensures !Ready(q)
    ensures q.cost == p.cost && q.maxCooldown == p.maxCooldown
  {
    p.(available := false, cooldown := p.maxCooldown)
  }

  lemma ArmKeepsWellFormed(k: Kind, p: Powerup)
    requires WellFormed(k, p)
    ensures WellFormed(k, Arm(p)) && Arm(p).cooldown == MaxCooldown(k)
  {
  }

  /** Replacing one record of a well-formed table by a well-formed one keeps it well formed. */
  lemma RearmKeepsWellFormed(t: map<Kind, Powerup>, k: Kind, p: Powerup)
    requires TableWellFormed(t) && k in t && WellFormed(k, p)
    ensures TableWellFormed(t[k := p])
  {
  }

  /** One run of the `startCooldown` interval: the cooldown drops by one and the
      power-up becomes available when it reaches zero. The interval is only
      alive while the cooldown is positive. */
  function Tick(p: Powerup): (q: Powerup)
    requires p.cooldown > 0
    ensures q.cooldown == p.cooldown - 1
    ensures q.available == (q.cooldown == 0 || p.available)
    ensures q.cost == p.cost && q.maxCooldown == p.maxCooldown
  {
    var c := p.cooldown - 1;
    if c <= 0 then p.(cooldown := c, available := true) else p.(cooldown := c)
  }

  /** Ticking preserves the table invariant: `available` still holds exactly at cooldown 0. */
  lemma TickKeepsWellFormed(k: Kind, p: Powerup)
    requires WellFormed(k, p) && p.cooldown > 0
    ensures WellFormed(k, Tick(p))
  {
  }

  /** `n` successive ticks of a cooling-down power-up. */
  function Ticks(p: Powerup, n: nat): Powerup
    requires n <= p.cooldown
    decreases n
  {
    if n == 0 then p else Ticks(Tick(p), n - 1)
  }

  /** After `n` ticks the cooldown is `n` lower, the record is still well formed,
      and it is available exactly when all of the cooldown has elapsed. */
  lemma {:induction false} TicksCount(k: Kind, p: Powerup, n: nat)
    requires WellFormed(k, p) && n <= p.cooldown
    ensures WellFormed(k, Ticks(p, n))
    ensures Ticks(p, n).cooldown == p.cooldown - n
    ensures Ticks(p, n).available <==> n == p.cooldown
    decreases n
  {
    if n > 0 {
      TickKeepsWellFormed(k, p);
      TicksCount(k, Tick(p), n - 1);
    }
  }

  /** A used power-up is back to its fresh state after exactly `maxCooldown` ticks. */
  lemma CooldownRestores(k: Kind)
    ensures Arm(Fresh(k)).cooldown == MaxCooldown(k)
    ensures Ticks(Arm(Fresh(k)), MaxCooldown(k)) == Fresh(k)
  {
    var armed := Arm(Fresh(k));
    TicksCount(k, armed, MaxCooldown(k));
  }
}
