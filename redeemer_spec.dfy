/** The redeemer missile (AUTProj_Redeemer) as values: a health counter that
    hostile hits wear down, a once-only explosion, and the explosion itself as
    six timed stages over growing radii, the last of which shuts the missile
    down. Timers are explicit calls: `StageTimer` is the engine firing the
    timer the previous stage set. */
module RedeemerSpec {
  import opened Base

  /** A controller (player or bot), by identity. */
  type ControllerId = nat

  /** Health of a freshly fired missile. */
  const InitialHealth: int := 35

  /** Range multiplier of each explosion stage, first to last. */
  const ExplosionRadii: seq<real> := [0.125, 0.3, 0.475, 0.65, 0.825, 1.0]

  /** Delay after stage i before stage i + 1 runs. */
  const ExplosionTimings: seq<real> := [0.5, 0.2, 0.2, 0.2, 0.2]

  const StageCount: nat := 6

  /** Assigning a float to an integer in C++ truncates toward zero. */
  function TruncToInt(x: real): int {
    if x >= 0.0 then x.Floor else -((-x).Floor)
  }

  function Add(a: Pos, b: Pos): Pos {
    Pos(a.x + b.x, a.y + b.y, a.z + b.z)
  }

  const Up: Pos := Pos(0.0, 0.0, 1.0)

  /** Calls the missile makes on the rest of the game, in order. */
  datatype Event =
    | Denied(denier: Option<ControllerId>)   // "redeemer denied" messages to the shooter and the owner
    | ServerHit(damage: real)            // a client-side hit forwarded to the server
    | ExplosionEffect(at: Pos)           // the explosion effect spawned
    | Blast(rangeMultiplier: real)       // one stage's radial damage

  /** What does not change during a missile's flight. */
  datatype RedeemerConfig = RedeemerConfig(
    authority: bool,          // this copy runs on the server
    hasExplosionEffects: bool,
    hurts: bool)              // the damage parameters have a positive outer radius

  datatype Missile = Missile(
    location: Pos,
    projHealth: int,
    exploded: bool,
    detonated: bool,                    // replicated flag; set elsewhere
    impactedBy: Option<ControllerId>,   // instigator of a projectile this one ran into
    hidden: bool,                       // collision off, movement stopped, components hidden
    tornOff: bool,
    explodeHitLocation: Pos,
    stage: nat,                         // last explosion stage run, 0 before the first
    nextStage: nat,                     // stage the pending timer will run, 0 when none
    stageDelay: real,                   // delay of that timer
    shutDown: bool,
    events: seq<Event>)

  /** A missile as fired from `at`. */
  function Fired(at: Pos, detonated: bool): Missile {
    Missile(at, InitialHealth, false, detonated, None, false, false, at, 0, 0, 0.0, false, [])
  }

  function RedeemerDenied(m: Missile, instigatedBy: Option<ControllerId>): Missile {
    m.(events := m.events + [Denied(instigatedBy)])
  }

  /** Radial damage of one stage, scaled by `rangeMultiplier`. */
  function ExplodeStage(m: Missile, cfg: RedeemerConfig, rangeMultiplier: real): Missile {
    if cfg.hurts then m.(events := m.events + [Blast(rangeMultiplier)]) else m
  }

  /** Stage k (1..6): damage at radius k, then either arm the timer for
      stage k + 1 or shut the missile down. */
  function RunStage(m: Missile, cfg: RedeemerConfig, k: nat): Missile
    requires 1 <= k <= StageCount
  {
    var m1 := ExplodeStage(m, cfg, ExplosionRadii[k - 1]).(stage := k);
    if k < StageCount then m1.(nextStage := k + 1, stageDelay := ExplosionTimings[k - 1])
    else m1.(nextStage := 0, shutDown := true)
  }

  /** The engine fires the pending stage timer, if there is one. */
  function StageTimer(m: Missile, cfg: RedeemerConfig): Missile {
    if 2 <= m.nextStage <= StageCount then RunStage(m.(nextStage := 0), cfg, m.nextStage) else m
  }

  function Explode(m: Missile, cfg: RedeemerConfig, hitLocation: Pos, hitNormal: Pos): Missile
    decreases if m.exploded then 0 else 2
  {
    if m.exploded then m
    else
      var m1 := m.(exploded := true);
      if m1.detonated then Detonate(m1, cfg)
      else
        var m2 := if cfg.authority && m1.impactedBy.Some? then RedeemerDenied(m1, m1.impactedBy) else m1;
        var m3 := m2.(hidden := true, tornOff := m2.tornOff || cfg.authority);
        var m4 := if cfg.hasExplosionEffects then m3.(events := m3.events + [ExplosionEffect(hitLocation)]) else m3;
        if cfg.authority then RunStage(m4.(explodeHitLocation := Add(hitLocation, hitNormal)), cfg, 1) else m4
  }

  /** Detonating is exploding where the missile is, facing up. */
  function Detonate(m: Missile, cfg: RedeemerConfig): Missile
    decreases if m.exploded then 1 else 3
  {
    Explode(m, cfg, m.location, Up)
  }

  /** A hit whose damage is applied here, and the detonation it may cause. */
  function ApplyDamage(m: Missile, cfg: RedeemerConfig, newHealth: int, instigatedBy: Option<ControllerId>): Missile {
    var m1 := m.(projHealth := newHealth);
    if newHealth <= 0 then RedeemerDenied(Detonate(m1, cfg), instigatedBy) else m1
  }

  /** The missile takes `damage` from `instigator`; returns the new state and
      the damage reported back. */
  function TakeDamage(m: Missile, cfg: RedeemerConfig, damage: real, instigator: Option<ControllerId>,
                      sameTeam: bool, clientSideHits: bool): (Missile, real)
  {
    if sameTeam then (m, 0.0)
    else if cfg.authority && !clientSideHits then
      (ApplyDamage(m, cfg, TruncToInt(m.projHealth as real - damage), instigator), damage)
    else if !cfg.authority && clientSideHits then
      (m.(events := m.events + [ServerHit(damage)]), damage)
    else (m, damage)
  }

  /** The server hears of a hit a client predicted. */
  function NotifyClientSideHit(m: Missile, cfg: RedeemerConfig, damage: int, instigatedBy: Option<ControllerId>,
                               sameTeam: bool): Missile
  {
    if sameTeam then m else ApplyDamage(m, cfg, m.projHealth - damage, instigatedBy)
  }
}
