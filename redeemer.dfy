/** AUTProj_Redeemer as an object whose methods update its fields in place.
    Each method is proved to leave the missile in the state the matching
    RedeemerSpec function computes, so RedeemerProperties applies to it. */
module RedeemerProjectile {
  import opened Base
  import opened RedeemerSpec

  class Redeemer {
    const config: RedeemerConfig

    var location: Pos
    var projHealth: int
    var exploded: bool
    var detonated: bool
    var impactedBy: Option<ControllerId>
    var hidden: bool
    var tornOff: bool
    var explodeHitLocation: Pos
    var stage: nat
    var nextStage: nat
    var stageDelay: real
    var shutDown: bool
    var events: seq<Event>

    /** The missile's whole state as a value. */
    function Snapshot(): Missile
      reads this
    {
      Missile(location, projHealth, exploded, detonated, impactedBy, hidden, tornOff,
              explodeHitLocation, stage, nextStage, stageDelay, shutDown, events)
    }

    constructor (config: RedeemerConfig, at: Pos, detonated: bool)
      ensures this.config == config && Snapshot() == Fired(at, detonated)
    {
      this.config := config;
      location := at;
      projHealth := InitialHealth;
      exploded := false;
      this.detonated := detonated;
      impactedBy := None;
      hidden := false;
      tornOff := false;
      explodeHitLocation := at;
      stage := 0;
      nextStage := 0;
      stageDelay := 0.0;
      shutDown := false;
      events := [];
    }

    /** A call on the rest of the game, recorded in order. */
    method Notify(e: Event)
      modifies this
      ensures Snapshot() == old(Snapshot()).(events := old(events) + [e])
    {
      events := events + [e];
    }

    method RedeemerDenied(instigatedBy: Option<ControllerId>)
      modifies this
      ensures Snapshot() == RedeemerSpec.RedeemerDenied(old(Snapshot()), instigatedBy)
    {
      Notify(Denied(instigatedBy));
    }

    method ExplodeStage(rangeMultiplier: real)
      modifies this
      ensures Snapshot() == RedeemerSpec.ExplodeStage(old(Snapshot()), config, rangeMultiplier)
    {
      if config.hurts {
        Notify(Blast(rangeMultiplier));
      }
    }

    /** Arms the timer that runs stage `k` after `delay`. */
    method SetStageTimer(k: nat, delay: real)
      modifies this
      ensures Snapshot() == old(Snapshot()).(nextStage := k, stageDelay := delay)
    {
      nextStage := k;
      stageDelay := delay;
    }

    method ShutDown()
      modifies this
      ensures Snapshot() == old(Snapshot()).(nextStage := 0, shutDown := true)
    {
      nextStage := 0;
      shutDown := true;
    }

    /** ExplodeStage1 .. ExplodeStage6. */
    method RunStage(k: nat)
      requires 1 <= k <= StageCount
      modifies this
      ensures Snapshot() == RedeemerSpec.RunStage(old(Snapshot()), config, k)
    {
      ExplodeStage(ExplosionRadii[k - 1]);
      stage := k;
      if k < StageCount {
        SetStageTimer(k + 1, ExplosionTimings[k - 1]);
      } else {
        ShutDown();
      }
    }

    /** The engine fires the pending stage timer. */
    method StageTimer()
      modifies this
      ensures Snapshot() == RedeemerSpec.StageTimer(old(Snapshot()), config)
    {
      if 2 <= nextStage <= StageCount {
        var k := nextStage;
        nextStage := 0;
        RunStage(k);
      }
    }

    /** Collision off, movement stopped, every component hidden; torn off on the server. */
    method Hide()
      modifies this
      ensures Snapshot() == old(Snapshot()).(hidden := true, tornOff := old(tornOff) || config.authority)
    {
      hidden := true;
      tornOff := tornOff || config.authority;
    }

    method Explode(hitLocation: Pos, hitNormal: Pos)
      modifies this
      ensures Snapshot() == RedeemerSpec.Explode(old(Snapshot()), config, hitLocation, hitNormal)
      decreases if exploded then 0 else 2
    {
      if !exploded {
        exploded := true;
        if detonated {
          Detonate();
          return;
        }
        if config.authority && impactedBy.Some? {
          RedeemerDenied(impactedBy);
        }
        Hide();
        if config.hasExplosionEffects {
          Notify(ExplosionEffect(hitLocation));
        }
        if config.authority {
          explodeHitLocation := Add(hitLocation, hitNormal);
          RunStage(1);
        }
      }
    }

    method Detonate()
      modifies this
      ensures Snapshot() == RedeemerSpec.Detonate(old(Snapshot()), config)
      decreases if exploded then 1 else 3
    {
      Explode(location, Up);
    }

    /** Health becomes `newHealth`; at zero or below the missile detonates and
        the denial is announced. */
    method ApplyDamage(newHealth: int, instigatedBy: Option<ControllerId>)
      modifies this
      ensures Snapshot() == RedeemerSpec.ApplyDamage(old(Snapshot()), config, newHealth, instigatedBy)
    {
      projHealth := newHealth;
      if newHealth <= 0 {
        Detonate();
        RedeemerDenied(instigatedBy);
      }
    }

    method TakeDamage(damage: real, instigator: Option<ControllerId>, sameTeam: bool, clientSideHits: bool)
      returns (taken: real)
      modifies this
      ensures (Snapshot(), taken)
           == RedeemerSpec.TakeDamage(old(Snapshot()), config, damage, instigator, sameTeam, clientSideHits)
    {
      if sameTeam {
        return 0.0;
      }
      if config.authority && !clientSideHits {
        ApplyDamage(TruncToInt(projHealth as real - damage), instigator);
      } else if !config.authority && clientSideHits {
        Notify(ServerHit(damage));
      }
      taken := damage;
    }

    method NotifyClientSideHit(damage: int, instigatedBy: Option<ControllerId>, sameTeam: bool)
      modifies this
      ensures Snapshot() == RedeemerSpec.NotifyClientSideHit(old(Snapshot()), config, damage, instigatedBy, sameTeam)
    {
      if !sameTeam {
        ApplyDamage(projHealth - damage, instigatedBy);
      }
    }
  }
}
