/** What the redeemer missile promises: friendly hits do nothing, hostile hits
    on the server cost exactly their damage and detonate at zero, clients
    forward their hits, the explosion happens once, and it runs six stages
    over growing radii before the missile shuts down. */
module RedeemerProperties {
  import opened Base
  import opened RedeemerSpec

  // ---------------------------------------------------------------- constants

  /** Each stage reaches further than the one before, the last one reaching
      the full radius, and every stage waits a positive time for the next. */
  lemma StageTablesShape()
    ensures |ExplosionRadii| == StageCount && |ExplosionTimings| == StageCount - 1
    ensures forall i, j :: 0 <= i < j < StageCount ==> ExplosionRadii[i] < ExplosionRadii[j]
    ensures ExplosionRadii[StageCount - 1] == 1.0
    ensures forall i :: 0 <= i < StageCount - 1 ==> ExplosionTimings[i] > 0.0
  {
  }

  /** Truncation toward zero moves a value less than one, toward zero, and
      leaves whole numbers alone. */
  lemma TruncToIntBounds(x: real)
    ensures x >= 0.0 ==> 0 <= TruncToInt(x) && TruncToInt(x) as real <= x < TruncToInt(x) as real + 1.0
    ensures x < 0.0 ==> TruncToInt(x) <= 0 && TruncToInt(x) as real - 1.0 < x <= TruncToInt(x) as real
    ensures x == x.Floor as real ==> TruncToInt(x) == x.Floor
  {
  }

  // ---------------------------------------------------------------- explosion

  /** The explosion never touches health or position, always leaves the
      missile exploded, and only adds events. */
  lemma {:induction false} ExplodeOutcome(m: Missile, cfg: RedeemerConfig, hitLocation: Pos, hitNormal: Pos)
    ensures var g := Explode(m, cfg, hitLocation, hitNormal);
      && g.exploded && g.projHealth == m.projHealth && g.location == m.location
      && g.detonated == m.detonated && g.impactedBy == m.impactedBy
      && |g.events| >= |m.events| && g.events[..|m.events|] == m.events
    decreases if m.exploded then 0 else 2
  {
    if !m.exploded && m.detonated {
      ExplodeOutcome(m.(exploded := true), cfg, m.location, Up);
    }
  }

  /** Once exploded, every further explosion or detonation is a no-op. */
  lemma ExplodeOnce(m: Missile, cfg: RedeemerConfig, hitLocation: Pos, hitNormal: Pos)
    requires m.exploded
    ensures Explode(m, cfg, hitLocation, hitNormal) == m
    ensures Detonate(m, cfg) == m
  {
  }

  /** Hence exploding twice is exploding once, wherever the second hit is. */
  lemma ExplodeIdempotent(m: Missile, cfg: RedeemerConfig, at: Pos, normal: Pos, at2: Pos, normal2: Pos)
    ensures Explode(Explode(m, cfg, at, normal), cfg, at2, normal2) == Explode(m, cfg, at, normal)
  {
    ExplodeOutcome(m, cfg, at, normal);
  }

  /** A missile whose detonated flag is already set explodes into nothing:
      the inner detonation finds it exploded, so no effect, no hiding and no
      stage runs. */
  lemma ExplodeWhenDetonated(m: Missile, cfg: RedeemerConfig, hitLocation: Pos, hitNormal: Pos)
    requires !m.exploded && m.detonated
    ensures Explode(m, cfg, hitLocation, hitNormal) == m.(exploded := true)
  {
    ExplodeOnce(m.(exploded := true), cfg, m.location, Up);
  }

  /** On the server a plain explosion hides the missile, records where it
      happened and runs stage 1 at once, arming the timer for stage 2. */
  lemma ExplodeStartsStages(m: Missile, cfg: RedeemerConfig, hitLocation: Pos, hitNormal: Pos)
    requires cfg.authority && !m.exploded && !m.detonated
    ensures var g := Explode(m, cfg, hitLocation, hitNormal);
      && g.hidden && g.tornOff && g.shutDown == m.shutDown
      && g.explodeHitLocation == Add(hitLocation, hitNormal)
      && g.stage == 1 && g.nextStage == 2 && g.stageDelay == ExplosionTimings[0]
      && g.events == m.events
           + (if m.impactedBy.Some? then [Denied(m.impactedBy)] else [])
           + (if cfg.hasExplosionEffects then [ExplosionEffect(hitLocation)] else [])
           + (if cfg.hurts then [Blast(ExplosionRadii[0])] else [])
  {
    var m1 := m.(exploded := true);
    var m2 := if m1.impactedBy.Some? then RedeemerDenied(m1, m1.impactedBy) else m1;
    assert m2.events == m.events + (if m.impactedBy.Some? then [Denied(m.impactedBy)] else []);
  }

  /** Off the server the explosion only hides the missile and shows the
      effect: no denial, no stage. */
  lemma ExplodeOnClient(m: Missile, cfg: RedeemerConfig, hitLocation: Pos, hitNormal: Pos)
    requires !cfg.authority && !m.exploded && !m.detonated
    ensures Explode(m, cfg, hitLocation, hitNormal)
         == m.(exploded := true, hidden := true,
               events := m.events + (if cfg.hasExplosionEffects then [ExplosionEffect(hitLocation)] else []))
  {
  }

  // ---------------------------------------------------------------- stages

  /** The engine firing the stage timer k times in a row. */
  function StageTimerTimes(m: Missile, cfg: RedeemerConfig, k: nat): Missile
    decreases k
  {
    if k == 0 then m else StageTimer(StageTimerTimes(m, cfg, k - 1), cfg)
  }

  /** The blasts of the given stages, in order (none when the missile does no damage). */
  function Blasts(cfg: RedeemerConfig, radii: seq<real>): seq<Event>
    decreases |radii|
  {
    if !cfg.hurts || |radii| == 0 then []
    else Blasts(cfg, radii[..|radii| - 1]) + [Blast(radii[|radii| - 1])]
  }

  /** `g` is `e` after stages 2..k have run on top of stage 1, and nothing else. */
  ghost predicate StagesDone(e: Missile, cfg: RedeemerConfig, g: Missile, k: nat)
    requires 1 <= k <= StageCount
  {
    g == e.(stage := k,
            nextStage := if k < StageCount then k + 1 else 0,
            stageDelay := ExplosionTimings[if k < StageCount then k - 1 else StageCount - 2],
            shutDown := k == StageCount,
            events := e.events + Blasts(cfg, ExplosionRadii[1..k]))
  }

  /** One more stage adds its blast at the end. */
  lemma BlastsNext(cfg: RedeemerConfig, k: nat)
    requires 1 <= k < StageCount
    ensures Blasts(cfg, ExplosionRadii[1..k + 1])
         == Blasts(cfg, ExplosionRadii[1..k]) + (if cfg.hurts then [Blast(ExplosionRadii[k])] else [])
  {
    assert ExplosionRadii[1..k + 1][..k - 1] == ExplosionRadii[1..k];
  }

  /** One timer firing takes the explosion from stage k to stage k + 1. */
  lemma StagesDoneStep(e: Missile, cfg: RedeemerConfig, g: Missile, k: nat)
    requires 1 <= k < StageCount && StagesDone(e, cfg, g, k)
    ensures StagesDone(e, cfg, StageTimer(g, cfg), k + 1)
  {
    BlastsNext(cfg, k);
    var h := RunStage(g.(nextStage := 0), cfg, k + 1);
    assert StageTimer(g, cfg) == h;
    assert h.events == g.events + (if cfg.hurts then [Blast(ExplosionRadii[k])] else []);
  }

  /** After stage 1, k - 1 firings of the timer have run exactly stages 2..k. */
  lemma {:induction false} StagesInOrder(e: Missile, cfg: RedeemerConfig, k: nat)
    requires e.stage == 1 && e.nextStage == 2 && e.stageDelay == ExplosionTimings[0] && !e.shutDown
    requires 1 <= k <= StageCount
    ensures StagesDone(e, cfg, StageTimerTimes(e, cfg, k - 1), k)
    decreases k
  {
    if k > 1 {
      StagesInOrder(e, cfg, k - 1);
      StagesDoneStep(e, cfg, StageTimerTimes(e, cfg, k - 2), k - 1);
    } else {
      assert ExplosionRadii[1..1] == [];
    }
  }

  /** The whole explosion on the server: after the explosion and five timer
      firings all six stages have run, in order, with the six radii, the
      missile is shut down and no timer is left; it was not shut down before. */
  lemma ExplosionRunsSixStages(m: Missile, cfg: RedeemerConfig, hitLocation: Pos, hitNormal: Pos)
    requires cfg.authority && !m.exploded && !m.detonated && !m.shutDown
    ensures var e := Explode(m, cfg, hitLocation, hitNormal);
      && (forall k :: 0 <= k < StageCount - 1 ==> !StageTimerTimes(e, cfg, k).shutDown)
      && var g := StageTimerTimes(e, cfg, StageCount - 1);
      && g.stage == StageCount && g.shutDown && g.nextStage == 0
      && g.events == e.events + Blasts(cfg, ExplosionRadii[1..])
      && StageTimer(g, cfg) == g
  {
    var e := Explode(m, cfg, hitLocation, hitNormal);
    ExplodeStartsStages(m, cfg, hitLocation, hitNormal);
    forall k | 0 <= k < StageCount - 1
      ensures !StageTimerTimes(e, cfg, k).shutDown
    {
      StagesInOrder(e, cfg, k + 1);
    }
    StagesInOrder(e, cfg, StageCount);
    assert ExplosionRadii[1..StageCount] == ExplosionRadii[1..];
  }

  // ---------------------------------------------------------------- damage

  /** Applying a hit sets health and detonates exactly when health is gone,
      with one denial message per such hit. */
  lemma ApplyDamageOutcome(m: Missile, cfg: RedeemerConfig, newHealth: int, instigatedBy: Option<ControllerId>)
    ensures var g := ApplyDamage(m, cfg, newHealth, instigatedBy);
      && g.projHealth == newHealth
      && g.exploded == (m.exploded || newHealth <= 0)
      && (newHealth > 0 ==> g == m.(projHealth := newHealth))
      && (newHealth <= 0 ==>
            && |g.events| > |m.events| && g.events[..|m.events|] == m.events
            && g.events[|g.events| - 1] == Denied(instigatedBy))
  {
    var m1 := m.(projHealth := newHealth);
    ExplodeOutcome(m1, cfg, m1.location, Up);
  }

  /** A hit from a team-mate is ignored and reported as no damage. */
  lemma TakeDamageFriendly(m: Missile, cfg: RedeemerConfig, damage: real, instigator: Option<ControllerId>, clientSideHits: bool)
    ensures TakeDamage(m, cfg, damage, instigator, true, clientSideHits) == (m, 0.0)
  {
  }

  /** On the server, without client-side hits, a hostile hit takes its damage
      off the health (truncated toward zero), exactly so for whole damage,
      detonates when health reaches zero, and reports the damage taken. */
  lemma TakeDamageOnServer(m: Missile, cfg: RedeemerConfig, damage: real, instigator: Option<ControllerId>)
    requires cfg.authority
    ensures var r := TakeDamage(m, cfg, damage, instigator, false, false);
      && r.1 == damage
      && r.0.projHealth == TruncToInt(m.projHealth as real - damage)
      && (damage == damage.Floor as real ==> r.0.projHealth == m.projHealth - damage.Floor)
      && r.0.exploded == (m.exploded || r.0.projHealth <= 0)
  {
    var h := TruncToInt(m.projHealth as real - damage);
    ApplyDamageOutcome(m, cfg, h, instigator);
  }

  /** A client using client-side hits changes nothing locally and forwards
      the hit to the server; every other combination of role and prediction
      ignores the hit, reporting its damage all the same. */
  lemma TakeDamageElsewhere(m: Missile, cfg: RedeemerConfig, damage: real, instigator: Option<ControllerId>, clientSideHits: bool)
    requires !(cfg.authority && !clientSideHits)
    ensures var r := TakeDamage(m, cfg, damage, instigator, false, clientSideHits);
      && r.1 == damage && r.0.projHealth == m.projHealth && r.0.exploded == m.exploded
      && r.0 == (if !cfg.authority && clientSideHits then m.(events := m.events + [ServerHit(damage)]) else m)
  {
  }

  /** A hit a client predicted is applied on the server without any role
      check: health drops by exactly the damage and the missile detonates at zero. */
  lemma NotifyClientSideHitOutcome(m: Missile, cfg: RedeemerConfig, damage: int, instigatedBy: Option<ControllerId>, sameTeam: bool)
    ensures var g := NotifyClientSideHit(m, cfg, damage, instigatedBy, sameTeam);
      && (sameTeam ==> g == m)
      && (!sameTeam ==> g.projHealth == m.projHealth - damage
                        && g.exploded == (m.exploded || m.projHealth - damage <= 0))
  {
    if !sameTeam {
      ApplyDamageOutcome(m, cfg, m.projHealth - damage, instigatedBy);
    }
  }
}
