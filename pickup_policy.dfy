/** Who may pick up a carried object: the decision tree of
    AUTCarriedObject::CanBePickedUpBy, as a verdict that also says which side
    effect the source performs (a later re-check, a "sent home" score, a
    refusal message). */
module PickupPolicy {
  import opened Base

  /** The match as the game state reports it. */
  datatype MatchPhase = MatchPhase(inProgress: bool, intermission: bool)

  /** The object's configured pickup options. */
  datatype PickupRules = PickupRules(
    anyoneCanPickup: bool,
    friendlyCanPickup: bool,
    teamPickupSendsHome: bool,
    enemyPickupSendsHome: bool,
    enemyCanPickup: bool)

  datatype Verdict =
    | NotInPlay         // match not in progress, or in an intermission
    | Ragdolled         // toucher is a ragdoll: deny, check again shortly
    | AnyoneAllowed
    | FriendlyAllowed
    | TeamSendsHome     // same team, touching sends a dropped object home
    | FriendlyRefused   // same team, no pickup: refusal message
    | EnemySendsHome    // other team, touching sends a dropped object home
    | EnemyRefused      // other team, no pickup: refusal message
    | EnemyAllowed

  predicate Allows(v: Verdict) {
    v == AnyoneAllowed || v == FriendlyAllowed || v == EnemyAllowed
  }

  /** The match lets objects be picked up; a missing game state does not block. */
  predicate InPlay(phase: Option<MatchPhase>) {
    phase.None? || (phase.value.inProgress && !phase.value.intermission)
  }

  /** The decision tree, in the source's order. Teams are compared by number,
      so two team-less parties (both 255) count as the same team. */
  function Decide(rules: PickupRules, phase: Option<MatchPhase>, objectTeam: nat, toucherTeam: nat, ragdoll: bool): Verdict {
    if !InPlay(phase) then NotInPlay
    else if ragdoll then Ragdolled
    else if rules.anyoneCanPickup then AnyoneAllowed
    else if objectTeam == toucherTeam then
      if rules.friendlyCanPickup then FriendlyAllowed
      else if rules.teamPickupSendsHome then TeamSendsHome
      else FriendlyRefused
    else if rules.enemyPickupSendsHome then EnemySendsHome
    else if !rules.enemyCanPickup then EnemyRefused
    else EnemyAllowed
  }

  /** The match phase is checked before every other rule. */
  lemma PhaseComesFirst(rules: PickupRules, phase: Option<MatchPhase>, objectTeam: nat, toucherTeam: nat, ragdoll: bool)
    requires phase.Some? && (!phase.value.inProgress || phase.value.intermission)
    ensures Decide(rules, phase, objectTeam, toucherTeam, ragdoll) == NotInPlay
  {
  }

  /** Exactly when a pickup is allowed, both directions. */
  lemma AllowedExactly(rules: PickupRules, phase: Option<MatchPhase>, objectTeam: nat, toucherTeam: nat, ragdoll: bool)
    ensures Allows(Decide(rules, phase, objectTeam, toucherTeam, ragdoll)) <==>
      && InPlay(phase) && !ragdoll
      && (|| rules.anyoneCanPickup
          || (objectTeam == toucherTeam && rules.friendlyCanPickup)
          || (objectTeam != toucherTeam && !rules.enemyPickupSendsHome && rules.enemyCanPickup))
  {
  }

  /** A toucher whose send-home option applies is always denied. */
  lemma SendsHomeDenies(rules: PickupRules, phase: Option<MatchPhase>, objectTeam: nat, toucherTeam: nat, ragdoll: bool)
    requires InPlay(phase) && !ragdoll && !rules.anyoneCanPickup
    requires (objectTeam == toucherTeam && !rules.friendlyCanPickup && rules.teamPickupSendsHome)
          || (objectTeam != toucherTeam && rules.enemyPickupSendsHome)
    ensures var v := Decide(rules, phase, objectTeam, toucherTeam, ragdoll);
      !Allows(v) && (v == TeamSendsHome || v == EnemySendsHome)
  {
  }

  /** With no send-home option, an enemy's pickup is allowed exactly when
      enemies may pick up. */
  lemma EnemyFollowsEnemyCanPickup(rules: PickupRules, phase: Option<MatchPhase>, objectTeam: nat, toucherTeam: nat)
    requires InPlay(phase) && !rules.anyoneCanPickup && !rules.enemyPickupSendsHome
    requires objectTeam != toucherTeam
    ensures Allows(Decide(rules, phase, objectTeam, toucherTeam, false)) == rules.enemyCanPickup
  {
  }
}
