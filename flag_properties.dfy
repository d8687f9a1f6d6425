/** What the carried object's operations guarantee, proved about the
    functions of FlagSpec. */
module FlagProperties {
  import opened Base
  import opened AssistLedger
  import opened ReturnTrail
  import opened PickupPolicy
  import opened FlagSpec

  predicate SendsHomeVerdict(v: Verdict) {
    v == TeamSendsHome || v == EnemySendsHome
  }

  // ---------------------------------------------------------------- pickup

  /** Nothing happens unless the authority is asked on behalf of a possessed
      character while the object is not held. */
  lemma TryPickupGate(f: Flag, cfg: FlagConfig, c: Character, phase: Option<MatchPhase>, now: real)
    requires !(cfg.authority && c.hasController && f.state != Held)
    ensures TryPickup(f, cfg, c, phase, now) == f
  {
  }

  /** Possession changes only in two ways: the toucher is allowed, consents and
      has a live player state (the object is taken), or a send-home toucher
      finds the object Dropped and scoring sends it home. Every other denial
      leaves possession exactly as it was. */
  lemma TryPickupChangesPossessionOnlyIf(f: Flag, cfg: FlagConfig, c: Character, phase: Option<MatchPhase>, now: real)
    ensures var v := Decide(cfg.rules, phase, GetTeamNum(f), c.team, c.ragdoll);
      !SamePossession(TryPickup(f, cfg, c, phase, now), f) ==>
        && cfg.authority && c.hasController && f.state != Held
        && (|| (Allows(v) && c.canPickupObject && !c.pendingKill && c.playerState.Some?)
            || (SendsHomeVerdict(v) && f.state == Dropped && cfg.sendHomeOnScore))
  {
  }

  /** An allowed, consenting, live toucher takes the object. */
  lemma TryPickupTakes(f: Flag, cfg: FlagConfig, c: Character, phase: Option<MatchPhase>, now: real)
    requires cfg.authority && c.hasController && f.state != Held
    requires Allows(Decide(cfg.rules, phase, GetTeamNum(f), c.team, c.ragdoll)) && c.canPickupObject
    ensures TryPickup(f, cfg, c, phase, now) == SetHolder(f, cfg, c, now)
  {
  }

  /** Outside play nothing may be picked up and nothing changes. */
  lemma CanBePickedUpByOutOfPlay(f: Flag, cfg: FlagConfig, c: Character, phase: Option<MatchPhase>, now: real)
    requires phase.Some? && (!phase.value.inProgress || phase.value.intermission)
    ensures CanBePickedUpBy(f, cfg, c, phase, now) == (false, f)
  {
  }

  /** Scoring and sending home only ever add events after the existing ones. */
  lemma SendHomeEventsExtend(f: Flag, cfg: FlagConfig, now: real)
    ensures |SendHome(f, cfg, now).events| >= |f.events|
    ensures SendHome(f, cfg, now).events[..|f.events|] == f.events
  {
  }

  /** A toucher whose send-home option applies is refused; the "SentHome"
      score fires only when the object is Dropped, and then the object is
      sent home (or one step towards it) when scoring does so. */
  lemma CanBePickedUpBySendsHome(f: Flag, cfg: FlagConfig, c: Character, phase: Option<MatchPhase>, now: real)
    requires InPlay(phase) && !c.ragdoll && !cfg.rules.anyoneCanPickup
    requires || (GetTeamNum(f) == c.team && !cfg.rules.friendlyCanPickup && cfg.rules.teamPickupSendsHome)
             || (GetTeamNum(f) != c.team && cfg.rules.enemyPickupSendsHome)
    ensures var r := CanBePickedUpBy(f, cfg, c, phase, now);
      && !r.0
      && (f.state != Dropped ==> r.1 == f)
      && (f.state == Dropped && cfg.authority ==>
            && |r.1.events| > |f.events| + 1
            && r.1.events[|f.events| + 1] == ScoreObject(SentHomeReason, Some(c.id), c.playerState))
      && (f.state == Dropped && cfg.authority && cfg.sendHomeOnScore ==>
            r.1.holder.None? && (r.1.state == Home || |r.1.pastPositions| < |f.pastPositions|))
  {
    if f.state == Dropped && cfg.authority {
      var f1 := f.(events := f.events + [GameMessage(0, c.playerState)]);
      var f2 := f1.(events := f1.events + [ScoreObject(SentHomeReason, Some(c.id), c.playerState)]);
      if cfg.sendHomeOnScore {
        SendHomeEventsExtend(f2, cfg, now);
        assert SendHome(f2, cfg, now).events[|f.events| + 1] == f2.events[|f.events| + 1];
      }
    }
  }

  /** With no send-home option an enemy may pick up exactly when enemies may,
      and asking changes no possession. */
  lemma CanBePickedUpByEnemy(f: Flag, cfg: FlagConfig, c: Character, phase: Option<MatchPhase>, now: real)
    requires InPlay(phase) && !c.ragdoll && !cfg.rules.anyoneCanPickup && !cfg.rules.enemyPickupSendsHome
    requires GetTeamNum(f) != c.team
    ensures CanBePickedUpBy(f, cfg, c, phase, now).0 == cfg.rules.enemyCanPickup
    ensures SamePossession(CanBePickedUpBy(f, cfg, c, phase, now).1, f)
  {
  }

  // ---------------------------------------------------------------- holder

  /** After a successful SetHolder the object is Held by the new holder, whose
      ledger entry exists exactly once, starting at 0 when it is new; earlier
      entries are untouched. */
  lemma SetHolderOutcome(f: Flag, cfg: FlagConfig, c: Character, now: real)
    requires cfg.authority && !c.pendingKill && c.playerState.Some?
    requires Distinct(f.assists)
    ensures var g := SetHolder(f, cfg, c, now);
      && g.state == Held && g.holder == c.playerState && g.holdingPawn == Some(c.id)
      && g.pickedUpTime == now && g.ghostAt.None?
      && Distinct(g.assists) && Count(g.assists, c.playerState.value) == 1
      && |g.assists| >= |f.assists| && g.assists[..|f.assists|] == f.assists
      && (FindAssist(f.assists, c.playerState) < 0 ==> LedgerTime(g.assists, c.playerState) == 0.0)
      && (0 <= FindAssist(f.assists, c.playerState) ==> g.assists == f.assists)
  {
    TrackAssistOutcome(f.assists, c.playerState.value);
  }

  /** A pickup credits no time to anybody: every player's held time is the
      same just after it as just before. */
  lemma SetHolderKeepsHeldTime(f: Flag, cfg: FlagConfig, c: Character, now: real, h: Option<PlayerId>)
    requires f.holder.None?
    ensures GetHeldTime(SetHolder(f, cfg, c, now), now, h) == GetHeldTime(f, now, h)
  {
    if !c.pendingKill && c.playerState.Some? && FindAssist(f.assists, c.playerState) < 0 {
      FindAssistAppend(f.assists, AssistEntry(c.playerState.value, 0.0), h);
    }
  }

  /** Letting go clears the holder and its pawn, remembers them as the last
      ones, and moves nothing. */
  lemma NoLongerHeldOutcome(f: Flag, now: real)
    ensures var g := NoLongerHeld(f, now);
      && g.holder.None? && g.holdingPawn.None?
      && g.lastHolder == f.holder && g.lastHoldingPawn == f.holdingPawn
      && g.state == f.state && g.pastPositions == f.pastPositions && g.location == f.location
  {
  }

  /** Letting go credits the interval since pickup to the holder's entry and
      to no other player's, and raises the ledger total by just that interval. */
  lemma NoLongerHeldCredit(f: Flag, now: real, h: Option<PlayerId>)
    ensures var found := 0 <= FindAssist(f.assists, f.holder);
      && LedgerTime(NoLongerHeld(f, now).assists, h)
           == LedgerTime(f.assists, h) + (if h == f.holder && found then now - f.pickedUpTime else 0.0)
      && Total(NoLongerHeld(f, now).assists)
           == Total(f.assists) + (if found then now - f.pickedUpTime else 0.0)
  {
    var i := FindAssist(f.assists, f.holder);
    if 0 <= i {
      TotalAddHeldTime(f.assists, i, now - f.pickedUpTime);
      LedgerTimeAddHeldTime(f.assists, f.holder, now - f.pickedUpTime, h);
    }
  }

  /** Held time is continuous across a release: the running interval moves
      into the ledger, so at the moment of release every player's held time
      is what it was. */
  lemma HeldTimeContinuousOnRelease(f: Flag, now: real, h: Option<PlayerId>)
    requires Consistent(f)
    ensures GetHeldTime(NoLongerHeld(f, now), now, h) == GetHeldTime(f, now, h)
  {
    NoLongerHeldCredit(f, now, h);
  }

  // ---------------------------------------------------------------- return home

  /** Sending home an object that is home only notes the teleport; doing it
      again changes nothing more. */
  lemma SendHomeAtHome(f: Flag, cfg: FlagConfig, now: real)
    requires f.state == Home
    ensures SendHome(f, cfg, now) == f.(lastTeleportedTime := now, lastTeleportedLoc := f.location)
    ensures SendHome(SendHome(f, cfg, now), cfg, now) == SendHome(f, cfg, now)
  {
  }

  /** The gradual branch: one step back along the trail, popping one to three
      samples from its top; the holder is cleared but the state is NOT changed. */
  lemma SendHomeGradual(f: Flag, cfg: FlagConfig, now: real)
    requires f.state != Home && cfg.gradualAutoReturn && cfg.authority
    requires GradualStep(f.location, f.pastPositions, cfg.dist, cfg.minGradualReturnDist).Some?
    ensures var g := SendHome(f, cfg, now);
      && g.state == f.state && g.holder.None? && g.holdingPawn.None?
      && |f.pastPositions| - 3 <= |g.pastPositions| < |f.pastPositions|
      && g.pastPositions == f.pastPositions[..|g.pastPositions|]
      && g.location in f.pastPositions[|g.pastPositions|..]
      && g.assists == NoLongerHeld(f, now).assists
  {
    GradualStepPops(f.location, f.pastPositions, cfg.dist, cfg.minGradualReturnDist);
  }

  /** Otherwise the object goes home: Home (when the authority changes state),
      at the base, no holder, no ghost marker, ledger and trail emptied. */
  lemma SendHomeFull(f: Flag, cfg: FlagConfig, now: real)
    requires f.state != Home
    requires !(cfg.gradualAutoReturn && cfg.authority)
          || GradualStep(f.location, f.pastPositions, cfg.dist, cfg.minGradualReturnDist).None?
    ensures var g := SendHome(f, cfg, now);
      && g.state == (if cfg.authority then Home else f.state)
      && g.holder.None? && g.ghostAt.None?
      && g.assists == [] && g.pastPositions == [] && g.location == f.homeLocation
  {
  }

  /** The gap in the object's invariant: a Consistent object that is Held, sent
      home with a usable trail, stays Held with no holder. */
  lemma SendHomeCanLeaveHeldWithoutHolder(f: Flag, cfg: FlagConfig, now: real)
    requires Consistent(f) && f.state == Held
    requires cfg.gradualAutoReturn && cfg.authority
    requires |f.pastPositions| > 0 && cfg.dist(f.location, Top(f.pastPositions)) >= cfg.minGradualReturnDist
    ensures SendHome(f, cfg, now).state == Held && SendHome(f, cfg, now).holder.None?
  {
    SendHomeGradual(f, cfg, now);
  }

  /** Calls SendHome k times at the same moment. */
  function SendHomeTimes(f: Flag, cfg: FlagConfig, now: real, k: nat): Flag
    decreases k
  {
    if k == 0 then f else SendHome(SendHomeTimes(f, cfg, now, k - 1), cfg, now)
  }

  /** One call of SendHome on a Dropped object whose trail is spread out
      takes exactly one sample: the object moves onto it and the marker onto
      the one before it. */
  lemma SendHomeSpreadStep(f: Flag, cfg: FlagConfig, now: real)
    requires cfg.gradualAutoReturn && cfg.authority && f.state == Dropped
    requires Spread(f.location, f.pastPositions, cfg.dist, cfg.minGradualReturnDist)
    requires |f.pastPositions| > 0
    ensures var g := SendHome(f, cfg, now);
      && g.state == Dropped && g.holder.None?
      && g.pastPositions == Pop(f.pastPositions) && g.location == Top(f.pastPositions)
      && g.ghostAt == (if |f.pastPositions| > 1 then Some(Top(Pop(f.pastPositions))) else None)
      && Spread(g.location, g.pastPositions, cfg.dist, cfg.minGradualReturnDist)
  {
    SpreadStep(f.location, f.pastPositions, cfg.dist, cfg.minGradualReturnDist);
    var f1 := NoLongerHeld(f.(lastTeleportedTime := now, lastTeleportedLoc := f.location), now);
    assert f1.location == f.location && f1.pastPositions == f.pastPositions;
  }

  /** What k gradual-return calls leave behind. */
  ghost predicate SteppedBack(f: Flag, cfg: FlagConfig, g: Flag, k: nat)
    requires k <= |f.pastPositions|
  {
    var n := |f.pastPositions|;
    && g.state == Dropped
    && g.pastPositions == f.pastPositions[..n - k]
    && Spread(g.location, g.pastPositions, cfg.dist, cfg.minGradualReturnDist)
    && (k > 0 ==> g.holder.None? && g.location == f.pastPositions[n - k]
                  && g.ghostAt == (if k < n then Some(f.pastPositions[n - k - 1]) else None))
  }

  /** One more call moves from k to k + 1 samples taken. */
  lemma SteppedBackStep(f: Flag, cfg: FlagConfig, now: real, g: Flag, k: nat)
    requires cfg.gradualAutoReturn && cfg.authority
    requires k < |f.pastPositions| && SteppedBack(f, cfg, g, k)
    ensures SteppedBack(f, cfg, SendHome(g, cfg, now), k + 1)
  {
    PopPrefix(f.pastPositions, |f.pastPositions| - k);
    SendHomeSpreadStep(g, cfg, now);
  }

  /** Gradual return along a spread trail of N samples: after k <= N calls the
      object is still Dropped, k samples are used up, it stands on the k-th
      newest sample and the ghost marker on the next one. */
  lemma {:induction false} GradualReturnSteps(f: Flag, cfg: FlagConfig, now: real, k: nat)
    requires cfg.gradualAutoReturn && cfg.authority && f.state == Dropped
    requires Spread(f.location, f.pastPositions, cfg.dist, cfg.minGradualReturnDist)
    requires k <= |f.pastPositions|
    ensures SteppedBack(f, cfg, SendHomeTimes(f, cfg, now, k), k)
    decreases k
  {
    if k > 0 {
      GradualReturnSteps(f, cfg, now, k - 1);
      SteppedBackStep(f, cfg, now, SendHomeTimes(f, cfg, now, k - 1), k - 1);
    } else {
      assert f.pastPositions[..|f.pastPositions|] == f.pastPositions;
    }
  }

  /** ... and call N + 1 brings it home, with ledger and trail emptied. */
  lemma GradualReturnReachesHome(f: Flag, cfg: FlagConfig, now: real)
    requires cfg.gradualAutoReturn && cfg.authority && f.state == Dropped
    requires Spread(f.location, f.pastPositions, cfg.dist, cfg.minGradualReturnDist)
    ensures var g := SendHomeTimes(f, cfg, now, |f.pastPositions| + 1);
      && g.state == Home && g.holder.None? && g.assists == [] && g.pastPositions == []
      && g.location == f.homeLocation
  {
    var n := |f.pastPositions|;
    GradualReturnSteps(f, cfg, now, n);
    SendHomeTimesKeepsBase(f, cfg, now, n);
  }

  /** Sending home never moves the base. */
  lemma {:induction false} SendHomeTimesKeepsBase(f: Flag, cfg: FlagConfig, now: real, k: nat)
    ensures SendHomeTimes(f, cfg, now, k).homeLocation == f.homeLocation
    decreases k
  {
    if k > 0 {
      SendHomeTimesKeepsBase(f, cfg, now, k - 1);
    }
  }


  // ---------------------------------------------------------------- drop

  /** Tossing an object that is not yet Dropped only moves it (to `tossTo`
      when there was a pawn to throw it): no touch is checked. */
  lemma TossOnlyMoves(f: Flag, cfg: FlagConfig, tossTo: Pos, touching: seq<Character>, phase: Option<MatchPhase>, now: real)
    requires f.state != Dropped
    ensures var g := TossObject(f, cfg, tossTo, touching, phase, now);
      && g.(location := f.location) == f
      && (f.lastHoldingPawn.Some? ==> g.location == tossTo)
  {
  }

  /** Tossing an object that already lies Dropped offers it at once to the
      characters touching it: an allowed one in clear sight takes it. */
  lemma TossPicksUp(f: Flag, cfg: FlagConfig, tossTo: Pos, c: Character, phase: Option<MatchPhase>, now: real)
    requires cfg.authority && f.state == Dropped && f.initialized
    requires Some(c.id) != f.lastHoldingPawn && !c.lineOfSightBlocked
    requires c.hasController && c.canPickupObject && !c.pendingKill && c.playerState.Some?
    requires Allows(Decide(cfg.rules, phase, GetTeamNum(f), c.team, c.ragdoll))
    ensures var g := TossObject(f, cfg, tossTo, [c], phase, now);
      g.state == Held && g.holder == c.playerState && g.holdingPawn == Some(c.id)
  {
    var f1 := if f.lastHoldingPawn.Some? then f.(location := tossTo) else f;
    assert GetTeamNum(f1) == GetTeamNum(f);
    assert CanBePickedUpBy(f1, cfg, c, phase, now) == (true, f1);
    var g := SetHolder(f1, cfg, c, now);
    assert TryPickup(f1, cfg, c, phase, now) == g;
    assert OnOverlapBegin(f1, cfg, c, phase, now) == g;
    assert g.state == Held;
    assert Touch(f1, cfg, [c], Dropped, phase, now) == g;
  }

  /** A drop of an object that was not yet Dropped (the object is tossed
      while still in its old state) schedules no touch re-check ... */
  lemma DropRunsNoRecheck(f: Flag, cfg: FlagConfig, now: real, tossTo: Pos, touching: seq<Character>, phase: Option<MatchPhase>)
    requires f.state != Dropped
    ensures Drop(f, cfg, now, tossTo, touching, phase).recheckPending == f.recheckPending
  {
    var f0 := NoLongerHeld(f.(events := f.events + [GameMessage(3, f.holder)]), now);
    TossOnlyMoves(f0, cfg, tossTo, touching, phase, now);
  }

  /** ... and offers the object to nobody: the touching characters play no
      part in it. */
  lemma DropIgnoresTouching(f: Flag, cfg: FlagConfig, now: real, tossTo: Pos, touching: seq<Character>, phase: Option<MatchPhase>)
    requires f.state != Dropped
    ensures Drop(f, cfg, now, tossTo, touching, phase) == Drop(f, cfg, now, tossTo, [], phase)
  {
  }

  /** A drop by the authority of an object that was not yet Dropped ends
      Dropped with no holder; with gradual return it takes one or two samples
      from the top of the trail, and the ghost marker goes at the last one
      taken exactly when that sample was not pruned as too near; otherwise
      the trail and the marker are untouched. */
  lemma DropOutcome(f: Flag, cfg: FlagConfig, now: real, tossTo: Pos, touching: seq<Character>, phase: Option<MatchPhase>)
    requires cfg.authority && f.state != Dropped
    ensures var g := Drop(f, cfg, now, tossTo, touching, phase);
      && g.state == Dropped && g.holder.None? && g.holdingPawn.None?
      && g.lastHolder == f.holder && g.lastHoldingPawn == f.holdingPawn
      && (!(cfg.gradualAutoReturn && |f.pastPositions| > 0) ==> g.pastPositions == f.pastPositions && g.ghostAt == f.ghostAt)
      && (cfg.gradualAutoReturn && |f.pastPositions| > 0 ==>
            && |f.pastPositions| - 2 <= |g.pastPositions| < |f.pastPositions|
            && g.pastPositions == f.pastPositions[..|g.pastPositions|]
            && var placed := |f.pastPositions| > 1 || cfg.dist(g.location, Top(f.pastPositions)) >= cfg.minGradualReturnDist;
               && (placed ==> g.ghostAt == Some(f.pastPositions[|g.pastPositions|]))
               && (!placed ==> g.ghostAt == f.ghostAt))
  {
    var f1 := TossObject(NoLongerHeld(f.(events := f.events + [GameMessage(3, f.holder)]), now), cfg, tossTo, touching, phase, now);
    var f2 := ChangeState(f1.(events := f1.events + [WasDropped(f1.lastHoldingPawn)]), cfg, Dropped);
    assert f2.pastPositions == f.pastPositions && f2.ghostAt == f.ghostAt && f2.state == Dropped;
    assert f2.holder.None? && f2.holdingPawn.None? && f2.lastHolder == f.holder && f2.lastHoldingPawn == f.holdingPawn;
    if cfg.gradualAutoReturn && |f.pastPositions| > 0 {
      DropTrailPops(f2.location, f.pastPositions, cfg.dist, cfg.minGradualReturnDist);
    }
  }

  /** A drop credits the holder with the time held: the holder's ledger
      entry grows by now - PickedUpTime and no other entry changes, so every
      player's held time is the same just before and just after the drop. */
  lemma DropCredits(f: Flag, cfg: FlagConfig, now: real, tossTo: Pos, touching: seq<Character>,
                    phase: Option<MatchPhase>, h: Option<PlayerId>)
    requires Consistent(f) && f.state != Dropped
    ensures var g := Drop(f, cfg, now, tossTo, touching, phase);
      && g.assists == NoLongerHeld(f, now).assists
      && LedgerTime(g.assists, h)
           == LedgerTime(f.assists, h) + (if f.holder.Some? && h == f.holder then now - f.pickedUpTime else 0.0)
      && GetHeldTime(g, now, h) == GetHeldTime(f, now, h)
  {
    DropLedger(f, cfg, now, tossTo, touching, phase);
    NoLongerHeldCredit(f, now, h);
    HeldTimeContinuousOnRelease(f, now, h);
  }

  /** Past the release, a drop of an object not yet Dropped leaves the
      ledger alone and the object without a holder. */
  lemma DropLedger(f: Flag, cfg: FlagConfig, now: real, tossTo: Pos, touching: seq<Character>,
                   phase: Option<MatchPhase>)
    requires f.state != Dropped
    ensures var g := Drop(f, cfg, now, tossTo, touching, phase);
      g.assists == NoLongerHeld(f, now).assists && g.holder.None?
  {
    var f0 := NoLongerHeld(f.(events := f.events + [GameMessage(3, f.holder)]), now);
    assert f0.assists == NoLongerHeld(f, now).assists && f0.state != Dropped;
    var f1 := TossObject(f0, cfg, tossTo, touching, phase, now);
    assert f1.assists == f0.assists && f1.holder.None?;
  }

  // ---------------------------------------------------------------- invariant

  lemma ConsistentNoLongerHeld(f: Flag, now: real)
    requires Consistent(f)
    ensures Consistent(NoLongerHeld(f, now))
  {
  }

  lemma ConsistentSendHome(f: Flag, cfg: FlagConfig, now: real)
    requires Consistent(f)
    ensures Consistent(SendHome(f, cfg, now))
  {
  }

  lemma ConsistentScore(f: Flag, cfg: FlagConfig, reason: string, scorer: Option<CharId>, scorerState: Option<PlayerId>, now: real)
    requires Consistent(f)
    ensures Consistent(Score(f, cfg, reason, scorer, scorerState, now))
  {
    if cfg.authority && cfg.sendHomeOnScore {
      ConsistentSendHome(f.(events := f.events + [ScoreObject(reason, scorer, scorerState)]), cfg, now);
    }
  }

  /** A drop of an object that was not yet Dropped keeps it Consistent. */
  lemma ConsistentDrop(f: Flag, cfg: FlagConfig, now: real, tossTo: Pos, touching: seq<Character>, phase: Option<MatchPhase>)
    requires Consistent(f) && f.state != Dropped
    ensures Consistent(Drop(f, cfg, now, tossTo, touching, phase))
  {
    var f0 := f.(events := f.events + [GameMessage(3, f.holder)]);
    ConsistentNoLongerHeld(f0, now);
    var f1 := TossObject(NoLongerHeld(f0, now), cfg, tossTo, touching, phase, now);
    assert f1.holder.None? && f1.holdingPawn.None? && f1.assists == NoLongerHeld(f0, now).assists;
    var f2 := ChangeState(f1.(events := f1.events + [WasDropped(f1.lastHoldingPawn)]), cfg, Dropped);
    assert f2.holder.None? && f2.holdingPawn.None? && f2.assists == f1.assists;
  }

  /** Asking changes no possession unless the answer sends the object home,
      and answers yes only when it changed nothing at all. */
  lemma ConsistentCanBePickedUpBy(f: Flag, cfg: FlagConfig, c: Character, phase: Option<MatchPhase>, now: real)
    requires Consistent(f)
    ensures var r := CanBePickedUpBy(f, cfg, c, phase, now);
      Consistent(r.1) && (r.0 ==> r.1 == f)
  {
    var v := Decide(cfg.rules, phase, GetTeamNum(f), c.team, c.ragdoll);
    if SendsHomeVerdict(v) && f.state == Dropped {
      ConsistentScore(f.(events := f.events + [GameMessage(0, c.playerState)]), cfg, SentHomeReason, Some(c.id), c.playerState, now);
    }
  }

  /** The authority handing a loose object to a live player keeps it Consistent. */
  lemma ConsistentSetHolder(f: Flag, cfg: FlagConfig, c: Character, now: real)
    requires Consistent(f) && cfg.authority
    ensures Consistent(SetHolder(f, cfg, c, now))
  {
    if !c.pendingKill && c.playerState.Some? {
      SetHolderOutcome(f, cfg, c, now);
      CountDistinct(SetHolder(f, cfg, c, now).assists, c.playerState.value);
    }
  }

  lemma ConsistentTryPickup(f: Flag, cfg: FlagConfig, c: Character, phase: Option<MatchPhase>, now: real)
    requires Consistent(f)
    ensures Consistent(TryPickup(f, cfg, c, phase, now))
  {
    if cfg.authority && c.hasController && f.state != Held {
      var r := CanBePickedUpBy(f, cfg, c, phase, now);
      ConsistentCanBePickedUpBy(f, cfg, c, phase, now);
      if r.0 && c.canPickupObject {
        ConsistentSetHolder(r.1, cfg, c, now);
      }
    }
  }

  lemma {:induction false} ConsistentTouch(f: Flag, cfg: FlagConfig, touching: seq<Character>, prev: ObjectState, phase: Option<MatchPhase>, now: real)
    requires Consistent(f)
    ensures Consistent(Touch(f, cfg, touching, prev, phase, now))
    decreases |touching|
  {
    if |touching| > 0 {
      if Some(touching[0].id) == f.lastHoldingPawn {
        ConsistentTouch(f, cfg, touching[1..], prev, phase, now);
      } else {
        var f1 := OnOverlapBegin(f, cfg, touching[0], phase, now);
        if f.initialized && !touching[0].lineOfSightBlocked {
          ConsistentTryPickup(f, cfg, touching[0], phase, now);
        }
        assert Consistent(f1);
        if f1.state == prev {
          ConsistentTouch(f1, cfg, touching[1..], prev, phase, now);
        }
      }
    }
  }

  lemma ConsistentCheckTouching(f: Flag, cfg: FlagConfig, touching: seq<Character>, phase: Option<MatchPhase>, now: real)
    requires Consistent(f)
    ensures Consistent(CheckTouching(f, cfg, touching, phase, now))
  {
    var f0 := f.(recheckPending := false);
    if f0.state != Held {
      ConsistentTouch(f0, cfg, touching, f0.state, phase, now);
    }
  }

  lemma ConsistentEnteredPainVolume(f: Flag, cfg: FlagConfig, now: real, replicatedLoc: Pos)
    requires Consistent(f)
    ensures Consistent(EnteredPainVolume(f, cfg, now, replicatedLoc))
  {
  }

  /** Init on an object nobody holds leaves it Consistent, at home. */
  lemma ConsistentInit(f: Flag, baseTeam: nat, teamCount: Option<nat>, home: Pos)
    requires f.holder.None? && f.holdingPawn.None?
    ensures var g := Init(f, baseTeam, teamCount, home);
      Consistent(g) && g.state == Home && g.location == home && g.initialized
  {
  }
}
