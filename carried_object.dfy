/** AUTCarriedObject as an object whose methods update its fields in place.
    Each method is proved to leave the object in the state the matching
    FlagSpec function computes from the state before, so every property
    proved in FlagProperties holds of the class as well. */
module CarriedObject {
  import opened Base
  import opened AssistLedger
  import opened ReturnTrail
  import opened PickupPolicy
  import opened FlagSpec
  import FlagProperties

  class CarriedObject {
    const config: FlagConfig

    var initialized: bool
    var homeLocation: Pos
    var team: Option<nat>
    var objectState: ObjectState
    var holder: Option<PlayerId>
    var holdingPawn: Option<CharId>
    var lastHolder: Option<PlayerId>
    var lastHoldingPawn: Option<CharId>
    var pickedUpTime: real
    var assistTracking: Ledger
    var pastPositions: seq<Pos>
    var location: Pos
    var ghostFlag: Option<Pos>
    var lastTeleportedTime: real
    var lastTeleportedLoc: Pos
    var checkTouchingPending: bool
    var events: seq<Event>

    /** The object's whole state as a value. */
    function Snapshot(): Flag
      reads this
    {
      Flag(initialized, homeLocation, team, objectState, holder, holdingPawn, lastHolder,
           lastHoldingPawn, pickedUpTime, assistTracking, pastPositions, location, ghostFlag,
           lastTeleportedTime, lastTeleportedLoc, checkTouchingPending, events)
    }

    constructor (config: FlagConfig, spawn: Pos)
      ensures this.config == config && Snapshot() == Spawned(spawn)
    {
      this.config := config;
      initialized := false;
      homeLocation := spawn;
      team := None;
      objectState := Home;
      holder := None;
      holdingPawn := None;
      lastHolder := None;
      lastHoldingPawn := None;
      pickedUpTime := 0.0;
      assistTracking := [];
      pastPositions := [];
      location := spawn;
      ghostFlag := None;
      lastTeleportedTime := -1000.0;
      lastTeleportedLoc := spawn;
      checkTouchingPending := false;
      events := [];
    }

    /** A call on one of the object's collaborators (home base, game mode,
        a player), recorded in order. */
    method Notify(e: Event)
      modifies this
      ensures Snapshot() == old(Snapshot()).(events := old(events) + [e])
    {
      events := events + [e];
    }

    method SetActorLocation(at: Pos)
      modifies this
      ensures Snapshot() == old(Snapshot()).(location := at)
    {
      location := at;
    }

    /** The team's number is an unsigned byte. */
    method SetTeam(newTeam: Option<nat>)
      requires newTeam.Some? ==> newTeam.value <= 255
      modifies this
      ensures Snapshot() == old(Snapshot()).(team := newTeam)
    {
      team := newTeam;
    }

    method ClearGhostFlag()
      modifies this
      ensures Snapshot() == old(Snapshot()).(ghostAt := None)
    {
      ghostFlag := None;
    }

    /** Places the ghost marker (the ghost flag class is taken to be set). */
    method PutGhostFlagAt(at: Pos)
      modifies this
      ensures Snapshot() == old(Snapshot()).(ghostAt := Some(at))
    {
      ghostFlag := Some(at);
    }

    method ChangeState(s: ObjectState)
      modifies this
      ensures Snapshot() == FlagSpec.ChangeState(old(Snapshot()), config, s)
    {
      if config.authority {
        objectState := s;
        Notify(StateWasChanged(s));
      }
    }

    method MoveToHome()
      modifies this
      ensures Snapshot() == FlagSpec.MoveToHome(old(Snapshot()))
    {
      assistTracking := [];
      pastPositions := [];
      SetActorLocation(homeLocation);
    }

    method Init(baseTeam: nat, teamCount: Option<nat>, home: Pos)
      modifies this
      ensures Snapshot() == FlagSpec.Init(old(Snapshot()), baseTeam, teamCount, home)
    {
      if baseTeam < NoTeam && teamCount.Some? && baseTeam < teamCount.value {
        SetTeam(Some(baseTeam));
      }
      BindBase(home);
      objectState := Home;
      Notify(StateWasChanged(objectState));
      MoveToHome();
    }

    /** The object is bound to its home base, at `home`. */
    method BindBase(home: Pos)
      modifies this
      ensures Snapshot() == old(Snapshot()).(initialized := true, homeLocation := home)
    {
      initialized := true;
      homeLocation := home;
    }

    /** The team's number, with 255 standing for "no team". */
    method GetTeamNum() returns (t: nat)
      ensures team.None? ==> t == NoTeam
      ensures team.Some? ==> t == team.value
      ensures t < NoTeam <==> team.Some? && team.value < NoTeam
    {
      t := if team.Some? then team.value else NoTeam;
    }

    method GetHeldTime(now: real, testHolder: Option<PlayerId>) returns (t: real)
      ensures t == FlagSpec.GetHeldTime(Snapshot(), now, testHolder)
    {
      var current := if holder.Some? && testHolder == holder then now - pickedUpTime else 0.0;
      var i := FindAssist(assistTracking, testHolder);
      if 0 <= i {
        t := current + assistTracking[i].totalHeldTime;
      } else {
        t := current;
      }
    }

    method SetHolder(c: Character, now: real)
      modifies this
      ensures Snapshot() == FlagSpec.SetHolder(old(Snapshot()), config, c, now)
    {
      if c.pendingKill || c.playerState.None? {
        return;
      }
      ghost var f := Snapshot();
      ClearGhostFlag();
      var wasHome := objectState == Home;
      ChangeState(Held);
      ghost var f1 := Snapshot();
      assert f1 == FlagSpec.ChangeState(f.(ghostAt := None), config, Held);
      Notify(WasPickedUp(c.id, wasHome));
      AttachHolder(c, now);
      TrackAssist();
      Notify(GameMessage(4, holder));
    }

    /** The new holder and its pawn, and the time of pickup. */
    method AttachHolder(c: Character, now: real)
      modifies this
      ensures Snapshot() == old(Snapshot()).(holdingPawn := Some(c.id), holder := c.playerState, pickedUpTime := now)
    {
      holdingPawn := Some(c.id);
      holder := c.playerState;
      pickedUpTime := now;
    }

    /** Tracks the new holder in the assist ledger. */
    method TrackAssist()
      requires holder.Some?
      modifies this
      ensures Snapshot() == old(Snapshot()).(assists := AssistLedger.TrackAssist(old(assistTracking), old(holder).value))
    {
      var i := FindAssist(assistTracking, holder);
      if i < 0 {
        assistTracking := assistTracking + [AssistEntry(holder.value, 0.0)];
      }
    }

    method NoLongerHeld(now: real)
      modifies this
      ensures Snapshot() == FlagSpec.NoLongerHeld(old(Snapshot()), now)
    {
      lastHolder := holder;
      lastHoldingPawn := holdingPawn;
      CreditHeldTime(now);
      DetachHolder();
    }

    /** The interval since pickup is added to the holder's ledger entry. */
    method CreditHeldTime(now: real)
      modifies this
      ensures var i := FindAssist(old(assistTracking), old(holder));
        Snapshot() == old(Snapshot()).(assists := if 0 <= i then AddHeldTime(old(assistTracking), i, now - old(pickedUpTime)) else old(assistTracking))
    {
      var i := FindAssist(assistTracking, holder);
      if 0 <= i {
        assistTracking := assistTracking[i := assistTracking[i].(totalHeldTime := assistTracking[i].totalHeldTime + (now - pickedUpTime))];
      }
    }

    method DetachHolder()
      modifies this
      ensures Snapshot() == old(Snapshot()).(holdingPawn := None, holder := None)
    {
      holdingPawn := None;
      holder := None;
    }

    /** Removes the newest trail sample. */
    method PopTrail()
      requires |pastPositions| > 0
      modifies this
      ensures Snapshot() == old(Snapshot()).(pastPositions := Pop(old(pastPositions)))
    {
      pastPositions := pastPositions[..|pastPositions| - 1];
    }

    /** Pops the newest trail sample when the object is within the minimum
        gradual-return distance of it. */
    method PruneNearTop()
      modifies this
      ensures Snapshot() == old(Snapshot()).(pastPositions := PruneNear(old(location), old(pastPositions), config.dist, config.minGradualReturnDist))
    {
      if |pastPositions| > 0 && config.dist(location, pastPositions[|pastPositions| - 1]) < config.minGradualReturnDist {
        PopTrail();
      }
    }

    /** One step of gradual return, on the trail sampled behind the object:
        moves the object back to the newest far-enough sample and puts the
        ghost marker at the one before it. Answers false, with the trail used
        up, when no sample is left to step to. */
    method StepBack() returns (stepped: bool)
      modifies this
      ensures var step := GradualStep(old(location), old(pastPositions), config.dist, config.minGradualReturnDist);
        && stepped == step.Some?
        && (stepped ==> Snapshot() == old(Snapshot()).(location := step.value.loc, pastPositions := step.value.trail, ghostAt := step.value.ghostAt))
        && (!stepped ==> Snapshot() == old(Snapshot()).(pastPositions := []))
    {
      PruneNearTop();
      if |pastPositions| == 0 {
        return false;
      }
      var wantsGhostFlag := false;
      SetActorLocation(pastPositions[|pastPositions| - 1]);
      PopTrail();
      PruneNearTop();
      if |pastPositions| > 0 {
        PutGhostFlagAt(pastPositions[|pastPositions| - 1]);
        wantsGhostFlag := true;
      }
      if !wantsGhostFlag {
        ClearGhostFlag();
      }
      return true;
    }

    method SendHome(now: real)
      modifies this
      ensures Snapshot() == FlagSpec.SendHome(old(Snapshot()), config, now)
    {
      lastTeleportedTime := now;
      lastTeleportedLoc := location;
      if objectState == Home {
        return;
      }
      NoLongerHeld(now);
      ghost var f1 := Snapshot();
      if config.gradualAutoReturn && |pastPositions| > 0 && config.authority {
        var stepped := StepBack();
        if stepped {
          return;
        }
      }
      assert FlagSpec.ReturnHome(Snapshot(), config) == FlagSpec.ReturnHome(f1, config);
      ReturnHome();
    }

    /** The tail of SendHome when the object goes all the way back. */
    method ReturnHome()
      modifies this
      ensures Snapshot() == FlagSpec.ReturnHome(old(Snapshot()), config)
    {
      ClearGhostFlag();
      ChangeState(Home);
      Notify(ReturnedHome(lastHoldingPawn));
      MoveToHome();
    }

    /** `touching` are the characters overlapping the object after the toss,
        in the engine's order. */
    method TossObject(tossTo: Pos, touching: seq<Character>, phase: Option<MatchPhase>, now: real)
      modifies this
      ensures Snapshot() == FlagSpec.TossObject(old(Snapshot()), config, tossTo, touching, phase, now)
    {
      if lastHoldingPawn.Some? {
        SetActorLocation(tossTo);
      }
      if objectState == Dropped {
        OfferToTouching(touching, phase, now);
      }
    }

    /** On a drop with gradual return: prunes the newest sample when near,
        then puts the ghost marker at the next one and pops it. */
    method PlaceGhostOnTrail()
      modifies this
      ensures var d := DropTrail(old(location), old(pastPositions), config.dist, config.minGradualReturnDist);
        Snapshot() == old(Snapshot()).(pastPositions := d.trail, ghostAt := if d.ghostAt.Some? then d.ghostAt else old(ghostFlag))
    {
      PruneNearTop();
      if |pastPositions| > 0 {
        PutGhostFlagAt(pastPositions[|pastPositions| - 1]);
        PopTrail();
      }
    }

    method Drop(now: real, tossTo: Pos, touching: seq<Character>, phase: Option<MatchPhase>)
      modifies this
      ensures Snapshot() == FlagSpec.Drop(old(Snapshot()), config, now, tossTo, touching, phase)
    {
      ghost var f0 := Snapshot();
      Notify(GameMessage(3, holder));
      NoLongerHeld(now);
      TossObject(tossTo, touching, phase, now);
      ghost var f1 := Snapshot();
      assert f1 == FlagSpec.TossObject(FlagSpec.NoLongerHeld(f0.(events := f0.events + [GameMessage(3, f0.holder)]), now),
                                       config, tossTo, touching, phase, now);
      Notify(WasDropped(lastHoldingPawn));
      ChangeState(Dropped);
      assert Snapshot() == FlagSpec.ChangeState(f1.(events := f1.events + [WasDropped(f1.lastHoldingPawn)]), config, Dropped);
      if config.gradualAutoReturn && |pastPositions| > 0 {
        PlaceGhostOnTrail();
      }
    }

    method Score(reason: string, scorer: Option<CharId>, scorerState: Option<PlayerId>, now: real)
      modifies this
      ensures Snapshot() == FlagSpec.Score(old(Snapshot()), config, reason, scorer, scorerState, now)
    {
      if config.authority {
        Notify(ScoreObject(reason, scorer, scorerState));
        if config.sendHomeOnScore {
          SendHome(now);
        }
      }
    }

    method CanBePickedUpBy(c: Character, phase: Option<MatchPhase>, now: real) returns (ok: bool)
      modifies this
      ensures (ok, Snapshot()) == FlagSpec.CanBePickedUpBy(old(Snapshot()), config, c, phase, now)
    {
      var teamNum := GetTeamNum();
      var v := Decide(config.rules, phase, teamNum, c.team, c.ragdoll);
      ok := false;
      if v == Ragdolled {
        checkTouchingPending := true;
      } else if v == TeamSendsHome || v == EnemySendsHome {
        if objectState == Dropped {
          Notify(GameMessage(0, c.playerState));
          Score(SentHomeReason, Some(c.id), c.playerState, now);
        }
      } else if v == FriendlyRefused || v == EnemyRefused {
        if c.isPlayerController {
          Notify(PickupRefusedMessage(c.id));
        }
      } else {
        ok := Allows(v);
      }
    }

    method TryPickup(c: Character, phase: Option<MatchPhase>, now: real)
      modifies this
      ensures Snapshot() == FlagSpec.TryPickup(old(Snapshot()), config, c, phase, now)
    {
      if config.authority && c.hasController && objectState != Held {
        var ok := CanBePickedUpBy(c, phase, now);
        if ok && c.canPickupObject {
          SetHolder(c, now);
        }
      }
    }

    method OnOverlapBegin(c: Character, phase: Option<MatchPhase>, now: real)
      modifies this
      ensures Snapshot() == FlagSpec.OnOverlapBegin(old(Snapshot()), config, c, phase, now)
    {
      if initialized {
        if !c.lineOfSightBlocked {
          TryPickup(c, phase, now);
        } else {
          checkTouchingPending := true;
        }
      }
    }

    /** The touching characters (in the engine's order) are offered the
        object in turn, skipping the last holder, until its state changes. */
    method OfferToTouching(touching: seq<Character>, phase: Option<MatchPhase>, now: real)
      modifies this
      ensures Snapshot() == Touch(old(Snapshot()), config, touching, old(objectState), phase, now)
    {
      var prevState := objectState;
      ghost var target := Touch(Snapshot(), config, touching, prevState, phase, now);
      var i := 0;
      while i < |touching|
        invariant 0 <= i <= |touching|
        invariant objectState == prevState
        invariant Touch(Snapshot(), config, touching[i..], prevState, phase, now) == target
      {
        assert touching[i..][1..] == touching[i + 1..];
        if Some(touching[i].id) != lastHoldingPawn {
          OnOverlapBegin(touching[i], phase, now);
          if objectState != prevState {
            return;
          }
        }
        i := i + 1;
      }
    }

    /** The scheduled re-check: `touching` are the characters overlapping the
        object, in the engine's order. */
    method CheckTouching(touching: seq<Character>, phase: Option<MatchPhase>, now: real)
      modifies this
      ensures Snapshot() == FlagSpec.CheckTouching(old(Snapshot()), config, touching, phase, now)
    {
      checkTouchingPending := false;
      if objectState != Held {
        OfferToTouching(touching, phase, now);
      }
    }

    method EnteredPainVolume(now: real, replicatedLoc: Pos)
      modifies this
      ensures Snapshot() == FlagSpec.EnteredPainVolume(old(Snapshot()), config, now, replicatedLoc)
    {
      if holder.Some? {
        return;
      }
      if config.authority {
        SendHome(now);
      } else {
        SetActorLocation(replicatedLoc);
      }
    }
  }

  /** A run on a server with gradual return: a player takes the object from
      its base, it is sent home while the trail still holds a sample far away,
      and it ends up Held with no holder. UTCarriedObject.cpp only reads,
      prunes and empties the trail of past positions; nothing in it records
      one, so the run writes `pastPositions` directly. */
  method HeldWithoutHolderRun() returns (state: ObjectState, holder: Option<PlayerId>, holdingPawn: Option<CharId>)
    ensures state == Held && holder.None? && holdingPawn.None?
  {
    var far: Dist := (a: Pos, b: Pos) => 2000.0;
    var cfg := DefaultConfig(true, far).(gradualAutoReturn := true);
    var base := Pos(0.0, 0.0, 0.0);
    var flag := new CarriedObject(cfg, base);
    flag.Init(0, Some(2), base);
    var runner := Character(7, true, true, 1, Some(3), false, false, true, false);
    flag.OnOverlapBegin(runner, Some(MatchPhase(true, false)), 10.0);
    assert flag.objectState == Held;
    flag.pastPositions := [Pos(5000.0, 0.0, 0.0)];
    flag.SendHome(20.0);
    state, holder, holdingPawn := flag.objectState, flag.holder, flag.holdingPawn;
  }
}
