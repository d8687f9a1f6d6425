/** The carried object (flag) of AUTCarriedObject as values: one snapshot of
    its replicated and server-side state, and one function per operation
    giving the snapshot afterwards. The class in module CarriedObject performs
    the same operations step by step on its fields and is proved against these
    functions; the lemmas here state what the operations guarantee. */
module FlagSpec {
  import opened Base
  import opened AssistLedger
  import opened ReturnTrail
  import opened PickupPolicy

  datatype ObjectState = Home | Held | Dropped

  /** What the object reports to its collaborators (home base, game mode,
      players), in order. */
  datatype Event =
    | StateWasChanged(state: ObjectState)               // home base told of a state change
    | WasPickedUp(pawn: CharId, wasHome: bool)          // home base told of a pickup
    | WasDropped(lastPawn: Option<CharId>)                // home base told of a drop
    | ReturnedHome(lastPawn: Option<CharId>)              // home base told of a return
    | GameMessage(switch: nat, player: Option<PlayerId>) // broadcast announcement
    | PickupRefusedMessage(pawn: CharId)                // "you cannot pick this up" to one player
    | ScoreObject(reason: string, scorer: Option<CharId>, scorerState: Option<PlayerId>) // game mode scores

  const SentHomeReason: string := "SentHome"

  /** A character touching the object, with the answers the engine would give
      about it. */
  datatype Character = Character(
    id: CharId,
    hasController: bool,       // possessed by some controller
    isPlayerController: bool,  // possessed by a human player's controller
    team: nat,                 // team number, 255 for none
    playerState: Option<PlayerId>,
    pendingKill: bool,         // being destroyed
    ragdoll: bool,
    canPickupObject: bool,     // the character's own consent to carry the object
    lineOfSightBlocked: bool)  // the pawn-channel trace from it to the object is blocked

  /** Options fixed for the object's lifetime, the network role, and the
      distance oracle. */
  datatype FlagConfig = FlagConfig(
    authority: bool,
    rules: PickupRules,
    gradualAutoReturn: bool,
    minGradualReturnDist: real,
    sendHomeOnScore: bool,
    dist: Dist)

  /** The defaults set by the object's constructor. */
  function DefaultConfig(authority: bool, dist: Dist): (c: FlagConfig)
    ensures !c.gradualAutoReturn && c.sendHomeOnScore && c.rules.enemyCanPickup
  {
    FlagConfig(authority, PickupRules(false, false, false, false, true), false, 1400.0, true, dist)
  }

  datatype Flag = Flag(
    initialized: bool,
    homeLocation: Pos,
    team: Option<nat>,
    state: ObjectState,
    holder: Option<PlayerId>,
    holdingPawn: Option<CharId>,
    lastHolder: Option<PlayerId>,
    lastHoldingPawn: Option<CharId>,
    pickedUpTime: real,
    assists: Ledger,
    pastPositions: seq<Pos>,
    location: Pos,
    ghostAt: Option<Pos>,        // the ghost marker, if one is placed
    lastTeleportedTime: real,
    lastTeleportedLoc: Pos,
    recheckPending: bool,        // a CheckTouching call is scheduled
    events: seq<Event>)

  /** A freshly spawned object, before Init. The source leaves its state
      unset until Init sets Home; the model starts it at Home. */
  function Spawned(at: Pos): (f: Flag)
    ensures f.state == Home && f.holder.None? && f.holdingPawn.None? && f.assists == []
  {
    Flag(false, at, None, Home, None, None, None, None, 0.0, [], [], at, None, -1000.0, at, false, [])
  }

  /** The holder exists exactly while a pawn carries the object; a holder is
      only ever set while Held and always has a ledger entry; the ledger has
      no duplicates. (The converse, Held implies a holder, is NOT kept: see
      SendHomeCanLeaveHeldWithoutHolder.) */
  ghost predicate Consistent(f: Flag) {
    && (f.holder.Some? <==> f.holdingPawn.Some?)
    && (f.holder.Some? ==> f.state == Held && 0 <= FindAssist(f.assists, f.holder))
    && Distinct(f.assists)
  }

  /** The possession-related part of two snapshots agrees (messages, score
      events and scheduled re-checks aside). */
  ghost predicate SamePossession(a: Flag, b: Flag) {
    && a.state == b.state && a.holder == b.holder && a.holdingPawn == b.holdingPawn
    && a.assists == b.assists && a.pastPositions == b.pastPositions
    && a.location == b.location && a.ghostAt == b.ghostAt
  }

  function GetTeamNum(f: Flag): nat {
    if f.team.Some? then f.team.value else NoTeam
  }

  /** State changes are made by the authority only; the home base is told. */
  function ChangeState(f: Flag, cfg: FlagConfig, s: ObjectState): Flag {
    if cfg.authority then f.(state := s, events := f.events + [StateWasChanged(s)]) else f
  }

  /** Back at the base: assist ledger and trail cleared. */
  function MoveToHome(f: Flag): Flag {
    f.(assists := [], pastPositions := [], location := f.homeLocation)
  }

  /** Binds the home base: the team is taken from the base when its number
      names an existing team (otherwise the team is left as it was). */
  function Init(f: Flag, baseTeam: nat, teamCount: Option<nat>, home: Pos): Flag {
    var team := if baseTeam < NoTeam && teamCount.Some? && baseTeam < teamCount.value then Some(baseTeam) else f.team;
    MoveToHome(f.(team := team, initialized := true, homeLocation := home, state := Home,
                  events := f.events + [StateWasChanged(Home)]))
  }

  /** The held time of `h`: their ledger total, plus the running interval when
      `h` is the current holder. */
  function GetHeldTime(f: Flag, now: real, h: Option<PlayerId>): real {
    var current := if f.holder.Some? && h == f.holder then now - f.pickedUpTime else 0.0;
    LedgerTime(f.assists, h) + current
  }

  /** Hands the object to `c`: a pending-kill character or one without a
      player state is ignored. */
  function SetHolder(f: Flag, cfg: FlagConfig, c: Character, now: real): Flag {
    if c.pendingKill || c.playerState.None? then f
    else
      var wasHome := f.state == Home;
      var f1 := ChangeState(f.(ghostAt := None), cfg, Held);
      var f2 := f1.(events := f1.events + [WasPickedUp(c.id, wasHome)], holdingPawn := Some(c.id),
                    holder := c.playerState, pickedUpTime := now);
      f2.(assists := TrackAssist(f2.assists, c.playerState.value), events := f2.events + [GameMessage(4, c.playerState)])
  }

  /** Detaches the holder: the interval since pickup is credited to the
      holder's ledger entry, and the holder is remembered as the last one. */
  function NoLongerHeld(f: Flag, now: real): Flag {
    var i := FindAssist(f.assists, f.holder);
    f.(lastHolder := f.holder, lastHoldingPawn := f.holdingPawn,
       assists := if 0 <= i then AddHeldTime(f.assists, i, now - f.pickedUpTime) else f.assists,
       holder := None, holdingPawn := None)
  }

  /** Returns the object towards its base. With gradual return (authority
      only) one step back along the trail is taken and the state is left as
      it was; otherwise the object goes home. */
  function SendHome(f: Flag, cfg: FlagConfig, now: real): Flag {
    var f0 := f.(lastTeleportedTime := now, lastTeleportedLoc := f.location);
    if f0.state == Home then f0
    else
      var f1 := NoLongerHeld(f0, now);
      var step := if cfg.gradualAutoReturn && |f1.pastPositions| > 0 && cfg.authority
                  then GradualStep(f1.location, f1.pastPositions, cfg.dist, cfg.minGradualReturnDist)
                  else None;
      if step.Some? then
        f1.(location := step.value.loc, pastPositions := step.value.trail, ghostAt := step.value.ghostAt)
      else ReturnHome(f1, cfg)
  }

  /** All the way home: marker cleared, Home, the base told, then moved to
      the base with ledger and trail cleared. */
  function ReturnHome(f: Flag, cfg: FlagConfig): Flag {
    var f1 := ChangeState(f.(ghostAt := None), cfg, Home);
    MoveToHome(f1.(events := f1.events + [ReturnedHome(f1.lastHoldingPawn)]))
  }

  /** The toss of a released object: it lands at `tossTo` (the place the
      physics finds) when there was a pawn to throw it. When the object
      already was Dropped the touching characters (`touching`, in the
      engine's order) are offered it at once, as CheckTouching does. */
  function TossObject(f: Flag, cfg: FlagConfig, tossTo: Pos, touching: seq<Character>,
                      phase: Option<MatchPhase>, now: real): Flag {
    var f1 := if f.lastHoldingPawn.Some? then f.(location := tossTo) else f;
    if f1.state == Dropped then Touch(f1, cfg, touching, Dropped, phase, now) else f1
  }

  /** The holder lets go: announcement, credit, toss, Dropped, and with
      gradual return a ghost marker back along the trail. */
  function Drop(f: Flag, cfg: FlagConfig, now: real, tossTo: Pos, touching: seq<Character>,
                phase: Option<MatchPhase>): Flag {
    var f1 := TossObject(NoLongerHeld(f.(events := f.events + [GameMessage(3, f.holder)]), now), cfg, tossTo, touching, phase, now);
    var f2 := ChangeState(f1.(events := f1.events + [WasDropped(f1.lastHoldingPawn)]), cfg, Dropped);
    if cfg.gradualAutoReturn && |f2.pastPositions| > 0 then
      var d := DropTrail(f2.location, f2.pastPositions, cfg.dist, cfg.minGradualReturnDist);
      f2.(pastPositions := d.trail, ghostAt := if d.ghostAt.Some? then d.ghostAt else f2.ghostAt)
    else f2
  }

  /** Scoring (authority only): the game mode is told, then the object is sent
      home when so configured. */
  function Score(f: Flag, cfg: FlagConfig, reason: string, scorer: Option<CharId>, scorerState: Option<PlayerId>, now: real): Flag {
    if !cfg.authority then f
    else
      var f1 := f.(events := f.events + [ScoreObject(reason, scorer, scorerState)]);
      if cfg.sendHomeOnScore then SendHome(f1, cfg, now) else f1
  }

  /** Pickup eligibility with its side effects: the verdict of the policy, a
      re-check for ragdolls, a "sent home" score when a send-home toucher finds
      the object Dropped, a refusal message to a refused player. */
  function CanBePickedUpBy(f: Flag, cfg: FlagConfig, c: Character, phase: Option<MatchPhase>, now: real): (bool, Flag) {
    var v := Decide(cfg.rules, phase, GetTeamNum(f), c.team, c.ragdoll);
    if v == Ragdolled then (false, f.(recheckPending := true))
    else if v == TeamSendsHome || v == EnemySendsHome then
      if f.state == Dropped then
        (false, Score(f.(events := f.events + [GameMessage(0, c.playerState)]), cfg, SentHomeReason, Some(c.id), c.playerState, now))
      else (false, f)
    else if v == FriendlyRefused || v == EnemyRefused then
      (false, if c.isPlayerController then f.(events := f.events + [PickupRefusedMessage(c.id)]) else f)
    else (Allows(v), f)
  }

  /** The authority lets a possessed character pick the object up when it is
      not already held and both the object and the character agree. */
  function TryPickup(f: Flag, cfg: FlagConfig, c: Character, phase: Option<MatchPhase>, now: real): Flag {
    if cfg.authority && c.hasController && f.state != Held then
      var r := CanBePickedUpBy(f, cfg, c, phase, now);
      if r.0 && c.canPickupObject then SetHolder(r.1, cfg, c, now) else r.1
    else f
  }

  /** A character starts touching the object: with a clear line it tries to
      pick it up, otherwise a re-check is scheduled. */
  function OnOverlapBegin(f: Flag, cfg: FlagConfig, c: Character, phase: Option<MatchPhase>, now: real): Flag {
    if !f.initialized then f
    else if c.lineOfSightBlocked then f.(recheckPending := true)
    else TryPickup(f, cfg, c, phase, now)
  }

  /** Offers the object to the touching characters in turn, skipping the last
      holder, until one of them changes its state. */
  function Touch(f: Flag, cfg: FlagConfig, touching: seq<Character>, prev: ObjectState, phase: Option<MatchPhase>, now: real): Flag
    decreases |touching|
  {
    if |touching| == 0 then f
    else if Some(touching[0].id) == f.lastHoldingPawn then Touch(f, cfg, touching[1..], prev, phase, now)
    else
      var f1 := OnOverlapBegin(f, cfg, touching[0], phase, now);
      if f1.state != prev then f1 else Touch(f1, cfg, touching[1..], prev, phase, now)
  }

  /** The scheduled re-check fires: unless held, the touching characters are
      offered the object. */
  function CheckTouching(f: Flag, cfg: FlagConfig, touching: seq<Character>, phase: Option<MatchPhase>, now: real): Flag {
    var f0 := f.(recheckPending := false);
    if f0.state == Held then f0 else Touch(f0, cfg, touching, f0.state, phase, now)
  }

  /** A pain volume sends a loose object home (the authority) or snaps it back
      to its last replicated place (a client); a held object is left alone. */
  function EnteredPainVolume(f: Flag, cfg: FlagConfig, now: real, replicatedLoc: Pos): Flag {
    if f.holder.Some? then f
    else if cfg.authority then SendHome(f, cfg, now)
    else f.(location := replicatedLoc)
  }
}
