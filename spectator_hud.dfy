/** The spectator banner of the HUD (UUTHUDWidget_Spectator): whether it is
    shown at all, and which line of text it shows, chosen from read-only
    match and player flags. Drawing is reduced to the list of messages drawn,
    in order. */
module SpectatorHud {
  import opened Base

  /** What the banner reads from the game state. */
  datatype GameView = GameView(
    matchStarted: bool,
    matchEnded: bool,
    inCountdown: bool,
    playersNeeded: int,
    teamGame: bool,
    allowTeamSwitches: bool,
    atHalftime: bool,
    /** Seconds until play resumes, as the game state keeps it (signed). */
    remainingTime: int,
    inOvertime: bool,
    onlyTheStrongSurvive: bool,
    suddenDeath: bool)

  /** What the banner reads from the owning player's replicated state. */
  datatype PlayerView = PlayerView(
    respawnChoiceA: bool,
    respawnChoiceB: bool,
    readyToPlay: bool,
    onlySpectator: bool,
    respawnTime: real)

  /** The HUD's owner: the player controller (when there is one), its
      replicated state, the character it owns (dead or alive), whether it
      possesses a pawn, and the name of the player whose character it views. */
  datatype Owner = Owner(
    hasPlayerOwner: bool,
    playerState: Option<PlayerView>,
    character: Option<bool>,
    hasPawn: bool,
    viewedPlayer: Option<string>)

  /** The lines the banner can show. `NoMessage` is the empty text. */
  datatype Message =
    | NoMessage
    | ChooseStart | MatchStarting | WaitingForPlayers
    | ReadyTeam | Ready | WaitingForReady | GetReadyTeam | GetReady
    | Halftime(seconds: nat)
    | Watching(playerName: string)
    | CameraChange
    | RespawnIn(wait: int)
    | ChooseRespawn | PressToRespawn

  /** The owner is a spectator: no character and no pawn, or a dead character. */
  predicate Spectating(owner: Owner) {
    (owner.character.None? && !owner.hasPawn) || (owner.character.Some? && owner.character.value)
  }

  /** Whether the banner is drawn this frame (`showScores`: the scoreboard is up). */
  function ShouldDraw(game: Option<GameView>, owner: Owner, showScores: bool): (r: bool)
    ensures game.Some? && game.value.matchEnded ==> !r
    ensures game.Some? && showScores && game.value.matchStarted ==> !r
    ensures r ==> Spectating(owner)
    ensures r ==> game.Some? && owner.hasPlayerOwner && owner.playerState.Some?
  {
    && game.Some? && !game.value.matchEnded
    && owner.hasPlayerOwner && owner.playerState.Some?
    && ((owner.character.None? && !owner.hasPawn) || (owner.character.Some? && owner.character.value))
    && (!showScores || !game.value.matchStarted)
  }

  /** Before the match: countdown first, then missing players, then the
      player's own readiness, then pure spectators, then the invitation to
      ready up. The player's state may be missing here. */
  function PreMatchMessage(game: GameView, ps: Option<PlayerView>): (m: Message)
    ensures m == ChooseStart
        <==> game.inCountdown && ps.Some? && ps.value.respawnChoiceA && ps.value.respawnChoiceB
    ensures m == MatchStarting
        <==> game.inCountdown && !(ps.Some? && ps.value.respawnChoiceA && ps.value.respawnChoiceB)
    ensures m == WaitingForPlayers <==> !game.inCountdown && game.playersNeeded > 0
    ensures m in {ReadyTeam, Ready}
        <==> !game.inCountdown && game.playersNeeded <= 0 && ps.Some? && ps.value.readyToPlay
    ensures m == WaitingForReady
        <==> !game.inCountdown && game.playersNeeded <= 0 && ps.Some? && !ps.value.readyToPlay
             && ps.value.onlySpectator
    ensures m in {GetReadyTeam, GetReady}
        <==> !game.inCountdown && game.playersNeeded <= 0
             && (ps.None? || (!ps.value.readyToPlay && !ps.value.onlySpectator))
    ensures m in {ReadyTeam, GetReadyTeam}
        <==> (m in {ReadyTeam, GetReadyTeam, Ready, GetReady} && game.teamGame && game.allowTeamSwitches)
  {
    if game.inCountdown then
      (if ps.Some? && ps.value.respawnChoiceA && ps.value.respawnChoiceB then ChooseStart else MatchStarting)
    else if game.playersNeeded > 0 then WaitingForPlayers
    else if ps.Some? && ps.value.readyToPlay then
      (if game.teamGame && game.allowTeamSwitches then ReadyTeam else Ready)
    else if ps.Some? && ps.value.onlySpectator then WaitingForReady
    else if game.teamGame && game.allowTeamSwitches then GetReadyTeam
    else GetReady
  }

  /** The respawn countdown shown for `respawnTime` seconds to go: the float
      converted to an unsigned integer (truncated), plus one. */
  function RespawnSeconds(respawnTime: real): (r: int)
    requires respawnTime > 0.0
    ensures r >= 1
    ensures (r - 1) as real <= respawnTime < r as real
  {
    respawnTime.Floor + 1
  }

  /** The unsigned 32-bit conversion of the signed remaining time. */
  function AsUInt32(x: int): (r: nat)
    ensures r < 0x1_0000_0000
    ensures 0 <= x < 0x1_0000_0000 ==> r == x
    ensures (r - x) % 0x1_0000_0000 == 0
  {
    x % 0x1_0000_0000
  }

  /** During the match, outside halftime: the viewed player's name for pure
      spectators, the camera hint when overtime leaves no respawning, else
      the respawn countdown or the respawn prompt. */
  function InProgressMessage(game: GameView, ps: PlayerView, viewedPlayer: Option<string>): (m: Message)
    ensures ps.onlySpectator ==> m == NoMessage || m.Watching?
    ensures m.Watching? <==> ps.onlySpectator && viewedPlayer.Some?
    ensures m == CameraChange
        <==> !ps.onlySpectator && game.inOvertime && (game.onlyTheStrongSurvive || game.suddenDeath)
    ensures m.RespawnIn? ==> ps.respawnTime > 0.0 && m.wait == RespawnSeconds(ps.respawnTime)
    ensures m in {ChooseRespawn, PressToRespawn} ==> ps.respawnTime <= 0.0
    ensures !ps.onlySpectator && !(game.inOvertime && (game.onlyTheStrongSurvive || game.suddenDeath))
        ==> (m.RespawnIn? <==> ps.respawnTime > 0.0) && (m == ChooseRespawn <==> ps.respawnTime <= 0.0 && ps.respawnChoiceA)
  {
    if ps.onlySpectator then
      (if viewedPlayer.Some? then Watching(viewedPlayer.value) else NoMessage)
    else if game.inOvertime && (game.onlyTheStrongSurvive || game.suddenDeath) then CameraChange
    else if ps.respawnTime > 0.0 then RespawnIn(RespawnSeconds(ps.respawnTime))
    else if ps.respawnChoiceA then ChooseRespawn
    else PressToRespawn
  }

  /** What Draw dereferences without a check: the player controller before
      the match, and its replicated state during play outside halftime. */
  predicate CanDraw(game: GameView, owner: Owner) {
    && (!game.matchStarted ==> owner.hasPlayerOwner)
    && ((game.matchStarted && !game.matchEnded && !game.atHalftime)
          ==> owner.hasPlayerOwner && owner.playerState.Some?)
  }

  /** The messages drawn in one frame, in order (none without the texture
      atlas). At halftime the halftime line is drawn and then the banner
      again with the message that was never set; in every other case the
      banner is drawn once. */
  function Draws(game: GameView, owner: Owner, hasAtlas: bool): (r: seq<Message>)
    requires hasAtlas ==> CanDraw(game, owner)
    ensures !hasAtlas <==> r == []
    ensures hasAtlas && game.matchStarted && !game.matchEnded && game.atHalftime
        ==> r == [Halftime(AsUInt32(game.remainingTime)), NoMessage]
    ensures hasAtlas && !(game.matchStarted && !game.matchEnded && game.atHalftime) ==> |r| == 1
    ensures hasAtlas && !game.matchStarted ==> r == [PreMatchMessage(game, owner.playerState)]
    ensures hasAtlas && game.matchStarted && !game.matchEnded && !game.atHalftime
        ==> r == [InProgressMessage(game, owner.playerState.value, owner.viewedPlayer)]
    ensures hasAtlas && game.matchStarted && game.matchEnded ==> r == [NoMessage]
  {
    if !hasAtlas then []
    else if !game.matchStarted then [PreMatchMessage(game, owner.playerState)]
    else if !game.matchEnded then
      if game.atHalftime then [Halftime(AsUInt32(game.remainingTime)), NoMessage]
      else [InProgressMessage(game, owner.playerState.value, owner.viewedPlayer)]
    else [NoMessage]
  }

  /** Whenever the banner is to be drawn, drawing it dereferences nothing null. */
  lemma ShouldDrawEnablesDraw(game: Option<GameView>, owner: Owner, showScores: bool)
    requires ShouldDraw(game, owner, showScores)
    ensures game.Some? && CanDraw(game.value, owner)
  {
  }

  /** A spectating player with the scoreboard down always sees the banner
      while the match has not ended. */
  lemma ShouldDrawWhileSpectating(game: GameView, owner: Owner)
    requires !game.matchEnded && owner.hasPlayerOwner && owner.playerState.Some? && Spectating(owner)
    ensures ShouldDraw(Some(game), owner, false)
  {
  }

  /** The last line drawn at halftime is empty: the halftime text is visible
      only for as long as the second draw leaves it. */
  lemma HalftimeEndsEmpty(game: GameView, owner: Owner)
    requires game.matchStarted && !game.matchEnded && game.atHalftime
    ensures var r := Draws(game, owner, true); |r| == 2 && r[0].Halftime? && r[|r| - 1] == NoMessage
  {
  }
}
