# Unreal Tournament gameplay core, modelled in Dafny

This project models six pieces of Unreal Tournament's game code and proves
properties of them:

- **Carried objects** (`AUTCarriedObject`, the flag of Capture the Flag). The
  object moves between Home, Held and Dropped. The model covers who may pick it
  up, the assist ledger of held times per player, dropping, sending home
  (including gradual return along the trail of past positions), scoring and
  touch re-checks.
- **The Redeemer missile** (`AUTProj_Redeemer`). The model covers damage on
  server and client, detonation, the explosion and its six stages with their
  radii and timings.
- **The player settings dialog** (`SUWPlayerSettingsDialog`). The model covers
  name filtering as the player types, moving a weapon up or down the priority
  list, the initial sort by priority, saving ranks on OK, and the emote
  choices.
- **The weapon attachment** (`AUTWeaponAttachment`). The model covers stopping
  muzzle flashes, skinning the mesh, re-activating the muzzle flash, and
  throttling impact effects.
- **The spectator banner of the HUD** (`UUTHUDWidget_Spectator`). The model
  covers whether the banner is drawn and which message it shows.
- **The zooming weapon state** (`UUTWeaponStateZooming`). The model covers the
  zoom toggle, unzooming when the weapon goes inactive, the fire-mode switch,
  and the clamped field-of-view tick.

Code that changes state in place is modelled as a class whose fields mirror
the source's fields: `CarriedObject`, `Redeemer`, `SettingsDialog`,
`Attachment` and `ZoomingState`.

Every class except `SettingsDialog` and `Attachment` is proved against a
specification module: `FlagSpec`, `RedeemerSpec` and `ZoomSpec`. Each method
ensures that the object's `Snapshot()` afterwards equals the specification
function applied to the old snapshot. The properties are proved as lemmas about
those functions, in `FlagProperties`, `RedeemerProperties` and `ZoomSpec`, so
they hold of the classes too.

`SettingsDialog` and `Attachment` state their effects directly, using the
functions of `NameFilter`, `WeaponOrder` and `WeaponAttachment`. The spectator
banner is pure and is modelled as functions only.

Calls on the rest of the game are recorded in an `events` sequence, in order:
messages, score events and spawned effects. The following are parameters:

- the clock (`now`);
- whether this copy of the game has network authority;
- a distance function between positions;
- the match phase.

## Model

Source paths are relative to the repository root.

| member | source | states |
|---|---|---|
| CarriedObject.CarriedObject.Init | UnrealTournament/Source/UnrealTournament/Private/UTCarriedObject.cpp:78-97 | binding to a base sets the home location, team and state Home as FlagSpec.Init computes |
| FlagProperties.ConsistentInit | UnrealTournament/Source/UnrealTournament/Private/UTCarriedObject.cpp:78-97 | Init of an unheld object leaves it Consistent, at Home, at the base's location |
| CarriedObject.CarriedObject.OnOverlapBegin | UnrealTournament/Source/UnrealTournament/Private/UTCarriedObject.cpp:185-203 | an overlapping character attempts a pickup (FlagSpec.OnOverlapBegin) |
| CarriedObject.CarriedObject.TryPickup | UnrealTournament/Source/UnrealTournament/Private/UTCarriedObject.cpp:205-216 | the new state is FlagSpec.TryPickup of the old one |
| FlagProperties.TryPickupGate | UnrealTournament/Source/UnrealTournament/Private/UTCarriedObject.cpp:205-216 | without authority, a controller, or with the object Held, nothing changes |
| FlagProperties.TryPickupTakes | UnrealTournament/Source/UnrealTournament/Private/UTCarriedObject.cpp:207-215 | an allowed toucher that can pick objects up becomes the holder (the result is SetHolder) |
| FlagProperties.TryPickupChangesPossessionOnlyIf | UnrealTournament/Source/UnrealTournament/Private/UTCarriedObject.cpp:205-216 | possession changes only through a successful pickup or a send-home verdict |
| CarriedObject.CarriedObject.GetTeamNum | UnrealTournament/Source/UnrealTournament/Private/UTCarriedObject.cpp:266-269 | 255 exactly when there is no team or the team is numbered 255, otherwise the team's number |
| CarriedObject.CarriedObject.ChangeState | UnrealTournament/Source/UnrealTournament/Private/UTCarriedObject.cpp:271-279 | the authority records the new state and notifies the base; elsewhere nothing changes |
| CarriedObject.CarriedObject.CanBePickedUpBy | UnrealTournament/Source/UnrealTournament/Private/UTCarriedObject.cpp:281-346 | the verdict and side effects are those of FlagSpec.CanBePickedUpBy |
| PickupPolicy.PhaseComesFirst | UnrealTournament/Source/UnrealTournament/Private/UTCarriedObject.cpp:283-287 | outside a match in progress, or in intermission, the verdict is NotInPlay whatever the rules |
| PickupPolicy.AllowedExactly | UnrealTournament/Source/UnrealTournament/Private/UTCarriedObject.cpp:281-346 | a pickup is allowed if and only if in play, not ragdoll, and anyone / friendly / enemy rules let it |
| PickupPolicy.SendsHomeDenies | UnrealTournament/Source/UnrealTournament/Private/UTCarriedObject.cpp:305-313 | a toucher whose send-home option applies is always denied |
| PickupPolicy.EnemyFollowsEnemyCanPickup | UnrealTournament/Source/UnrealTournament/Private/UTCarriedObject.cpp:335-344 | with no send-home option an enemy is allowed exactly when enemies may pick up |
| FlagProperties.CanBePickedUpByOutOfPlay | UnrealTournament/Source/UnrealTournament/Private/UTCarriedObject.cpp:283-287 | out of play the answer is false and the object is unchanged |
| FlagProperties.CanBePickedUpBySendsHome | UnrealTournament/Source/UnrealTournament/Private/UTCarriedObject.cpp:305-334 | a send-home toucher is refused; the object is sent home and a SentHome score fires only when it was Dropped |
| FlagProperties.CanBePickedUpByEnemy | UnrealTournament/Source/UnrealTournament/Private/UTCarriedObject.cpp:335-344 | with no send-home option the answer for an enemy equals the enemy-can-pickup flag, possession unchanged |
| FlagProperties.ConsistentCanBePickedUpBy | UnrealTournament/Source/UnrealTournament/Private/UTCarriedObject.cpp:281-346 | asking keeps the object Consistent |
| CarriedObject.CarriedObject.SetHolder | UnrealTournament/Source/UnrealTournament/Private/UTCarriedObject.cpp:363-445 | the new state is FlagSpec.SetHolder of the old one |
| FlagProperties.SetHolderOutcome | UnrealTournament/Source/UnrealTournament/Private/UTCarriedObject.cpp:363-445 | afterwards the object is Held by the new holder, who has exactly one ledger entry; a new entry starts at 0 |
| FlagProperties.SetHolderKeepsHeldTime | UnrealTournament/Source/UnrealTournament/Private/UTCarriedObject.cpp:363-445 | picking up credits no time: every player's held time is unchanged at that moment |
| FlagProperties.ConsistentSetHolder | UnrealTournament/Source/UnrealTournament/Private/UTCarriedObject.cpp:363-445 | SetHolder by the authority keeps the object Consistent |
| AssistLedger.FindAssist | UnrealTournament/Source/UnrealTournament/Private/UTCarriedObject.cpp:896-905 | the first entry of the holder, or -1 when there is none |
| AssistLedger.TrackAssistOutcome | UnrealTournament/Source/UnrealTournament/Private/UTCarriedObject.cpp:403-420 | the ledger stays duplicate-free, keeps its old entries, and has exactly one entry for the new holder |
| AssistLedger.AppendKeepsDistinct | UnrealTournament/Source/UnrealTournament/Private/UTCarriedObject.cpp:403-420 | an entry for an unknown player adds no duplicate |
| AssistLedger.CountDistinct | UnrealTournament/Source/UnrealTournament/Private/UTCarriedObject.cpp:403-420 | in a duplicate-free ledger a player has one entry if found, none otherwise |
| AssistLedger.FindAssistAppend | UnrealTournament/Source/UnrealTournament/Private/UTCarriedObject.cpp:403-420 | appending an entry keeps every earlier lookup where it was |
| AssistLedger.TotalAddHeldTime | UnrealTournament/Source/UnrealTournament/Private/UTCarriedObject.cpp:447-492 | crediting d to one entry raises the ledger total by exactly d |
| AssistLedger.FindAssistAddHeldTime | UnrealTournament/Source/UnrealTournament/Private/UTCarriedObject.cpp:447-492 | crediting time moves no entry |
| AssistLedger.LedgerTimeAddHeldTime | UnrealTournament/Source/UnrealTournament/Private/UTCarriedObject.cpp:447-492 | credited time goes to its holder only |
| CarriedObject.CarriedObject.NoLongerHeld | UnrealTournament/Source/UnrealTournament/Private/UTCarriedObject.cpp:447-492 | the new state is FlagSpec.NoLongerHeld of the old one |
| FlagProperties.NoLongerHeldOutcome | UnrealTournament/Source/UnrealTournament/Private/UTCarriedObject.cpp:447-492 | holder and pawn cleared and remembered as last holder, state unchanged |
| FlagProperties.NoLongerHeldCredit | UnrealTournament/Source/UnrealTournament/Private/UTCarriedObject.cpp:455-465 | the interval since pickup is added to the holder's entry and nobody else's |
| FlagProperties.HeldTimeContinuousOnRelease | UnrealTournament/Source/UnrealTournament/Private/UTCarriedObject.cpp:896-905 | held time is continuous across a release: the same before and after, for every player |
| FlagProperties.ConsistentNoLongerHeld | UnrealTournament/Source/UnrealTournament/Private/UTCarriedObject.cpp:447-492 | releasing keeps the object Consistent |
| CarriedObject.CarriedObject.GetHeldTime | UnrealTournament/Source/UnrealTournament/Private/UTCarriedObject.cpp:896-905 | ledger time plus the running interval for the current holder |
| CarriedObject.CarriedObject.TossObject | UnrealTournament/Source/UnrealTournament/Private/UTCarriedObject.cpp:494-545 | the object lands at the toss position; an object already Dropped is offered at once to the touching characters (FlagSpec.TossObject) |
| FlagProperties.TossOnlyMoves | UnrealTournament/Source/UnrealTournament/Private/UTCarriedObject.cpp:494-545 | tossing an object not yet Dropped only moves it, to the toss position when there was a pawn to throw it |
| FlagProperties.TossPicksUp | UnrealTournament/Source/UnrealTournament/Private/UTCarriedObject.cpp:539-544 | tossing an object already Dropped hands it to an allowed touching character in clear sight |
| CarriedObject.CarriedObject.CheckTouching | UnrealTournament/Source/UnrealTournament/Private/UTCarriedObject.cpp:547-566 | each overlapping character in turn attempts a pickup while the state is unchanged |
| FlagProperties.ConsistentTouch | UnrealTournament/Source/UnrealTournament/Private/UTCarriedObject.cpp:547-566 | the touch loop keeps the object Consistent |
| FlagProperties.ConsistentCheckTouching | UnrealTournament/Source/UnrealTournament/Private/UTCarriedObject.cpp:547-566 | the re-check keeps the object Consistent |
| CarriedObject.CarriedObject.Drop | UnrealTournament/Source/UnrealTournament/Private/UTCarriedObject.cpp:587-619 | the new state is FlagSpec.Drop of the old one |
| FlagProperties.DropOutcome | UnrealTournament/Source/UnrealTournament/Private/UTCarriedObject.cpp:587-619 | a drop by the authority of an object not yet Dropped ends Dropped with no holder; with gradual return one or two samples are popped, and the ghost marks the last popped sample exactly when it was not pruned as too near |
| FlagProperties.DropRunsNoRecheck | UnrealTournament/Source/UnrealTournament/Private/UTCarriedObject.cpp:598-609 | a drop of an object not yet Dropped leaves the scheduled re-check as it was |
| FlagProperties.DropLedger | UnrealTournament/Source/UnrealTournament/Private/UTCarriedObject.cpp:587-600 | past the release, a drop of an object not yet Dropped leaves the ledger as NoLongerHeld made it and the object without a holder |
| FlagProperties.DropCredits | UnrealTournament/Source/UnrealTournament/Private/UTCarriedObject.cpp:587-600 | a drop credits the holder's ledger entry with now − PickedUpTime and no other entry, so every player's held time is continuous across the drop |
| FlagProperties.DropIgnoresTouching | UnrealTournament/Source/UnrealTournament/Private/UTCarriedObject.cpp:598-609 | a drop of an object not yet Dropped offers it to nobody: the touching characters play no part |
| FlagProperties.ConsistentDrop | UnrealTournament/Source/UnrealTournament/Private/UTCarriedObject.cpp:587-619 | dropping an object not yet Dropped keeps it Consistent |
| ReturnTrail.DropTrailPops | UnrealTournament/Source/UnrealTournament/Private/UTCarriedObject.cpp:600-615 | a drop removes one or two samples from the top of the trail and nothing below |
| CarriedObject.CarriedObject.ClearGhostFlag | UnrealTournament/Source/UnrealTournament/Private/UTCarriedObject.cpp:642-651 | the ghost marker is removed, nothing else changes |
| CarriedObject.CarriedObject.PutGhostFlagAt | UnrealTournament/Source/UnrealTournament/Private/UTCarriedObject.cpp:653-674 | the ghost marker is placed at the given position, nothing else changes |
| CarriedObject.CarriedObject.SendHome | UnrealTournament/Source/UnrealTournament/Private/UTCarriedObject.cpp:676-725 | the new state is FlagSpec.SendHome of the old one |
| FlagProperties.SendHomeAtHome | UnrealTournament/Source/UnrealTournament/Private/UTCarriedObject.cpp:676-681 | at Home only the teleport is noted, and a second call changes nothing more |
| FlagProperties.SendHomeGradual | UnrealTournament/Source/UnrealTournament/Private/UTCarriedObject.cpp:682-705 | the gradual branch steps back along the trail, popping one to three samples, without changing state |
| FlagProperties.SendHomeFull | UnrealTournament/Source/UnrealTournament/Private/UTCarriedObject.cpp:706-724 | otherwise the object returns home, Home on the authority, with ledger and trail emptied |
| FlagProperties.SendHomeCanLeaveHeldWithoutHolder | UnrealTournament/Source/UnrealTournament/Private/UTCarriedObject.cpp:682-705 | a Held object sent home gradually stays Held with no holder |
| FlagProperties.SendHomeEventsExtend | UnrealTournament/Source/UnrealTournament/Private/UTCarriedObject.cpp:676-725 | sending home only appends events |
| FlagProperties.SendHomeSpreadStep | UnrealTournament/Source/UnrealTournament/Private/UTCarriedObject.cpp:682-705 | on a spread-out trail one call moves to the newest sample, pops exactly it, and the rest stays spread |
| FlagProperties.SteppedBackStep | UnrealTournament/Source/UnrealTournament/Private/UTCarriedObject.cpp:682-705 | one more call takes one more sample |
| FlagProperties.GradualReturnSteps | UnrealTournament/Source/UnrealTournament/Private/UTCarriedObject.cpp:682-705 | after k calls on a spread trail of N >= k samples the object is Dropped at sample N-k with the ghost on the next |
| FlagProperties.GradualReturnReachesHome | UnrealTournament/Source/UnrealTournament/Private/UTCarriedObject.cpp:676-725 | call N + 1 brings the object Home with ledger and trail emptied |
| FlagProperties.SendHomeTimesKeepsBase | UnrealTournament/Source/UnrealTournament/Private/UTCarriedObject.cpp:676-725 | sending home never moves the home location |
| FlagProperties.ConsistentSendHome | UnrealTournament/Source/UnrealTournament/Private/UTCarriedObject.cpp:676-725 | sending home keeps the object Consistent |
| ReturnTrail.PopPrefix | UnrealTournament/Source/UnrealTournament/Private/UTCarriedObject.cpp:690-700 | popping a prefix of a trail leaves the next shorter prefix |
| ReturnTrail.GradualStepPops | UnrealTournament/Source/UnrealTournament/Private/UTCarriedObject.cpp:682-705 | a gradual step removes one to three samples from the top and moves to a sample it removed |
| ReturnTrail.GradualStepNone | UnrealTournament/Source/UnrealTournament/Private/UTCarriedObject.cpp:682-705 | the trail counts as used up only when at most one near sample is left |
| ReturnTrail.SpreadStep | UnrealTournament/Source/UnrealTournament/Private/UTCarriedObject.cpp:682-705 | on a spread trail a step pops exactly the newest sample and the rest stays spread |
| ReturnTrail.CallsToHomeBounds | UnrealTournament/Source/UnrealTournament/Private/UTCarriedObject.cpp:682-705 | gradual return ends: N samples need between N/3 + 1 and N + 1 calls |
| ReturnTrail.CallsToHomeSpread | UnrealTournament/Source/UnrealTournament/Private/UTCarriedObject.cpp:682-705 | on a spread trail exactly N + 1 calls |
| CarriedObject.CarriedObject.MoveToHome | UnrealTournament/Source/UnrealTournament/Private/UTCarriedObject.cpp:752-765 | ledger and trail emptied, the object at its home location (FlagSpec.MoveToHome) |
| CarriedObject.CarriedObject.Score | UnrealTournament/Source/UnrealTournament/Private/UTCarriedObject.cpp:767-782 | the score event fires, then the object is sent home when configured so (FlagSpec.Score) |
| FlagProperties.ConsistentScore | UnrealTournament/Source/UnrealTournament/Private/UTCarriedObject.cpp:767-782 | scoring keeps the object Consistent |
| CarriedObject.CarriedObject.SetTeam | UnrealTournament/Source/UnrealTournament/Private/UTCarriedObject.cpp:784-788 | the team (an unsigned byte) changes, nothing else |
| CarriedObject.CarriedObject.EnteredPainVolume | UnrealTournament/Source/UnrealTournament/Private/UTCarriedObject.cpp:803-818 | a loose object in a pain volume is sent home (FlagSpec.EnteredPainVolume) |
| FlagProperties.ConsistentEnteredPainVolume | UnrealTournament/Source/UnrealTournament/Private/UTCarriedObject.cpp:803-818 | keeps the object Consistent |
| FlagProperties.ConsistentTryPickup | UnrealTournament/Source/UnrealTournament/Private/UTCarriedObject.cpp:205-216 | a pickup attempt keeps the object Consistent |
| CarriedObject.HeldWithoutHolderRun | UnrealTournament/Source/UnrealTournament/Private/UTCarriedObject.cpp:682-705 | a concrete run of the class that ends Held with no holder and no pawn |
| FlagSpec.Spawned | UnrealTournament/Source/UnrealTournament/Private/UTCarriedObject.cpp:13-43 | a new object is unheld, with no pawn and an empty ledger; it starts at Home where the source leaves its state unset until Init (see Left out) |
| RedeemerProjectile.Redeemer.constructor | UnrealTournament/Source/UnrealTournament/Private/UTProj_Redeemer.cpp:10-47 | a fired missile has health 35, no explosion and no stage |
| RedeemerProperties.StageTablesShape | UnrealTournament/Source/UnrealTournament/Private/UTProj_Redeemer.cpp:29-40 | six growing radii ending at 1.0 and five positive timings |
| RedeemerProjectile.Redeemer.RedeemerDenied | UnrealTournament/Source/UnrealTournament/Private/UTProj_Redeemer.cpp:49-61 | the denial is announced (RedeemerSpec.RedeemerDenied) |
| RedeemerProjectile.Redeemer.TakeDamage | UnrealTournament/Source/UnrealTournament/Private/UTProj_Redeemer.cpp:63-88 | state and returned damage are those of RedeemerSpec.TakeDamage |
| RedeemerProperties.TakeDamageFriendly | UnrealTournament/Source/UnrealTournament/Private/UTProj_Redeemer.cpp:66-70 | team damage changes nothing and returns 0 |
| RedeemerProperties.TakeDamageOnServer | UnrealTournament/Source/UnrealTournament/Private/UTProj_Redeemer.cpp:73-81 | on the server without client-side hits health becomes health − damage, truncated toward zero, detonating at 0 or below |
| RedeemerProperties.TakeDamageElsewhere | UnrealTournament/Source/UnrealTournament/Private/UTProj_Redeemer.cpp:82-87 | a client with client-side hits forwards the hit; otherwise only the damage is returned |
| RedeemerProperties.TruncToIntBounds | UnrealTournament/Source/UnrealTournament/Private/UTProj_Redeemer.cpp:75 | the float-to-int conversion truncates toward zero |
| RedeemerProjectile.Redeemer.ApplyDamage | UnrealTournament/Source/UnrealTournament/Private/UTProj_Redeemer.cpp:75-80 | health set, then detonation and denial at 0 or below |
| RedeemerProperties.ApplyDamageOutcome | UnrealTournament/Source/UnrealTournament/Private/UTProj_Redeemer.cpp:75-80 | a missile at 0 or below is exploded and the denial is its last event; above 0 only health changes |
| RedeemerProjectile.Redeemer.NotifyClientSideHit | UnrealTournament/Source/UnrealTournament/Private/UTProj_Redeemer.cpp:90-105 | the new state is RedeemerSpec.NotifyClientSideHit of the old one |
| RedeemerProperties.NotifyClientSideHitOutcome | UnrealTournament/Source/UnrealTournament/Private/UTProj_Redeemer.cpp:90-105 | team hits change nothing; other hits lower health by the damage exactly |
| RedeemerProjectile.Redeemer.Detonate | UnrealTournament/Source/UnrealTournament/Private/UTProj_Redeemer.cpp:107-109 | detonating is exploding at the missile's location, facing up |
| RedeemerProjectile.Redeemer.Explode | UnrealTournament/Source/UnrealTournament/Private/UTProj_Redeemer.cpp:151-198 | the new state is RedeemerSpec.Explode of the old one |
| RedeemerProperties.ExplodeOutcome | UnrealTournament/Source/UnrealTournament/Private/UTProj_Redeemer.cpp:151-198 | afterwards the missile is exploded; its events only grow |
| RedeemerProperties.ExplodeOnce | UnrealTournament/Source/UnrealTournament/Private/UTProj_Redeemer.cpp:153 | an exploded missile ignores Explode and Detonate |
| RedeemerProperties.ExplodeIdempotent | UnrealTournament/Source/UnrealTournament/Private/UTProj_Redeemer.cpp:151-198 | exploding twice is exploding once |
| RedeemerProperties.ExplodeWhenDetonated | UnrealTournament/Source/UnrealTournament/Private/UTProj_Redeemer.cpp:156-160 | a missile flagged detonated only becomes exploded |
| RedeemerProperties.ExplodeStartsStages | UnrealTournament/Source/UnrealTournament/Private/UTProj_Redeemer.cpp:162-196 | on the server it is hidden and torn off, the effect spawned, stage 1 run and stage 2 armed |
| RedeemerProperties.ExplodeOnClient | UnrealTournament/Source/UnrealTournament/Private/UTProj_Redeemer.cpp:170-190 | a client hides the missile and spawns the effect, and runs no stage |
| RedeemerProjectile.Redeemer.ExplodeStage | UnrealTournament/Source/UnrealTournament/Private/UTProj_Redeemer.cpp:200-224 | one blast at the given range multiplier when the missile hurts (RedeemerSpec.ExplodeStage) |
| RedeemerProjectile.Redeemer.RunStage | UnrealTournament/Source/UnrealTournament/Private/UTProj_Redeemer.cpp:226-260 | stage k blasts at radius k, then arms stage k + 1 with its timing or shuts down after stage 6 |
| RedeemerProjectile.Redeemer.StageTimer | UnrealTournament/Source/UnrealTournament/Private/UTProj_Redeemer.cpp:226-260 | the pending stage runs (RedeemerSpec.StageTimer) |
| RedeemerProperties.BlastsNext | UnrealTournament/Source/UnrealTournament/Private/UTProj_Redeemer.cpp:226-260 | one more stage appends its blast |
| RedeemerProperties.StagesDoneStep | UnrealTournament/Source/UnrealTournament/Private/UTProj_Redeemer.cpp:226-260 | one timer firing moves the explosion from stage k to k + 1 |
| RedeemerProperties.StagesInOrder | UnrealTournament/Source/UnrealTournament/Private/UTProj_Redeemer.cpp:226-260 | after stage 1, k - 1 firings have run exactly stages 2..k, in order, with their radii |
| RedeemerProperties.ExplosionRunsSixStages | UnrealTournament/Source/UnrealTournament/Private/UTProj_Redeemer.cpp:151-260 | explosion plus five firings run all six stages and shut the missile down, not before |
| NameFilter.StripInvalid | UnrealTournament/Source/UnrealTournament/Private/Slate/SUWPlayerSettingsDialog.cpp:388-396 | the backward removal loop yields the text with every invalid character removed |
| NameFilter.StripStep | UnrealTournament/Source/UnrealTournament/Private/Slate/SUWPlayerSettingsDialog.cpp:391-395 | one removal moves the loop one position down |
| NameFilter.StripContents | UnrealTournament/Source/UnrealTournament/Private/Slate/SUWPlayerSettingsDialog.cpp:386-401 | no invalid character survives; every valid one is kept as often as it occurs |
| NameFilter.StripIsSubsequence | UnrealTournament/Source/UnrealTournament/Private/Slate/SUWPlayerSettingsDialog.cpp:386-401 | the result keeps the input's order |
| NameFilter.StripClean | UnrealTournament/Source/UnrealTournament/Private/Slate/SUWPlayerSettingsDialog.cpp:386-401 | a name without invalid characters is unchanged |
| NameFilter.StripIdempotent | UnrealTournament/Source/UnrealTournament/Private/Slate/SUWPlayerSettingsDialog.cpp:397-400 | stripping twice is stripping once, so writing the name back rewrites nothing |
| NameFilter.StripChanges | UnrealTournament/Source/UnrealTournament/Private/Slate/SUWPlayerSettingsDialog.cpp:397-400 | the text changes if and only if it held an invalid character |
| PlayerSettings.SettingsDialog.constructor | UnrealTournament/Source/UnrealTournament/Private/Slate/SUWPlayerSettingsDialog.cpp:38-79 | the dialog opens with the weapons rearranged by descending priority, without duplicates, the top one selected, and the saved emotes; the class invariant holds |
| PlayerSettings.SettingsDialog.OnNameTextChanged | UnrealTournament/Source/UnrealTournament/Private/Slate/SUWPlayerSettingsDialog.cpp:386-401 | only the name changes, to the stripped text; it is rewritten exactly when an invalid character was typed |
| PlayerSettings.SettingsDialog.Select | UnrealTournament/Source/UnrealTournament/Private/Slate/SUWPlayerSettingsDialog.cpp:418 | only the selection changes; it stands for the list view's selection that the Up and Down handlers read, not for a function of the dialog |
| PlayerSettings.SettingsDialog.WeaponPriorityUp | UnrealTournament/Source/UnrealTournament/Private/Slate/SUWPlayerSettingsDialog.cpp:416-429 | only the list changes, to WeaponOrder.PriorityUp of the old list: same weapons, still duplicate-free |
| PlayerSettings.SettingsDialog.WeaponPriorityDown | UnrealTournament/Source/UnrealTournament/Private/Slate/SUWPlayerSettingsDialog.cpp:430-443 | only the list changes, to WeaponOrder.PriorityDown of the old list: same weapons, still duplicate-free |
| WeaponOrder.Find | UnrealTournament/Source/UnrealTournament/Private/Slate/SUWPlayerSettingsDialog.cpp:421 | the first index holding the weapon, or -1 exactly when it is absent |
| WeaponOrder.FindDistinct | UnrealTournament/Source/UnrealTournament/Private/Slate/SUWPlayerSettingsDialog.cpp:421 | in a duplicate-free list Find returns the weapon's own index |
| WeaponOrder.SwapOutcome | UnrealTournament/Source/UnrealTournament/Private/Slate/SUWPlayerSettingsDialog.cpp:424 | an exchange swaps two entries, keeps the others, the contents and freedom from duplicates |
| WeaponOrder.SwapMultiset | UnrealTournament/Source/UnrealTournament/Private/Slate/SUWPlayerSettingsDialog.cpp:424 | an exchange keeps the list's contents |
| WeaponOrder.SwapDistinct | UnrealTournament/Source/UnrealTournament/Private/Slate/SUWPlayerSettingsDialog.cpp:424 | an exchange adds no duplicate |
| WeaponOrder.PriorityUpOutcome | UnrealTournament/Source/UnrealTournament/Private/Slate/SUWPlayerSettingsDialog.cpp:416-429 | a weapon below the top moves up one place; otherwise nothing changes |
| WeaponOrder.PriorityDownOutcome | UnrealTournament/Source/UnrealTournament/Private/Slate/SUWPlayerSettingsDialog.cpp:430-443 | a weapon above the bottom moves down one place; otherwise nothing changes |
| WeaponOrder.PriorityDownUndoesUp | UnrealTournament/Source/UnrealTournament/Private/Slate/SUWPlayerSettingsDialog.cpp:416-443 | down undoes an up that moved something |
| WeaponOrder.PriorityUpUndoesDown | UnrealTournament/Source/UnrealTournament/Private/Slate/SUWPlayerSettingsDialog.cpp:416-443 | up undoes a down that moved something |
| WeaponOrder.Insert | UnrealTournament/Source/UnrealTournament/Private/Slate/SUWPlayerSettingsDialog.cpp:72-79 | inserting keeps every weapon and adds the new one |
| WeaponOrder.SortDesc | UnrealTournament/Source/UnrealTournament/Private/Slate/SUWPlayerSettingsDialog.cpp:72-79 | the sorted list is a permutation of the weapons |
| WeaponOrder.InsertSorted | UnrealTournament/Source/UnrealTournament/Private/Slate/SUWPlayerSettingsDialog.cpp:72-79 | insertion into a list sorted by descending priority keeps it sorted |
| WeaponOrder.SortDescSorted | UnrealTournament/Source/UnrealTournament/Private/Slate/SUWPlayerSettingsDialog.cpp:72-79 | the opening order has the highest priority on top |
| WeaponOrder.PermutationDistinct | UnrealTournament/Source/UnrealTournament/Private/Slate/SUWPlayerSettingsDialog.cpp:72-79 | a rearrangement of a duplicate-free list is duplicate-free, so the sorted list is |
| PlayerSettings.SettingsDialog.OKClick | UnrealTournament/Source/UnrealTournament/Private/Slate/SUWPlayerSettingsDialog.cpp:484-501 | row i of N gets priority N - i (in the profile too when there is one), so priorities fall strictly down the list within 1..N; the emote choices as they stood are saved; nothing else changes |
| WeaponOrder.RankedValues | UnrealTournament/Source/UnrealTournament/Private/Slate/SUWPlayerSettingsDialog.cpp:487-496 | after k rounds the first k rows have their rank and no other priority changed |
| WeaponOrder.RankedKeys | UnrealTournament/Source/UnrealTournament/Private/Slate/SUWPlayerSettingsDialog.cpp:487-496 | the ranked weapons are added to those that had a priority |
| WeaponOrder.RanksDescend | UnrealTournament/Source/UnrealTournament/Private/Slate/SUWPlayerSettingsDialog.cpp:487-496 | after OK, priorities fall strictly from top to bottom and lie in 1..N |
| PlayerSettings.SettingsDialog.OnEmote1Committed | UnrealTournament/Source/UnrealTournament/Private/Slate/SUWPlayerSettingsDialog.cpp:522-525 | only the first emote choice changes |
| PlayerSettings.SettingsDialog.OnEmote2Committed | UnrealTournament/Source/UnrealTournament/Private/Slate/SUWPlayerSettingsDialog.cpp:527-530 | only the second emote choice changes |
| PlayerSettings.SettingsDialog.OnEmote3Committed | UnrealTournament/Source/UnrealTournament/Private/Slate/SUWPlayerSettingsDialog.cpp:532-535 | only the third emote choice changes |
| WeaponAttachment.Skinned | UnrealTournament/Source/UnrealTournament/Private/UTWeaponAttachment.cpp:117-133 | the skinned material list has one entry per mesh slot |
| WeaponAttachment.SkinnedShape | UnrealTournament/Source/UnrealTournament/Private/UTWeaponAttachment.cpp:117-133 | with a skin every slot has it; without one the default materials come back |
| WeaponAttachment.Attachment.SetSkin | UnrealTournament/Source/UnrealTournament/Private/UTWeaponAttachment.cpp:117-133 | the mesh's materials become the skinned list |
| WeaponAttachment.ImpactGate | UnrealTournament/Source/UnrealTournament/Private/UTWeaponAttachment.cpp:224 | an impact is handled when its hit location is set and far enough from the last one, or when the maximum skip time has passed |
| WeaponAttachment.CancelImpactEffect | UnrealTournament/Source/UnrealTournament/Private/UTWeaponAttachment.cpp:135-138 | the impact effect is cancelled exactly when the trace hit a character or a projectile |
| WeaponAttachment.ImpactGateOnTime | UnrealTournament/Source/UnrealTournament/Private/UTWeaponAttachment.cpp:224 | once the maximum skip time has passed an impact effect is always allowed |
| WeaponAttachment.Reactivates | UnrealTournament/Source/UnrealTournament/Private/UTWeaponAttachment.cpp:200 | a flash is (re)started unless it is active, not suppressed and looping |
| WeaponAttachment.Attachment.ActivateMuzzleFlash | UnrealTournament/Source/UnrealTournament/Private/UTWeaponAttachment.cpp:197-204 | the current mode's flash is activated unless it is a looping system already playing |
| WeaponAttachment.Attachment.ImpactEffects | UnrealTournament/Source/UnrealTournament/Private/UTWeaponAttachment.cpp:224-236 | past the throttle, an uncancelled impact spawns and the last impact is recorded |
| WeaponAttachment.Attachment.PlayFiringEffects | UnrealTournament/Source/UnrealTournament/Private/UTWeaponAttachment.cpp:140-239 | the other modes' flashes stop; for relevant owners the current flash is (re)started unless already looping, and the impact is spawned and recorded past the throttle; otherwise nothing more changes |
| WeaponAttachment.Stops | UnrealTournament/Source/UnrealTournament/Private/UTWeaponAttachment.cpp:280 | slot i is deactivated when it holds a flash and either every mode is stopped, the current mode has no flash, or slot i is another mode holding a different flash |
| WeaponAttachment.Attachment.StopFiringEffects | UnrealTournament/Source/UnrealTournament/Private/UTWeaponAttachment.cpp:275-285 | exactly the slots the condition picks are deactivated |
| WeaponAttachment.StoppedFlashesContents | UnrealTournament/Source/UnrealTournament/Private/UTWeaponAttachment.cpp:275-285 | a flash is stopped exactly when some slot holding it is picked |
| WeaponAttachment.StopAll | UnrealTournament/Source/UnrealTournament/Private/UTWeaponAttachment.cpp:280 | stopping every mode picks every non-null slot |
| WeaponAttachment.StopAllFlashes | UnrealTournament/Source/UnrealTournament/Private/UTWeaponAttachment.cpp:275-285 | stopping every mode stops every slot's flash |
| WeaponAttachment.StopSparesCurrent | UnrealTournament/Source/UnrealTournament/Private/UTWeaponAttachment.cpp:280 | sparing the current mode picks exactly the slots whose flash differs from it |
| WeaponAttachment.CurrentFlashSurvives | UnrealTournament/Source/UnrealTournament/Private/UTWeaponAttachment.cpp:275-285 | sparing the current mode leaves its flash playing, even when shared |
| SpectatorHud.ShouldDraw | UnrealTournament/Source/UnrealTournament/Private/UTHUDWidget_Spectator.cpp:18-23 | never after the match, never over the scoreboard once started, only for spectators with a player state |
| SpectatorHud.ShouldDrawEnablesDraw | UnrealTournament/Source/UnrealTournament/Private/UTHUDWidget_Spectator.cpp:18-121 | when the banner is to be drawn, drawing dereferences nothing null |
| SpectatorHud.ShouldDrawWhileSpectating | UnrealTournament/Source/UnrealTournament/Private/UTHUDWidget_Spectator.cpp:18-23 | a spectator with the scoreboard down sees the banner until the match ends |
| SpectatorHud.PreMatchMessage | UnrealTournament/Source/UnrealTournament/Private/UTHUDWidget_Spectator.cpp:45-75 | countdown before missing players before ready before spectator before the default, each exactly when |
| SpectatorHud.RespawnSeconds | UnrealTournament/Source/UnrealTournament/Private/UTHUDWidget_Spectator.cpp:104-110 | the countdown r satisfies r - 1 <= respawn time < r |
| SpectatorHud.AsUInt32 | UnrealTournament/Source/UnrealTournament/Private/UTHUDWidget_Spectator.cpp:81 | the unsigned conversion of the remaining time, equal modulo 2^32 |
| SpectatorHud.InProgressMessage | UnrealTournament/Source/UnrealTournament/Private/UTHUDWidget_Spectator.cpp:87-117 | spectators see the viewed name, overtime the camera hint, others the respawn countdown or prompt |
| SpectatorHud.Draws | UnrealTournament/Source/UnrealTournament/Private/UTHUDWidget_Spectator.cpp:38-121 | one banner per frame, except at halftime: the halftime line, then the empty banner; before the match the pre-match message, in play the in-progress message for the owner's player and viewed player, after the match the empty banner |
| SpectatorHud.HalftimeEndsEmpty | UnrealTournament/Source/UnrealTournament/Private/UTHUDWidget_Spectator.cpp:78-86 | the last line drawn at halftime is empty |
| WeaponZoom.ZoomingState.constructor | UnrealTournament/Source/UnrealTournament/Private/UTWeaponStateZooming.cpp:17-22 | minimum field of view 12, zoom time 1 second, not zoomed |
| WeaponZoom.ZoomingState.PendingFireStarted | UnrealTournament/Source/UnrealTournament/Private/UTWeaponStateZooming.cpp:24-45 | the new state is ZoomSpec.PendingFireStarted of the old one |
| ZoomSpec.PendingFireToggles | UnrealTournament/Source/UnrealTournament/Private/UTWeaponStateZooming.cpp:24-45 | the zoom flag flips; turning it on records the time and registers the tick |
| ZoomSpec.ZoomInAndOut | UnrealTournament/Source/UnrealTournament/Private/UTWeaponStateZooming.cpp:24-49 | zooming in and out leaves the tick registered until fire is released |
| WeaponZoom.ZoomingState.PendingFireStopped | UnrealTournament/Source/UnrealTournament/Private/UTWeaponStateZooming.cpp:46-49 | the zoom tick is unregistered |
| WeaponZoom.ZoomingState.BeginFiringSequence | UnrealTournament/Source/UnrealTournament/Private/UTWeaponStateZooming.cpp:51-58 | the new state is ZoomSpec.BeginFiringSequence of the old one |
| ZoomSpec.FireModeSwitchGuard | UnrealTournament/Source/UnrealTournament/Private/UTWeaponStateZooming.cpp:54-57 | the mode changes if and only if it differs, is a valid index and has ammo |
| WeaponZoom.ZoomingState.EndFiringSequence | UnrealTournament/Source/UnrealTournament/Private/UTWeaponStateZooming.cpp:59-62 | the weapon goes to its active state |
| ZoomSpec.EndAlwaysActive | UnrealTournament/Source/UnrealTournament/Private/UTWeaponStateZooming.cpp:59-62 | ending any firing sequence lands in the active state |
| WeaponZoom.ZoomingState.WeaponBecameInactive | UnrealTournament/Source/UnrealTournament/Private/UTWeaponStateZooming.cpp:64-75 | the new state is ZoomSpec.WeaponBecameInactive of the old one |
| ZoomSpec.InactiveUnzoomsLocally | UnrealTournament/Source/UnrealTournament/Private/UTWeaponStateZooming.cpp:64-75 | the zoom is cleared exactly for a local owner; otherwise nothing changes |
| WeaponZoom.ZoomingState.TickZoom | UnrealTournament/Source/UnrealTournament/Private/UTWeaponStateZooming.cpp:110-121 | the local camera's field of view is set from the clamped progress |
| ZoomSpec.ProgressBounds | UnrealTournament/Source/UnrealTournament/Private/UTWeaponStateZooming.cpp:118 | progress is at most 1, not negative once started, and 1 after a whole zoom time |
| ZoomSpec.FOVNeverPastMinimum | UnrealTournament/Source/UnrealTournament/Private/UTWeaponStateZooming.cpp:118 | the field of view stays between the default and the minimum, reaching the minimum when fully zoomed |
| ZoomSpec.FOVNarrowsOverTime | UnrealTournament/Source/UnrealTournament/Private/UTWeaponStateZooming.cpp:118 | later ticks never widen the view |
| WeaponZoom.ZoomingState.ExecuteTick | UnrealTournament/Source/UnrealTournament/Private/UTWeaponStateZooming.cpp:5-11 | the new state is ZoomSpec.ExecuteTick of the old one: a tick only while registered |
| ZoomSpec.TickGuarded | UnrealTournament/Source/UnrealTournament/Private/UTWeaponStateZooming.cpp:5-11 | the tick changes only the camera, and only while registered, alive, owned, wielded, local and with a camera |
| ZoomSpec.ReleaseFreezesZoom | UnrealTournament/Source/UnrealTournament/Private/UTWeaponStateZooming.cpp:46-49 | after fire is released no tick changes the field of view |

## Left out

- Physics and collision are oracles or parameters: the landing spot of a toss, traces, teleport collision, damage falloff and the distance between positions.
- Timers are explicit calls. The 0.1-second touch re-check that a blocked line of sight or a ragdolled toucher schedules is a pending flag, cleared by `CheckTouching`. The Redeemer's stage timer is `StageTimer`.
- Effects, sounds, HUD drawing, widgets and replication are left out. They appear only as recorded events or flags: hidden, torn off, activated, deactivated.
- Floating point is real arithmetic: no rounding, no infinities, no NaN.
- The carried object assumes its home base and its ghost-flag class are present. Bot notifications, security cameras, the `bIsDropping` guard and pickup-denied messages are not part of this model.
- `RedeemerProjectile.Redeemer.TakeDamage`: does not model 32-bit wrap-around of the missile's health. Health is an unbounded integer.
- `RedeemerDenied`: the controller casts are reduced to one `Denied` event naming the instigator. The explosion's momentum and the statistics credit are left out.
- Whether the missile hurts (non-zero damage radius) and whether it has explosion effects are configuration flags.
- `SpectatorHud.RespawnSeconds`: does not model overflow of the unsigned conversion for respawn times of 2^32 seconds or more.
- The HUD's `Super::Draw_Implementation` and the banner's geometry are left out.
- The character a spectator views is given by the viewed player's name, or none.
- `WeaponAttachment.Attachment.StopFiringEffects`: requires fewer than 256 slots. The source's 8-bit loop counter would wrap around and never stop with more.
- The relevance check before firing effects is the parameter `relevant`. Fire-effect emitters, the bullet whip and the last fire time are left out.
- `PlayerSettings.SettingsDialog.constructor`: requires at least one weapon, because the source selects `WeaponList[0]` without a check (line 382). It also requires each weapon class once, because the asset registry lists each generated class once.
- `FlagSpec.Spawned`: a new object starts at Home. In the source the constructor (lines 13-43) sets no `ObjectState`, which stays the None name until `Init` sets Home (line 93), so `IsHome()` is false until then. The difference is harmless: before `Init` the home base is unset, overlaps are ignored (line 187 tests `bInitialized`), and a `SendHome` would reach `HomeBase->ObjectReturnedHome` (line 723) with no base.
- `CarriedObject.CarriedObject.SetTeam`: team numbers are bounded by 255, the unsigned byte the source returns. A team numbered 255 therefore reads as "no team" in `GetTeamNum`, as in the source.
- `ZoomSpec.ExecuteTick` and `WeaponZoom.ZoomingState.ExecuteTick`: the engine runs a tick function only while it is registered. The model writes that as a guard on `tickRegistered` inside the tick.
- `FlagProperties.DropOutcome` and `FlagProperties.ConsistentDrop`: cover drops of an object not yet Dropped, the case in which a holder drops it. Dropping an object that already lies Dropped runs the toss's touch check first, which can hand it to a toucher before it is marked Dropped. `FlagSpec.Drop` keeps that behaviour.
- Recording the trail of past positions is not part of this model: UTCarriedObject.cpp only reads, prunes and empties it, so `CarriedObject.HeldWithoutHolderRun` writes it directly.
- The set of invalid name characters is an engine constant, given as a parameter.
- When the dialog opens, the profile's stored priorities are taken as given: the loop that loads them is not modelled.
- From `OKClick`, the following are left out: the nickname, `ServerChangeName`, the bob scaling, the player colour and every `SaveConfig`.
- The dialog's sort is not stable, and neither is the model's: weapons of equal priority come in one fixed order.
- `GotoFireMode` and `GotoActiveState` are reduced to the weapon's phase and current fire mode.
- The camera is reduced to its locked field of view. The HUD overlay of the zoom state is not modelled.

## Where the code and its description differ

The model follows the code in each case below.

- **Gradual return can pop more than one sample per call.** It is described as taking one trail position per call. The code first prunes a sample that is too near and can then take one more. `FlagProperties.SendHomeGradual` and `ReturnTrail.GradualStepPops` state one to three.
- **Gradual return never changes state.** The gradual branch of `SendHome` does not call `ChangeState`. A Held object sent home this way therefore stays Held with no holder: see `FlagProperties.SendHomeCanLeaveHeldWithoutHolder` and `CarriedObject.HeldWithoutHolderRun`.
- **A drop checks no touches.** A comment in `Drop` says touches are checked again in `TossObject`. But `TossObject` runs while the object is still Held, so its touch check is skipped, and `ChangeState(Dropped)` comes only afterwards. Nothing in `Drop` offers the object to characters already touching it: see `FlagProperties.DropRunsNoRecheck` and `FlagProperties.DropIgnoresTouching`.
- **A denied pickup can still change things.** A denied toucher whose send-home option applies sends the object home. So a refused pickup is not always without effect: see `FlagProperties.TryPickupChangesPossessionOnlyIf`.
- **Half-damage truncation can detonate at health 1.** The missile's health becomes health − damage, truncated toward zero, so a hit of 0.5 at health 1 leaves 0.5, truncated to 0, and detonates it: see `RedeemerProperties.TakeDamageOnServer`.
- **A missile flagged as detonated explodes into nothing.** `Explode` on such a missile calls `Detonate`, which calls `Explode` again, and that second call finds the missile already exploded. It is only marked exploded: see `RedeemerProperties.ExplodeWhenDetonated`.
