/** The third-person weapon model (AUTWeaponAttachment): which muzzle flashes
    are stopped and started when a weapon fires, the skin of its mesh, and the
    throttle that keeps impact effects from being spawned too often. */
module WeaponAttachment {
  import opened Base

  /** A particle system component, by identity; slots may share one. */
  type FlashId = nat

  /** A material, by identity. */
  type MaterialId = nat

  /** What the engine knows about a flash component besides whether it is active. */
  datatype FlashInfo = FlashInfo(hasTemplate: bool, looping: bool, suppressSpawning: bool)

  /** The actor an impact trace hit. */
  datatype HitActor = NoActor | CharacterActor | ProjectileActor | OtherActor

  datatype ImpactHit = ImpactHit(actor: HitActor, location: Pos)

  type Dist = (Pos, Pos) -> real

  const Origin: Pos := Pos(0.0, 0.0, 0.0)

  // ---------------------------------------------------------------- stopping flashes

  /** Whether stopping the firing effects deactivates slot i. With
      `ignoreCurrentMode` set, the current mode's flash keeps running, and so
      does every slot holding that same component; when the current mode has
      no flash, every flash is stopped. */
  predicate Stops(slots: seq<Option<FlashId>>, ignoreCurrentMode: bool, fireMode: nat, i: nat)
    requires i < |slots|
  {
    && slots[i].Some?
    && (|| !ignoreCurrentMode
        || !(fireMode < |slots|)
        || slots[fireMode].None?
        || (i != fireMode && slots[i] != slots[fireMode]))
  }

  /** The slots among the first k that are deactivated, in order. */
  function StoppedSlots(slots: seq<Option<FlashId>>, ignoreCurrentMode: bool, fireMode: nat, k: nat): seq<nat>
    requires k <= |slots|
    decreases k
  {
    if k == 0 then []
    else StoppedSlots(slots, ignoreCurrentMode, fireMode, k - 1)
         + (if Stops(slots, ignoreCurrentMode, fireMode, k - 1) then [k - 1] else [])
  }

  /** The components those slots hold. */
  function StoppedFlashes(slots: seq<Option<FlashId>>, ignoreCurrentMode: bool, fireMode: nat, k: nat): set<FlashId>
    requires k <= |slots|
    decreases k
  {
    if k == 0 then {}
    else StoppedFlashes(slots, ignoreCurrentMode, fireMode, k - 1)
         + (if Stops(slots, ignoreCurrentMode, fireMode, k - 1) then {slots[k - 1].value} else {})
  }

  /** A component is stopped exactly when some deactivated slot holds it. */
  lemma {:induction false} StoppedFlashesContents(slots: seq<Option<FlashId>>, ignoreCurrentMode: bool, fireMode: nat, k: nat, x: FlashId)
    requires k <= |slots|
    ensures x in StoppedFlashes(slots, ignoreCurrentMode, fireMode, k)
        <==> exists i :: 0 <= i < k && Stops(slots, ignoreCurrentMode, fireMode, i) && slots[i] == Some(x)
    decreases k
  {
    if k > 0 {
      StoppedFlashesContents(slots, ignoreCurrentMode, fireMode, k - 1, x);
    }
  }

  /** Stopping everything deactivates every slot holding a flash, and no empty slot. */
  lemma StopAll(slots: seq<Option<FlashId>>, fireMode: nat, i: nat)
    requires i < |slots|
    ensures Stops(slots, false, fireMode, i) <==> slots[i].Some?
  {
  }

  /** Sparing the current mode, when it has a flash, deactivates exactly the
      slots holding some other component. */
  lemma StopSparesCurrent(slots: seq<Option<FlashId>>, fireMode: nat, i: nat)
    requires i < |slots| && fireMode < |slots| && slots[fireMode].Some?
    ensures Stops(slots, true, fireMode, i) <==> slots[i].Some? && slots[i] != slots[fireMode]
  {
  }

  /** The current mode's component is never among those stopped while it is spared. */
  lemma CurrentFlashSurvives(slots: seq<Option<FlashId>>, fireMode: nat)
    requires fireMode < |slots| && slots[fireMode].Some?
    ensures slots[fireMode].value !in StoppedFlashes(slots, true, fireMode, |slots|)
  {
    StoppedFlashesContents(slots, true, fireMode, |slots|, slots[fireMode].value);
  }

  /** So stopping everything leaves no slot's component playing. */
  lemma StopAllFlashes(slots: seq<Option<FlashId>>, fireMode: nat, i: nat)
    requires i < |slots| && slots[i].Some?
    ensures slots[i].value in StoppedFlashes(slots, false, fireMode, |slots|)
  {
    StoppedFlashesContents(slots, false, fireMode, |slots|, slots[i].value);
  }

  // ---------------------------------------------------------------- skin

  /** The material the class default's mesh has in slot i (none past its end). */
  function DefaultMaterial(defaults: seq<Option<MaterialId>>, i: nat): Option<MaterialId> {
    if i < |defaults| then defaults[i] else None
  }

  /** The materials of an n-slot mesh after a skin change: the skin in every
      slot, or with no skin the class default's material slot by slot. */
  function Skinned(n: nat, skin: Option<MaterialId>, defaults: seq<Option<MaterialId>>): (r: seq<Option<MaterialId>>)
    ensures |r| == n
  {
    seq(n, i requires 0 <= i < n => if skin.Some? then skin else DefaultMaterial(defaults, i))
  }

  /** Taking the skin off restores the defaults whatever skin was on, and
      putting one on covers every slot. */
  lemma SkinnedShape(n: nat, skin: Option<MaterialId>, defaults: seq<Option<MaterialId>>)
    ensures skin.Some? ==> forall i :: 0 <= i < n ==> Skinned(n, skin, defaults)[i] == skin
    ensures skin.None? && n <= |defaults| ==> Skinned(n, skin, defaults) == defaults[..n]
    ensures skin.None? && |defaults| <= n ==> Skinned(n, skin, defaults)[..|defaults|] == defaults
  {
  }

  // ---------------------------------------------------------------- impact throttle

  /** Whether a shot's impact is far enough from the last one, or late enough
      after it, to be handled. The hit location must also be set for the
      distance test to count; the time test stands alone. */
  predicate ImpactGate(flashLocation: Pos, lastLocation: Pos, lastTime: real, now: real,
                       skipDistance: real, maxSkipTime: real, dist: Dist)
  {
    (flashLocation != Origin && dist(flashLocation, lastLocation) >= skipDistance)
    || now - lastTime >= maxSkipTime
  }

  /** The impact effect is skipped when the trace hit a character or a projectile. */
  predicate CancelImpactEffect(hit: ImpactHit) {
    hit.actor.CharacterActor? || hit.actor.ProjectileActor?
  }

  /** A shot at the very spot of the last handled impact passes the gate only
      on time, and one with no hit location likewise. */
  lemma ImpactGateOnTime(flashLocation: Pos, lastLocation: Pos, lastTime: real, now: real,
                         skipDistance: real, maxSkipTime: real, dist: Dist)
    requires flashLocation == Origin || dist(flashLocation, lastLocation) < skipDistance
    ensures ImpactGate(flashLocation, lastLocation, lastTime, now, skipDistance, maxSkipTime, dist)
        <==> now - lastTime >= maxSkipTime
  {
  }

  // ---------------------------------------------------------------- muzzle flash

  /** A flash is (re)started unless it is already playing a looping system
      that is not suppressed: restarting that would cut the loop. */
  predicate Reactivates(isActive: bool, info: FlashInfo) {
    !isActive || info.suppressSpawning || !info.looping
  }

  class Attachment {
    const muzzleFlash: seq<Option<FlashId>>
    const flashInfo: FlashId -> FlashInfo
    /** Per fire mode: whether it has an impact effect class. */
    const impactEffect: seq<bool>
    const impactEffectSkipDistance: real
    const maxImpactEffectSkipTime: real
    const dist: Dist
    const defaultMaterials: seq<Option<MaterialId>>
    const materials: array<Option<MaterialId>>

    /** The flash components that are playing. */
    var active: set<FlashId>
    /** Slots deactivated, in order. */
    var deactivated: seq<nat>
    /** Components (re)started, in order. */
    var activated: seq<FlashId>
    var lastImpactEffectLocation: Pos
    var lastImpactEffectTime: real
    /** Where impact effects were spawned, in order. */
    var impactsSpawned: seq<Pos>

    constructor (muzzleFlash: seq<Option<FlashId>>, flashInfo: FlashId -> FlashInfo, impactEffect: seq<bool>,
                 skipDistance: real, maxSkipTime: real, dist: Dist,
                 defaultMaterials: seq<Option<MaterialId>>, materials: array<Option<MaterialId>>)
      ensures this.muzzleFlash == muzzleFlash && this.flashInfo == flashInfo && this.impactEffect == impactEffect
      ensures impactEffectSkipDistance == skipDistance && maxImpactEffectSkipTime == maxSkipTime && this.dist == dist
      ensures this.defaultMaterials == defaultMaterials && this.materials == materials
      ensures active == {} && deactivated == [] && activated == [] && impactsSpawned == []
      ensures lastImpactEffectLocation == Origin && lastImpactEffectTime == 0.0
    {
      this.muzzleFlash := muzzleFlash;
      this.flashInfo := flashInfo;
      this.impactEffect := impactEffect;
      impactEffectSkipDistance := skipDistance;
      maxImpactEffectSkipTime := maxSkipTime;
      this.dist := dist;
      this.defaultMaterials := defaultMaterials;
      this.materials := materials;
      active := {};
      deactivated := [];
      activated := [];
      lastImpactEffectLocation := Origin;
      lastImpactEffectTime := 0.0;
      impactsSpawned := [];
    }

    /** Stops the firing effects of every mode, or of every mode but the
        current one. The slot counter is an 8-bit integer, so the loop ends
        only when there are fewer than 256 slots. */
    method StopFiringEffects(ignoreCurrentMode: bool, fireMode: nat)
      requires |muzzleFlash| < 256
      modifies this
      ensures deactivated == old(deactivated) + StoppedSlots(muzzleFlash, ignoreCurrentMode, fireMode, |muzzleFlash|)
      ensures active == old(active) - StoppedFlashes(muzzleFlash, ignoreCurrentMode, fireMode, |muzzleFlash|)
      ensures activated == old(activated) && impactsSpawned == old(impactsSpawned)
      ensures lastImpactEffectLocation == old(lastImpactEffectLocation) && lastImpactEffectTime == old(lastImpactEffectTime)
    {
      var i := 0;
      while i < |muzzleFlash|
        invariant 0 <= i <= |muzzleFlash|
        invariant deactivated == old(deactivated) + StoppedSlots(muzzleFlash, ignoreCurrentMode, fireMode, i)
        invariant active == old(active) - StoppedFlashes(muzzleFlash, ignoreCurrentMode, fireMode, i)
        invariant activated == old(activated) && impactsSpawned == old(impactsSpawned)
        invariant lastImpactEffectLocation == old(lastImpactEffectLocation) && lastImpactEffectTime == old(lastImpactEffectTime)
      {
        if muzzleFlash[i].Some?
          && (!ignoreCurrentMode || !(fireMode < |muzzleFlash|) || muzzleFlash[fireMode].None?
              || (i != fireMode && muzzleFlash[i] != muzzleFlash[fireMode]))
        {
          active := active - {muzzleFlash[i].value};
          deactivated := deactivated + [i];
        }
        i := i + 1;
      }
    }

    /** Starts the current mode's muzzle flash, unless it is a looping system
        already playing. */
    method ActivateMuzzleFlash(fireMode: nat)
      modifies this
      ensures fireMode < |muzzleFlash| && muzzleFlash[fireMode].Some? && flashInfo(muzzleFlash[fireMode].value).hasTemplate ==>
        var f := muzzleFlash[fireMode].value;
        && active == old(active) + {f}
        && activated == old(activated) + (if Reactivates(f in old(active), flashInfo(f)) then [f] else [])
      ensures !(fireMode < |muzzleFlash| && muzzleFlash[fireMode].Some? && flashInfo(muzzleFlash[fireMode].value).hasTemplate) ==>
        active == old(active) && activated == old(activated)
      ensures deactivated == old(deactivated) && impactsSpawned == old(impactsSpawned)
      ensures lastImpactEffectLocation == old(lastImpactEffectLocation) && lastImpactEffectTime == old(lastImpactEffectTime)
    {
      if fireMode < |muzzleFlash| && muzzleFlash[fireMode].Some? && flashInfo(muzzleFlash[fireMode].value).hasTemplate {
        var f := muzzleFlash[fireMode].value;
        var info := flashInfo(f);
        if !(f in active) || info.suppressSpawning || !info.looping {
          active := active + {f};
          activated := activated + [f];
        }
      }
    }

    /** The impact part of a shot: past the gate, the impact effect is spawned
        where the trace hit unless the hit cancels it, and either way the
        shot becomes the last handled impact. */
    method ImpactEffects(fireMode: nat, flashLocation: Pos, now: real, hit: ImpactHit)
      modifies this
      ensures var gate := ImpactGate(flashLocation, old(lastImpactEffectLocation), old(lastImpactEffectTime), now,
                                     impactEffectSkipDistance, maxImpactEffectSkipTime, dist);
        && (gate ==> lastImpactEffectLocation == flashLocation && lastImpactEffectTime == now)
        && (!gate ==> lastImpactEffectLocation == old(lastImpactEffectLocation) && lastImpactEffectTime == old(lastImpactEffectTime))
        && impactsSpawned == old(impactsSpawned)
             + (if gate && fireMode < |impactEffect| && impactEffect[fireMode] && !CancelImpactEffect(hit)
                then [hit.location] else [])
      ensures active == old(active) && activated == old(activated) && deactivated == old(deactivated)
    {
      if ImpactGate(flashLocation, lastImpactEffectLocation, lastImpactEffectTime, now,
                    impactEffectSkipDistance, maxImpactEffectSkipTime, dist)
      {
        if fireMode < |impactEffect| && impactEffect[fireMode] && !CancelImpactEffect(hit) {
          impactsSpawned := impactsSpawned + [hit.location];
        }
        lastImpactEffectLocation := flashLocation;
        lastImpactEffectTime := now;
      }
    }

    /** The mode has a muzzle flash with a particle system to play. */
    predicate HasFlash(fireMode: nat) {
      fireMode < |muzzleFlash| && muzzleFlash[fireMode].Some? && flashInfo(muzzleFlash[fireMode].value).hasTemplate
    }

    /** A shot as other players see it: the other modes' flashes stop; then,
        if the effects are relevant to anyone (`relevant`, decided by the
        engine), the current flash starts and the impact is handled. After it
        the current mode's flash, when it has one, is playing, and a looping
        one that was playing has not been restarted. */
    method PlayFiringEffects(fireMode: nat, relevant: bool, flashLocation: Pos, now: real, hit: ImpactHit)
      requires |muzzleFlash| < 256
      modifies this
      // the other modes' flashes stop, whatever the relevance
      ensures deactivated == old(deactivated) + StoppedSlots(muzzleFlash, true, fireMode, |muzzleFlash|)
      ensures !relevant ==> active == old(active) - StoppedFlashes(muzzleFlash, true, fireMode, |muzzleFlash|)
      ensures !relevant ==> activated == old(activated) && impactsSpawned == old(impactsSpawned)
      ensures !relevant ==>
        lastImpactEffectLocation == old(lastImpactEffectLocation) && lastImpactEffectTime == old(lastImpactEffectTime)
      // the muzzle flash
      ensures relevant && HasFlash(fireMode) ==>
        var f := muzzleFlash[fireMode].value;
        && active == old(active) - StoppedFlashes(muzzleFlash, true, fireMode, |muzzleFlash|) + {f}
        && activated == old(activated) + (if Reactivates(f in old(active), flashInfo(f)) then [f] else [])
      ensures relevant && !HasFlash(fireMode) ==>
        active == old(active) - StoppedFlashes(muzzleFlash, true, fireMode, |muzzleFlash|) && activated == old(activated)
      // the impact throttle
      ensures relevant ==>
        var gate := ImpactGate(flashLocation, old(lastImpactEffectLocation), old(lastImpactEffectTime), now,
                               impactEffectSkipDistance, maxImpactEffectSkipTime, dist);
        && (gate ==> lastImpactEffectLocation == flashLocation && lastImpactEffectTime == now)
        && (!gate ==> lastImpactEffectLocation == old(lastImpactEffectLocation) && lastImpactEffectTime == old(lastImpactEffectTime))
        && impactsSpawned == old(impactsSpawned)
             + (if gate && fireMode < |impactEffect| && impactEffect[fireMode] && !CancelImpactEffect(hit)
                then [hit.location] else [])
      // what the player sees
      ensures relevant && HasFlash(fireMode) ==> muzzleFlash[fireMode].value in active
      ensures (fireMode < |muzzleFlash| && muzzleFlash[fireMode].Some?
               && !Reactivates(muzzleFlash[fireMode].value in old(active), flashInfo(muzzleFlash[fireMode].value)))
              ==> muzzleFlash[fireMode].value !in activated[|old(activated)|..]
    {
      StopFiringEffects(true, fireMode);
      if fireMode < |muzzleFlash| && muzzleFlash[fireMode].Some? {
        CurrentFlashSurvives(muzzleFlash, fireMode);
      }
      if !relevant {
        return;
      }
      ActivateMuzzleFlash(fireMode);
      ImpactEffects(fireMode, flashLocation, now, hit);
    }

    /** Puts `skin` on every material slot of the mesh, or with no skin gives
        each slot back the class default's material. */
    method SetSkin(skin: Option<MaterialId>)
      modifies materials
      ensures materials[..] == Skinned(materials.Length, skin, defaultMaterials)
    {
      if skin.Some? {
        for i := 0 to materials.Length
          invariant forall j :: 0 <= j < i ==> materials[j] == skin
        {
          materials[i] := skin;
        }
      } else {
        for i := 0 to materials.Length
          invariant forall j :: 0 <= j < i ==> materials[j] == DefaultMaterial(defaultMaterials, j)
        {
          materials[i] := DefaultMaterial(defaultMaterials, i);
        }
      }
    }
  }
}
