/** UUTWeaponStateZooming as an object whose methods update its fields in
    place. Each method is proved to leave the state as the matching ZoomSpec
    function computes, so the properties proved there apply to it. */
module WeaponZoom {
  import opened Base
  import opened ZoomSpec

  /** The zooming state object. `minFOV` and `zoomTime` are its tuning
      constants (12 degrees and one second by default). */
  class ZoomingState {
    const minFOV: real
    const zoomTime: real

    var isZoomed: bool
    var startZoomTime: real
    var tickRegistered: bool
    /** The owning weapon's current fire mode and state-machine phase. */
    var currentFireMode: nat
    var phase: WeaponPhase
    /** The owner's camera lock. */
    var lockedFOV: Option<real>

    ghost predicate Valid()
      reads this
    {
      zoomTime > 0.0
    }

    function Snapshot(): Zoom
      reads this
    {
      Zoom(isZoomed, startZoomTime, tickRegistered, currentFireMode, phase, lockedFOV)
    }

    constructor ()
      ensures Valid() && minFOV == 12.0 && zoomTime == 1.0
      ensures Snapshot() == Zoom(false, 0.0, false, 0, Zooming, None)
    {
      minFOV := 12.0;
      zoomTime := 1.0;
      isZoomed := false;
      startZoomTime := 0.0;
      tickRegistered := false;
      currentFireMode := 0;
      phase := Zooming;
      lockedFOV := None;
    }

    method UnlockCamera(owner: OwnerView)
      modifies this
      ensures Snapshot() == Unlock(old(Snapshot()), owner)
    {
      if owner.locallyControlled && owner.hasCamera {
        lockedFOV := None;
      }
    }

    method PendingFireStarted(now: real, owner: OwnerView)
      modifies this
      ensures Snapshot() == ZoomSpec.PendingFireStarted(old(Snapshot()), now, owner)
    {
      if isZoomed {
        isZoomed := false;
        UnlockCamera(owner);
      } else {
        isZoomed := true;
        startZoomTime := now;
        tickRegistered := true;
      }
    }

    method PendingFireStopped()
      modifies this
      ensures Snapshot() == ZoomSpec.PendingFireStopped(old(Snapshot()))
    {
      tickRegistered := false;
    }

    method WeaponBecameInactive(owner: OwnerView)
      modifies this
      ensures Snapshot() == ZoomSpec.WeaponBecameInactive(old(Snapshot()), owner)
    {
      if isZoomed && owner.locallyControlled {
        isZoomed := false;
        UnlockCamera(owner);
      }
    }

    /** `mode` is the fire mode number, an unsigned byte. */
    method BeginFiringSequence(mode: nat, firingStates: nat, hasAmmo: bool)
      requires mode < 256
      modifies this
      ensures Snapshot() == ZoomSpec.BeginFiringSequence(old(Snapshot()), mode, firingStates, hasAmmo)
    {
      if mode != currentFireMode && mode < firingStates && hasAmmo {
        currentFireMode := mode;
        phase := Firing(mode);
      }
    }

    method EndFiringSequence(mode: nat)
      requires mode < 256
      modifies this
      ensures Snapshot() == ZoomSpec.EndFiringSequence(old(Snapshot()))
    {
      phase := Active;
    }

    method TickZoom(now: real, owner: OwnerView, defaultFOV: real)
      requires Valid()
      modifies this
      ensures Snapshot() == ZoomSpec.TickZoom(old(Snapshot()), now, owner, defaultFOV, minFOV, zoomTime)
    {
      if owner.locallyControlled && owner.hasCamera {
        var p := (now - startZoomTime) / zoomTime;
        if !(p < 1.0) {
          p := 1.0;
        }
        assert p == Progress(now, startZoomTime, zoomTime);
        var fov := defaultFOV - (defaultFOV - minFOV) * p;
        assert fov == ZoomFOV(defaultFOV, minFOV, p);
        lockedFOV := Some(fov);
      }
    }

    /** The tick function, called by the engine every frame while it is
        registered (the registration check is the engine's). */
    method ExecuteTick(alive: bool, hasOwner: bool, ownerWeaponIsThis: bool, now: real,
                       owner: OwnerView, defaultFOV: real)
      requires Valid()
      modifies this
      ensures Snapshot()
           == ZoomSpec.ExecuteTick(old(Snapshot()), alive, hasOwner, ownerWeaponIsThis, now, owner,
                                     defaultFOV, minFOV, zoomTime)
    {
      if tickRegistered && alive && hasOwner && ownerWeaponIsThis {
        TickZoom(now, owner, defaultFOV);
      }
    }
  }
}
