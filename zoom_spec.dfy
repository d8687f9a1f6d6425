/** The zooming state of a sniper-style weapon (UUTWeaponStateZooming): the
    zoom flag toggled by the fire button, the time zooming started, the tick
    that narrows the camera's field of view, and the fire-mode switch made
    from inside the state. The weapon's firing states and the camera are
    reduced to the few facts this state reads or changes. */
module ZoomSpec {
  import opened Base

  /** The owning weapon's state machine, as far as this state moves it. */
  datatype WeaponPhase = Zooming | Active | Firing(mode: nat)

  /** The state's fields, the weapon's current fire mode and phase, and the
      owner's camera lock (`lockedFOV == None`: the camera is unlocked). */
  datatype Zoom = Zoom(
    isZoomed: bool,
    startZoomTime: real,
    tickRegistered: bool,
    currentFireMode: nat,
    phase: WeaponPhase,
    lockedFOV: Option<real>)

  /** What the state asks of its owning character. */
  datatype OwnerView = OwnerView(locallyControlled: bool, hasCamera: bool)

  /** The camera of a locally controlled owner lets go of its field of view. */
  function Unlock(z: Zoom, owner: OwnerView): Zoom {
    if owner.locallyControlled && owner.hasCamera then z.(lockedFOV := None) else z
  }

  /** Pressing fire while zoomable toggles the zoom: off (unlocking the local
      camera), or on from `now` with the zoom tick registered. */
  function PendingFireStarted(z: Zoom, now: real, owner: OwnerView): Zoom {
    if z.isZoomed then Unlock(z.(isZoomed := false), owner)
    else z.(isZoomed := true, startZoomTime := now, tickRegistered := true)
  }

  /** Releasing fire unregisters the zoom tick. */
  function PendingFireStopped(z: Zoom): Zoom {
    z.(tickRegistered := false)
  }

  /** Only a locally controlled owner leaves the zoom when the weapon goes inactive. */
  function WeaponBecameInactive(z: Zoom, owner: OwnerView): Zoom {
    if z.isZoomed && owner.locallyControlled then Unlock(z.(isZoomed := false), owner) else z
  }

  /** Pressing another fire mode's button switches straight to that mode,
      provided the weapon has such a firing state and ammunition for it. */
  function BeginFiringSequence(z: Zoom, mode: nat, firingStates: nat, hasAmmo: bool): Zoom {
    if mode != z.currentFireMode && mode < firingStates && hasAmmo
    then z.(currentFireMode := mode, phase := Firing(mode))
    else z
  }

  /** Releasing any fire button returns the weapon to its active state. */
  function EndFiringSequence(z: Zoom): Zoom {
    z.(phase := Active)
  }

  /** How far the zoom has gone: elapsed time over the zoom time, capped at one. */
  function Progress(now: real, startZoomTime: real, zoomTime: real): real
    requires zoomTime > 0.0
  {
    var p := (now - startZoomTime) / zoomTime;
    if p < 1.0 then p else 1.0
  }

  /** The field of view at zoom progress `p`: from the default towards the minimum. */
  function ZoomFOV(defaultFOV: real, minFOV: real, p: real): real {
    defaultFOV - (defaultFOV - minFOV) * p
  }

  /** One zoom tick: the local camera's field of view is set (and so locked). */
  function TickZoom(z: Zoom, now: real, owner: OwnerView, defaultFOV: real, minFOV: real, zoomTime: real): Zoom
    requires zoomTime > 0.0
  {
    if owner.locallyControlled && owner.hasCamera
    then z.(lockedFOV := Some(ZoomFOV(defaultFOV, minFOV, Progress(now, z.startZoomTime, zoomTime))))
    else z
  }

  /** The conditions under which the registered tick function runs the zoom
      tick: the state object is alive, has an owner, and the owner's current
      weapon is this state's weapon. */
  predicate TickAllowed(alive: bool, hasOwner: bool, ownerWeaponIsThis: bool) {
    alive && hasOwner && ownerWeaponIsThis
  }

  /** One frame of the tick function: the engine runs it only while it is
      registered (from pressing fire to releasing it). */
  function ExecuteTick(z: Zoom, alive: bool, hasOwner: bool, ownerWeaponIsThis: bool, now: real,
                       owner: OwnerView, defaultFOV: real, minFOV: real, zoomTime: real): Zoom
    requires zoomTime > 0.0
  {
    if z.tickRegistered && TickAllowed(alive, hasOwner, ownerWeaponIsThis)
    then TickZoom(z, now, owner, defaultFOV, minFOV, zoomTime)
    else z
  }

  // ---------------------------------------------------------------- properties

  /** The fire button toggles the zoom; turning it on records the time and
      registers the tick, turning it off leaves both as they were. */
  lemma PendingFireToggles(z: Zoom, now: real, owner: OwnerView)
    ensures var r := PendingFireStarted(z, now, owner);
      && r.isZoomed == !z.isZoomed
      && (r.isZoomed ==> r.startZoomTime == now && r.tickRegistered && r.lockedFOV == z.lockedFOV)
      && (!r.isZoomed ==> r.startZoomTime == z.startZoomTime && r.tickRegistered == z.tickRegistered)
      && r.currentFireMode == z.currentFireMode && r.phase == z.phase
  {
  }

  /** Toggling twice leaves the zoom off, with the tick still registered: only
      releasing the button unregisters it. */
  lemma ZoomInAndOut(z: Zoom, t1: real, t2: real, owner: OwnerView)
    requires !z.isZoomed
    ensures var r := PendingFireStarted(PendingFireStarted(z, t1, owner), t2, owner);
      && !r.isZoomed && r.startZoomTime == t1 && r.tickRegistered
      && PendingFireStopped(r).tickRegistered == false
  {
  }

  /** Going inactive clears the zoom exactly when the owner is local, and
      otherwise changes nothing. */
  lemma InactiveUnzoomsLocally(z: Zoom, owner: OwnerView)
    ensures var r := WeaponBecameInactive(z, owner);
      && r.isZoomed == (z.isZoomed && !owner.locallyControlled)
      && (!owner.locallyControlled ==> r == z)
      && r.startZoomTime == z.startZoomTime && r.tickRegistered == z.tickRegistered
  {
  }

  /** The fire mode changes exactly when the requested mode is another one, a
      valid index, and has ammunition; it then becomes the firing mode. */
  lemma FireModeSwitchGuard(z: Zoom, mode: nat, firingStates: nat, hasAmmo: bool)
    ensures var r := BeginFiringSequence(z, mode, firingStates, hasAmmo);
      && (r.currentFireMode != z.currentFireMode <==> mode != z.currentFireMode && mode < firingStates && hasAmmo)
      && (r != z ==> r.currentFireMode == mode && r.phase == Firing(mode))
      && r.isZoomed == z.isZoomed
  {
  }

  /** Ending a firing sequence always lands in the active state. */
  lemma EndAlwaysActive(z: Zoom)
    ensures EndFiringSequence(z).phase == Active && EndFiringSequence(z).isZoomed == z.isZoomed
  {
  }

  /** Progress never exceeds one, and once the zoom has started it is never
      negative; it reaches one when a whole zoom time has elapsed. */
  lemma ProgressBounds(now: real, start: real, zoomTime: real)
    requires zoomTime > 0.0
    ensures Progress(now, start, zoomTime) <= 1.0
    ensures now >= start ==> Progress(now, start, zoomTime) >= 0.0
    ensures now >= start + zoomTime ==> Progress(now, start, zoomTime) == 1.0
  {
    var p := (now - start) / zoomTime;
    assert p * zoomTime == now - start;
  }

  /** The field of view stays between the default and the minimum while
      zooming in, and sits at the minimum once fully zoomed: it never passes
      the minimum. */
  lemma FOVNeverPastMinimum(now: real, start: real, zoomTime: real, defaultFOV: real, minFOV: real)
    requires zoomTime > 0.0 && minFOV <= defaultFOV && now >= start
    ensures var fov := ZoomFOV(defaultFOV, minFOV, Progress(now, start, zoomTime));
      && minFOV <= fov <= defaultFOV
      && (now >= start + zoomTime ==> fov == minFOV)
  {
    ProgressBounds(now, start, zoomTime);
    var p := Progress(now, start, zoomTime);
    ScaleBetween(defaultFOV - minFOV, p);
  }

  /** A fraction of a non-negative span lies within the span. */
  lemma ScaleBetween(span: real, p: real)
    requires span >= 0.0 && 0.0 <= p <= 1.0
    ensures 0.0 <= span * p <= span
  {
    assert span - span * p == span * (1.0 - p);
  }

  /** Later ticks never widen the view again while zooming in. */
  lemma FOVNarrowsOverTime(t1: real, t2: real, start: real, zoomTime: real, defaultFOV: real, minFOV: real)
    requires zoomTime > 0.0 && minFOV <= defaultFOV && t1 <= t2
    ensures ZoomFOV(defaultFOV, minFOV, Progress(t2, start, zoomTime))
         <= ZoomFOV(defaultFOV, minFOV, Progress(t1, start, zoomTime))
  {
    var p1 := Progress(t1, start, zoomTime);
    var p2 := Progress(t2, start, zoomTime);
    assert (t1 - start) / zoomTime <= (t2 - start) / zoomTime by {
      DivMonotone(t1 - start, t2 - start, zoomTime);
    }
    assert p1 <= p2;
    var span := defaultFOV - minFOV;
    assert span * p2 - span * p1 == span * (p2 - p1);
    assert span * (p2 - p1) >= 0.0;
  }

  lemma DivMonotone(a: real, b: real, d: real)
    requires d > 0.0 && a <= b
    ensures a / d <= b / d
  {
    assert b / d - a / d == (b - a) / d;
  }

  /** The tick changes the field of view only under its guard, and then only
      for a locally controlled owner with a camera; nothing else moves. */
  lemma TickGuarded(z: Zoom, alive: bool, hasOwner: bool, ownerWeaponIsThis: bool, now: real,
                    owner: OwnerView, defaultFOV: real, minFOV: real, zoomTime: real)
    requires zoomTime > 0.0
    ensures var r := ExecuteTick(z, alive, hasOwner, ownerWeaponIsThis, now, owner, defaultFOV, minFOV, zoomTime);
      && (r != z ==> z.tickRegistered && alive && hasOwner && ownerWeaponIsThis
                     && owner.locallyControlled && owner.hasCamera)
      && r.(lockedFOV := z.lockedFOV) == z
  {
  }

  /** Once fire is released no frame changes the zoom any more: the field of
      view stays where the last tick left it until fire is pressed again. */
  lemma ReleaseFreezesZoom(z: Zoom, alive: bool, hasOwner: bool, ownerWeaponIsThis: bool, now: real,
                           owner: OwnerView, defaultFOV: real, minFOV: real, zoomTime: real)
    requires zoomTime > 0.0
    ensures var stopped := PendingFireStopped(z);
      && ExecuteTick(stopped, alive, hasOwner, ownerWeaponIsThis, now, owner, defaultFOV, minFOV, zoomTime) == stopped
      && stopped.lockedFOV == z.lockedFOV
  {
  }
}
