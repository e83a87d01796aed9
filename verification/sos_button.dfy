/**
 * The SOS button: a long press (3000 ms) arms and then activates the
 * emergency mode, which dispatches ACTIVATE_SOS, asks once for a location
 * fix, opens the camera and photographs every 10000 ms, and appends an alert
 * record to local storage; an explicit stop dispatches DEACTIVATE_SOS and
 * cancels the photo interval.
 *
 * Time is not modelled. Each timer callback is an event, a method of the
 * class: the activation timeout firing, one tick of a 100 ms progress
 * interval, one tick of a photo interval, the geolocation callback. Whether
 * geolocation exists and whether the camera opened are inputs of the
 * activation; timestamps and image data are inputs of the events that write
 * them.
 *
 * Handlers capture the global state of the render they were created in, so
 * an activation writes the user id and location that the store held when
 * the press began, and so does every photo of that activation's interval.
 * That captured view is a `Snapshot`, carried by each pending timer.
 */
module Sos {

  import opened Options
  import opened AppContext

  /** The arming ring counts in thirtieths: 30 steps of 100/30 per cent, one per 100 ms tick. */
  const FullProgress: nat := 30
  const ActivationDelayMs: nat := 3000
  const ProgressTickMs: nat := 100

  /** What a handler's closure saw of the global state when it was rendered. */
  datatype Snapshot = Snapshot(userId: Option<string>, location: Option<Location>)

  /** `state.user?.id` and `state.location`, as a handler's closure reads them. */
  function SnapshotOf(s: AppState): Snapshot {
    Snapshot(if s.user.Some? then Some(s.user.value.id) else None, s.location)
  }

  datatype AlertKind = SosActivated

  datatype AlertRecord = AlertRecord(userId: Option<string>, timestamp: string,
                                     location: Option<Location>, kind: AlertKind)

  datatype PhotoRecord = PhotoRecord(timestamp: string, image: string, location: Option<Location>)

  /** The pending timer behind an optional handle, as a list of zero or one timers. */
  function Pending(t: Option<Snapshot>): seq<Snapshot> {
    if t.Some? then [t.value] else []
  }

  /** One tick of a progress interval: one step up, clamped at the full ring. */
  function Advance(p: nat): nat {
    if p >= FullProgress then FullProgress else p + 1
  }

  /** The progress after `k` ticks of one interval, starting from `p`. */
  function AdvanceBy(p: nat, k: nat): nat
    decreases k
  {
    if k == 0 then p else Advance(AdvanceBy(p, k - 1))
  }

  /** From a press, the ring fills one step per tick and is full after exactly 30 ticks (3000 ms). */
  lemma {:induction false} ArmingProgress(k: nat)
    ensures AdvanceBy(0, k) == if k < FullProgress then k else FullProgress
    decreases k
  {
    if k > 0 {
      ArmingProgress(k - 1);
    }
  }

  /**
   * The ticks that fit into the activation delay are exactly the ticks that
   * fill the ring: a press held until the timeout shows a full ring at it.
   */
  lemma {:induction false} RingFillsWithinDelay()
    ensures ActivationDelayMs / ProgressTickMs == FullProgress
    ensures AdvanceBy(0, ActivationDelayMs / ProgressTickMs) == FullProgress
    ensures forall k: nat :: k < ActivationDelayMs / ProgressTickMs ==> AdvanceBy(0, k) < FullProgress
  {
    ArmingProgress(FullProgress);
    forall k: nat | k < ActivationDelayMs / ProgressTickMs
      ensures AdvanceBy(0, k) < FullProgress
    {
      ArmingProgress(k);
    }
  }

  /** During uninterrupted arming the ring never moves backwards and never passes full. */
  lemma {:induction false} ProgressIsMonotone(p: nat, j: nat, k: nat)
    requires p <= FullProgress && j <= k
    ensures p <= AdvanceBy(p, j) <= AdvanceBy(p, k) <= FullProgress
    decreases k
  {
    if j < k {
      ProgressIsMonotone(p, j, k - 1);
    } else if k > 0 {
      ProgressIsMonotone(p, j - 1, k - 1);
    }
  }

  class SosButton {
    const store: Store
    var pressing: bool
    /** Arming progress in thirtieths of the ring. */
    var progress: nat
    var cameraActive: bool
    /** Progress intervals still running; release does not clear them. */
    var progressIntervals: nat
    /** The pending activation timeout that `longPressTimer` refers to, if any. */
    var heldTimer: Option<Snapshot>
    /** Pending activation timeouts whose handle a later press overwrote: nothing can cancel them. */
    var lostTimers: seq<Snapshot>
    /** The running photo interval that `cameraInterval` refers to, if any. */
    var captureTimer: Option<Snapshot>
    /** Running photo intervals whose handle a later activation overwrote. */
    var lostCaptures: seq<Snapshot>
    /** Geolocation requests whose callback has not run yet. */
    var pendingFixes: nat
    /** The `emergencyAlerts` list of local storage. */
    var emergencyAlerts: seq<AlertRecord>
    /** The `sosPhotos` list of local storage. */
    var sosPhotos: seq<PhotoRecord>

    ghost predicate Valid()
      reads this, store
    {
      && store.Valid()
      && progress <= FullProgress
      && (cameraActive <==> captureTimer.Some?)
    }

    /** A freshly mounted button over the alert and photo lists already in storage. */
    constructor (store: Store, alerts: seq<AlertRecord>, photos: seq<PhotoRecord>)
      requires store.Valid()
      ensures Valid() && this.store == store
      ensures !pressing && progress == 0 && !cameraActive && progressIntervals == 0
      ensures heldTimer == None && lostTimers == [] && captureTimer == None && lostCaptures == []
      ensures pendingFixes == 0 && emergencyAlerts == alerts && sosPhotos == photos
    {
      this.store := store;
      pressing, progress, cameraActive := false, 0, false;
      progressIntervals := 0;
      heldTimer, lostTimers := None, [];
      captureTimer, lostCaptures := None, [];
      pendingFixes := 0;
      emergencyAlerts, sosPhotos := alerts, photos;
    }

    /**
     * Mouse-down or touch-start on the hold button, which is shown only while
     * SOS is inactive: starts arming, schedules the activation timeout in the
     * handle (losing the handle of one still pending) and starts one more
     * progress interval.
     */
    method PressStart()
      requires Valid() && !store.state.sosActive
      modifies this`pressing, this`progress, this`heldTimer, this`lostTimers, this`progressIntervals
      ensures Valid()
      ensures pressing && progress == 0
      ensures heldTimer == Some(SnapshotOf(store.state))
      ensures lostTimers == old(lostTimers) + Pending(old(heldTimer))
      ensures progressIntervals == old(progressIntervals) + 1
    {
      pressing := true;
      progress := 0;
      lostTimers := lostTimers + Pending(heldTimer);
      heldTimer := Some(SnapshotOf(store.state));
      progressIntervals := progressIntervals + 1;
    }

    /**
     * Mouse-up, mouse-leave or touch-end: cancels the timeout in the handle
     * only, and resets the ring; running progress intervals go on.
     */
    method Release()
      requires Valid() && !store.state.sosActive
      modifies this`pressing, this`progress, this`heldTimer
      ensures Valid()
      ensures !pressing && progress == 0 && heldTimer == None
    {
      heldTimer := None;
      pressing := false;
      progress := 0;
    }

    /** One tick of one running progress interval; an interval that sees a full ring clears itself. */
    method ProgressTick()
      requires Valid() && progressIntervals > 0
      modifies this`progress, this`progressIntervals
      ensures Valid()
      ensures progress == Advance(old(progress))
      ensures progressIntervals == old(progressIntervals) - (if old(progress) >= FullProgress then 1 else 0)
    {
      if progress >= FullProgress {
        progress := FullProgress;
        progressIntervals := progressIntervals - 1;
      } else {
        progress := progress + 1;
      }
    }

    /**
     * The activation itself, run with the view `ctx` its closure captured:
     * ACTIVATE_SOS, a location request when geolocation exists, a photo
     * interval when the camera opened, then exactly one alert record when
     * local storage accepts the write (`written`); a refused write throws
     * and the alert list stays as it was. No photo is taken here.
     */
    method StartSos(ctx: Snapshot, geolocation: bool, camera: bool, written: bool, now: string)
      requires Valid()
      modifies store, this`pendingFixes, this`cameraActive, this`captureTimer, this`lostCaptures,
        this`emergencyAlerts
      ensures Valid()
      ensures store.log == old(store.log) + [ActivateSos]
      ensures store.state == Reduce(old(store.state), ActivateSos) && store.state.sosActive
      ensures pendingFixes == old(pendingFixes) + (if geolocation then 1 else 0)
      ensures camera ==> cameraActive && captureTimer == Some(ctx)
                         && lostCaptures == old(lostCaptures) + Pending(old(captureTimer))
      ensures !camera ==> cameraActive == old(cameraActive) && captureTimer == old(captureTimer)
                          && lostCaptures == old(lostCaptures)
      ensures emergencyAlerts == old(emergencyAlerts)
        + (if written then [AlertRecord(ctx.userId, now, ctx.location, SosActivated)] else [])
    {
      store.Dispatch(ActivateSos);
      if geolocation {
        pendingFixes := pendingFixes + 1;
      }
      if camera {
        cameraActive := true;
        lostCaptures := lostCaptures + Pending(captureTimer);
        captureTimer := Some(ctx);
      }
      if written {
        emergencyAlerts := emergencyAlerts + [AlertRecord(ctx.userId, now, ctx.location, SosActivated)];
      }
    }

    /** The activation timeout in the handle fires: activation, then the ring shows full. */
    method HeldTimerFires(geolocation: bool, camera: bool, written: bool, now: string)
      requires Valid() && heldTimer.Some?
      modifies store, this`pressing, this`progress, this`heldTimer, this`pendingFixes,
        this`cameraActive, this`captureTimer, this`lostCaptures, this`emergencyAlerts
      ensures Valid()
      ensures heldTimer == None && !pressing && progress == FullProgress
      ensures store.log == old(store.log) + [ActivateSos] && store.state.sosActive
      ensures pendingFixes == old(pendingFixes) + (if geolocation then 1 else 0)
      ensures cameraActive == (camera || old(cameraActive))
      ensures captureTimer == if camera then old(heldTimer) else old(captureTimer)
      ensures lostCaptures == old(lostCaptures) + (if camera then Pending(old(captureTimer)) else [])
      ensures emergencyAlerts == old(emergencyAlerts)
        + (if written then [AlertRecord(old(heldTimer).value.userId, now, old(heldTimer).value.location, SosActivated)] else [])
    {
      var ctx := heldTimer.value;
      heldTimer := None;
      StartSos(ctx, geolocation, camera, written, now);
      pressing := false;
      progress := FullProgress;
    }

    /** A timeout whose handle was lost fires; a release could not cancel it. */
    method LostTimerFires(i: nat, geolocation: bool, camera: bool, written: bool, now: string)
      requires Valid() && i < |lostTimers|
      modifies store, this`pressing, this`progress, this`lostTimers, this`pendingFixes,
        this`cameraActive, this`captureTimer, this`lostCaptures, this`emergencyAlerts
      ensures Valid()
      ensures lostTimers == old(lostTimers[..i] + lostTimers[i + 1..])
      ensures !pressing && progress == FullProgress
      ensures store.log == old(store.log) + [ActivateSos] && store.state.sosActive
      ensures pendingFixes == old(pendingFixes) + (if geolocation then 1 else 0)
      ensures cameraActive == (camera || old(cameraActive))
      ensures captureTimer == if camera then Some(old(lostTimers[i])) else old(captureTimer)
      ensures lostCaptures == old(lostCaptures) + (if camera then Pending(old(captureTimer)) else [])
      ensures emergencyAlerts == old(emergencyAlerts)
        + (if written then [AlertRecord(old(lostTimers[i]).userId, now, old(lostTimers[i]).location, SosActivated)] else [])
    {
      var ctx := lostTimers[i];
      lostTimers := lostTimers[..i] + lostTimers[i + 1..];
      StartSos(ctx, geolocation, camera, written, now);
      pressing := false;
      progress := FullProgress;
    }

    /** The geolocation callback of an earlier activation delivers a fix. */
    method LocationFixArrives(fix: Location)
      requires Valid() && pendingFixes > 0
      modifies store, this`pendingFixes
      ensures Valid()
      ensures pendingFixes == old(pendingFixes) - 1
      ensures store.log == old(store.log) + [SetLocation(fix)]
      ensures store.state == Reduce(old(store.state), SetLocation(fix)) && store.state.location == Some(fix)
    {
      store.Dispatch(SetLocation(fix));
      pendingFixes := pendingFixes - 1;
    }

    /**
     * A tick of a running photo interval whose closure saw `ctx`: one photo,
     * stamped with that view's location, is appended while the hidden video
     * element is mounted, which is while SOS is active, and local storage
     * accepts the write (`written`); otherwise nothing is stored.
     */
    method CaptureTick(ctx: Snapshot, written: bool, now: string, image: string)
      requires Valid()
      requires captureTimer == Some(ctx) || ctx in lostCaptures
      modifies this`sosPhotos
      ensures Valid()
      ensures sosPhotos == old(sosPhotos)
        + (if store.state.sosActive && written then [PhotoRecord(now, image, ctx.location)] else [])
    {
      if store.state.sosActive && written {
        sosPhotos := sosPhotos + [PhotoRecord(now, image, ctx.location)];
      }
    }

    /** The Stop SOS button of the overlay: no alert is written for the stop. */
    method StopSos()
      requires Valid() && store.state.sosActive
      modifies store, this`cameraActive, this`captureTimer
      ensures Valid()
      ensures store.log == old(store.log) + [DeactivateSos]
      ensures store.state == Reduce(old(store.state), DeactivateSos) && !store.state.sosActive
      ensures !cameraActive && captureTimer == None
    {
      store.Dispatch(DeactivateSos);
      cameraActive := false;
      captureTimer := None;
    }
  }

  /**
   * A press held for the full 3000 ms: the ring fills one step per tick up to
   * full, then the timeout fires and, when local storage accepts the write,
   * exactly one alert is appended, carrying what the store held when the
   * press began; no photo is taken yet.
   */
  method HoldToActivate(b: SosButton, geolocation: bool, camera: bool, written: bool, now: string)
    requires b.Valid() && !b.store.state.sosActive
    modifies b, b.store
    ensures b.Valid() && b.store.state.sosActive && !b.pressing && b.progress == FullProgress
    ensures b.store.log == old(b.store.log) + [ActivateSos]
    ensures b.emergencyAlerts == old(b.emergencyAlerts)
      + (if written then [AlertRecord(SnapshotOf(old(b.store.state)).userId, now, old(b.store.state).location, SosActivated)] else [])
    ensures b.sosPhotos == old(b.sosPhotos)
  {
    b.PressStart();
    var k := 0;
    while k < FullProgress
      invariant 0 <= k <= FullProgress
      invariant b.Valid() && b.progressIntervals > 0
      invariant b.progress == AdvanceBy(0, k)
      invariant b.heldTimer == Some(SnapshotOf(old(b.store.state)))
      invariant b.store.state == old(b.store.state) && b.store.log == old(b.store.log)
      invariant b.emergencyAlerts == old(b.emergencyAlerts) && b.sosPhotos == old(b.sosPhotos)
    {
      ArmingProgress(k);
      b.ProgressTick();
      k := k + 1;
    }
    b.HeldTimerFires(geolocation, camera, written, now);
  }

  /**
   * A press released before the timeout fired leaves no activation behind
   * when it was the only press: no alert, no dispatch, no pending timeout.
   */
  method ShortHold(b: SosButton, ticks: nat)
    requires b.Valid() && !b.store.state.sosActive
    requires b.heldTimer == None && b.lostTimers == []
    requires ticks < FullProgress
    modifies b
    ensures b.Valid()
    ensures b.heldTimer == None && b.lostTimers == [] && !b.pressing && b.progress == 0
    ensures b.emergencyAlerts == old(b.emergencyAlerts) && b.store.log == old(b.store.log)
  {
    b.PressStart();
    var k := 0;
    while k < ticks
      invariant 0 <= k <= ticks
      invariant b.Valid() && b.progressIntervals > 0
      invariant b.progress == k
      invariant b.heldTimer.Some? && b.lostTimers == []
      invariant b.emergencyAlerts == old(b.emergencyAlerts) && b.store.log == old(b.store.log)
      invariant !b.store.state.sosActive
    {
      b.ProgressTick();
      k := k + 1;
    }
    b.Release();
  }

  /**
   * Two presses before the first timeout fires lose its handle: after the
   * release, that timeout is still pending, and when it fires SOS activates
   * and, when local storage accepts it, an alert with the first press's view
   * is written although nobody is pressing the button.
   */
  method DoublePressActivatesAfterRelease(b: SosButton, written: bool, now: string)
    requires b.Valid() && !b.store.state.sosActive
    requires b.heldTimer == None && b.lostTimers == []
    modifies b, b.store
    ensures b.Valid()
    ensures b.heldTimer == None && b.lostTimers == [] && !b.pressing
    ensures b.store.state.sosActive
    ensures b.store.log == old(b.store.log) + [ActivateSos]
    ensures b.emergencyAlerts == old(b.emergencyAlerts)
      + (if written then [AlertRecord(SnapshotOf(old(b.store.state)).userId, now, old(b.store.state).location, SosActivated)] else [])
  {
    ghost var view := SnapshotOf(b.store.state);
    b.PressStart();
    assert b.heldTimer == Some(view);
    b.PressStart();
    b.Release();
    assert b.lostTimers == [view];
    assert b.store.log == old(b.store.log) && b.emergencyAlerts == old(b.emergencyAlerts);
    b.LostTimerFires(0, false, false, written, now);
    assert b.emergencyAlerts == old(b.emergencyAlerts)
      + (if written then [AlertRecord(view.userId, now, view.location, SosActivated)] else []);
  }
}
