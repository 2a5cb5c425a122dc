/**
 * What both sequencers do outside themselves: the calls they make on their
 * listener, the one interactive overlay (an InfillionAdManager) they may
 * own, and the failsafe runnables they post on the main-looper handler.
 */
module Handoff {
  import opened Wrappers
  import opened AdTypes
  import opened Media

  datatype PlayerAction = PLAY | SEEK_AND_PAUSE

  /** The live InfillionAdManager, reduced to what it was started with. */
  datatype Overlay = Overlay(vastConfigUrl: Option<string>, adType: AdType)

  /** A failsafe runnable posted on the handler; the id stands for the runnable's identity. */
  datatype Timer = Timer(id: nat, delayMs: int)

  /** Listener calls (both listener interfaces), overlay starts and stops, handler posts and removals. */
  datatype Command =
    | PlayMediaSource(source: MediaSource, notifyOfCompletion: bool)
    | PlayAdBreak(breakSource: Option<MediaSource>)
    | ControlPlayer(action: PlayerAction, seekPositionMs: int)
    | AdPodComplete
    | AdBreadComplete
    | SkipToContent
    | StartOverlay(vastConfigUrl: Option<string>, adType: AdType)
    | DestroyOverlay
    | ArmTimer(timer: Timer)
    | CancelTimer(timer: Timer)

  const FAILSAFE_MS_PER_SECOND: int := 2000

  /** The failsafe bounds an overlay to twice its ad's nominal duration. */
  function FailsafeDelayMs(durationSeconds: int): (ms: int)
    ensures ms == 2 * (durationSeconds * MS_PER_SECOND)
  {
    durationSeconds * FAILSAFE_MS_PER_SECOND
  }

  /**
   * infillionAdManager is the live overlay; failsafeRunnable the runnable
   * the manager last posted and has not cancelled; postedTimers every
   * runnable still queued on the handler; log the calls made so far.
   */
  datatype Effects = Effects(
    infillionAdManager: Option<Overlay>,
    failsafeRunnable: Option<Timer>,
    postedTimers: set<Timer>,
    nextTimerId: nat,
    log: seq<Command>)
  {
    /** Every runnable the manager knows of was created before nextTimerId. */
    predicate TimersIssued() {
      && (forall t | t in postedTimers :: t.id < nextTimerId)
      && (failsafeRunnable.Some? ==> failsafeRunnable.value.id < nextTimerId)
    }
  }

  const NoEffects: Effects := Effects(None, None, {}, 0, [])

  function Emit(e: Effects, c: Command): Effects {
    e.(log := e.log + [c])
  }

  /** cleanupInfillionAdManager: destroy and forget the live overlay, if there is one. */
  function CleanupInfillionAdManager(e: Effects): Effects {
    if e.infillionAdManager.Some? then Emit(e.(infillionAdManager := None), DestroyOverlay) else e
  }

  /** cancelFailsafeTimer: remove the last posted runnable from the handler and forget it. */
  function CancelFailsafeTimer(e: Effects): Effects {
    match e.failsafeRunnable
    case None => e
    case Some(t) => Emit(e.(failsafeRunnable := None, postedTimers := e.postedTimers - {t}), CancelTimer(t))
  }

  /**
   * startFailsafeTimer: post a new runnable for twice the ad's duration. A
   * runnable posted earlier and not cancelled stays queued.
   */
  function StartFailsafeTimer(e: Effects, durationSeconds: int): Effects {
    var t := Timer(e.nextTimerId, FailsafeDelayMs(durationSeconds));
    Emit(e.(failsafeRunnable := Some(t), postedTimers := e.postedTimers + {t}, nextTimerId := e.nextTimerId + 1), ArmTimer(t))
  }

  /** Create a new InfillionAdManager and start it, after tearing down the old one. */
  function StartInfillionAdManager(e: Effects, vastConfigUrl: Option<string>, adType: AdType): Effects {
    var cleaned := CleanupInfillionAdManager(e);
    Emit(cleaned.(infillionAdManager := Some(Overlay(vastConfigUrl, adType))), StartOverlay(vastConfigUrl, adType))
  }

  /** Teardown leaves no overlay, touches no timer, and a second teardown does nothing. */
  lemma CleanupIsIdempotent(e: Effects)
    ensures CleanupInfillionAdManager(e).infillionAdManager == None
    ensures CleanupInfillionAdManager(CleanupInfillionAdManager(e)) == CleanupInfillionAdManager(e)
    ensures CleanupInfillionAdManager(e).(infillionAdManager := e.infillionAdManager, log := e.log) == e
  {
  }

  /**
   * Cancelling dequeues exactly the runnable last posted, so it can no longer
   * fire; cancelling again does nothing.
   */
  lemma CancelIsIdempotent(e: Effects)
    ensures CancelFailsafeTimer(e).failsafeRunnable == None
    ensures CancelFailsafeTimer(CancelFailsafeTimer(e)) == CancelFailsafeTimer(e)
    ensures e.failsafeRunnable.Some? ==>
              CancelFailsafeTimer(e).postedTimers == e.postedTimers - {e.failsafeRunnable.value}
    ensures e.failsafeRunnable.None? ==> CancelFailsafeTimer(e) == e
  {
  }

  /**
   * Arming posts a runnable distinct from every runnable already queued,
   * with a delay of duration * 2000 ms, and records it as the one to cancel.
   */
  lemma ArmedTimerIsFresh(e: Effects, durationSeconds: int)
    requires e.TimersIssued()
    ensures var r := StartFailsafeTimer(e, durationSeconds);
            && r.TimersIssued()
            && r.failsafeRunnable.Some?
            && r.failsafeRunnable.value !in e.postedTimers
            && r.failsafeRunnable.value.delayMs == durationSeconds * 2000
            && r.postedTimers == e.postedTimers + {r.failsafeRunnable.value}
            && r.log == e.log + [ArmTimer(r.failsafeRunnable.value)]
  {
  }

  /**
   * At most one overlay: starting one destroys the previous one first, and
   * the new one is the live one afterwards.
   */
  lemma OneOverlayAtATime(e: Effects, vastConfigUrl: Option<string>, adType: AdType)
    ensures var r := StartInfillionAdManager(e, vastConfigUrl, adType);
            && r.infillionAdManager == Some(Overlay(vastConfigUrl, adType))
            && r.log == e.log + (if e.infillionAdManager.Some? then [DestroyOverlay] else []) + [StartOverlay(vastConfigUrl, adType)]
            && r.failsafeRunnable == e.failsafeRunnable && r.postedTimers == e.postedTimers
  {
  }
}
