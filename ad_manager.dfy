/**
 * AdManager as an object: the fields of the Java class updated in place,
 * each method proved to leave the object in the state the matching
 * BreakSequencer function computes. As in pod_manager.dfy, the listener is
 * the call log and the failsafe handler the set of queued runnables.
 */
module BreakManager {
  import opened Wrappers
  import opened AdTypes
  import opened Ads
  import opened Media
  import opened Timeline
  import opened Handoff
  import BS = BreakSequencer

  class AdManager {
    const hasViewGroup: bool
    var ads: seq<Ad>
    var mediaSource: Option<MediaSource>
    var currentAdIndexInSegment: nat
    var infillionAdManager: Option<Overlay>
    var failsafeRunnable: Option<Timer>
    var postedTimers: set<Timer>
    var nextTimerId: nat
    var calls: seq<Command>

    /** The object's fields read as a sequencer state. */
    function State(): BS.BreakState
      reads this
    {
      BS.BreakState(hasViewGroup, ads, mediaSource, currentAdIndexInSegment,
                    Effects(infillionAdManager, failsafeRunnable, postedTimers, nextTimerId, calls))
    }

    /** A new manager: no ads, no source yet, index 0, no overlay, nothing posted. */
    constructor(hasViewGroup: bool)
      ensures State() == BS.Initial(hasViewGroup)
    {
      this.hasViewGroup := hasViewGroup;
      ads := [];
      mediaSource := None;
      currentAdIndexInSegment := 0;
      infillionAdManager := None;
      failsafeRunnable := None;
      postedTimers := {};
      nextTimerId := 0;
      calls := [];
    }

    method OnStop()
      modifies this
      ensures State() == BS.OnStop(old(State()))
    {
      CleanupInfillionAdManager();
    }

    method SetCurrentAdBreak(ads: seq<Ad>)
      modifies this
      ensures State() == BS.SetCurrentAdBreak(old(State()), ads)
    {
      CleanupInfillionAdManager();
      this.ads := ads;
      currentAdIndexInSegment := 0;
      mediaSource := Some(BS.CreateMediaSource(ads));
    }

    method StartAdBread()
      modifies this
      ensures State() == BS.StartAdBread(old(State()))
    {
      CleanupInfillionAdManager();
      currentAdIndexInSegment := 0;
      calls := calls + [PlayAdBreak(mediaSource)];
      LaunchInfillionOverlayIfNecessary();
    }

    method IsPlayingInteractiveAd() returns (playing: bool)
      ensures playing == BS.IsPlayingInteractiveAd(State())
    {
      var currentAd := GetCurrentAd();
      playing := currentAd.Some? && currentAd.value.IsInfillionAd();
    }

    method OnPlaybackEnded()
      modifies this
      ensures State() == BS.OnPlaybackEnded(old(State()))
    {
      calls := calls + [AdBreadComplete];
    }

    method OnMediaItemCompleted()
      modifies this
      ensures State() == BS.OnMediaItemCompleted(old(State()))
    {
      var currentAd := GetCurrentAd();
      if currentAd.None? {
        return;
      }
      MoveToNextAd();
    }

    /** The live overlay's completion callback. */
    method OnOverlayComplete(receivedCredit: bool)
      requires infillionAdManager.Some?
      modifies this
      ensures State() == BS.OnOverlayComplete(old(State()), receivedCredit)
    {
      OnInfillionAdComplete(receivedCredit);
    }

    /** A queued failsafe runnable runs: the handler drops it, then it forces a completion without credit. */
    method OnFailsafeFired(timer: Timer)
      requires timer in postedTimers
      modifies this
      ensures State() == BS.OnFailsafeFired(old(State()), timer)
    {
      postedTimers := postedTimers - {timer};
      OnInfillionAdComplete(false);
    }

    method GetCurrentAd() returns (ad: Option<Ad>)
      ensures ad == BS.CurrentAd(State())
    {
      if currentAdIndexInSegment < |ads| {
        return Some(ads[currentAdIndexInSegment]);
      }
      return None;
    }

    method MoveToNextAd()
      modifies this
      ensures State() == BS.MoveToNextAd(old(State()))
    {
      currentAdIndexInSegment := currentAdIndexInSegment + 1;
      if currentAdIndexInSegment >= |ads| {
        calls := calls + [AdBreadComplete];
      } else {
        LaunchInfillionOverlayIfNecessary();
      }
    }

    method ShowInfillionRenderer(adItem: Ad)
      modifies this
      ensures State() == BS.ShowInfillionRenderer(old(State()), adItem)
    {
      if !hasViewGroup {
        OnInfillionAdComplete(false);
        return;
      }
      CleanupInfillionAdManager();
      infillionAdManager := Some(Overlay(adItem.vastConfigUrl, adItem.adType));
      calls := calls + [StartOverlay(adItem.vastConfigUrl, adItem.adType)];
      if adItem.IsInfillionAd() {
        StartFailsafeTimer(adItem);
      }
    }

    method CleanupInfillionAdManager()
      modifies this
      ensures State() == old(State()).(effects := Handoff.CleanupInfillionAdManager(old(State()).effects))
    {
      if infillionAdManager.Some? {
        calls := calls + [DestroyOverlay];
        infillionAdManager := None;
      }
    }

    method LaunchInfillionOverlayIfNecessary()
      modifies this
      ensures State() == BS.LaunchInfillionOverlayIfNecessary(old(State()))
    {
      var currentAd := GetCurrentAd();
      if currentAd.None? || !currentAd.value.IsInfillionAd() {
        return;
      }
      var endPosition := CalculateEndPositionOfCurrentAd();
      calls := calls + [ControlPlayer(SEEK_AND_PAUSE, endPosition - SEEK_GUARD_MS)];
      ShowInfillionRenderer(currentAd.value);
    }

    method OnInfillionAdComplete(receivedCredit: bool)
      modifies this
      ensures State() == BS.OnInfillionAdComplete(old(State()), receivedCredit)
    {
      CancelFailsafeTimer();
      CleanupInfillionAdManager();
      if receivedCredit {
        calls := calls + [SkipToContent];
      } else {
        calls := calls + [ControlPlayer(PLAY, 0)];
      }
    }

    /** Where the current ad ends in the break's timeline, summed item by item. */
    method CalculateEndPositionOfCurrentAd() returns (positionMs: int)
      ensures positionMs == BS.EndPositionOfCurrentAd(State())
    {
      positionMs := 0;
      var i := 0;
      while i <= currentAdIndexInSegment
        invariant 0 <= i <= currentAdIndexInSegment + 1
        invariant positionMs == EndMs(BS.Durations(ads), i)
      {
        if i < |ads| {
          positionMs := positionMs + ads[i].duration * MS_PER_SECOND;
        }
        i := i + 1;
      }
    }

    /** Post a new runnable for twice the ad's duration and remember it as the one to cancel. */
    method StartFailsafeTimer(idvxAd: Ad)
      modifies this
      ensures State() == old(State()).(effects := Handoff.StartFailsafeTimer(old(State()).effects, idvxAd.duration))
    {
      var failsafeTimeoutMs := idvxAd.duration * FAILSAFE_MS_PER_SECOND;
      failsafeRunnable := Some(Timer(nextTimerId, failsafeTimeoutMs));
      nextTimerId := nextTimerId + 1;
      postedTimers := postedTimers + {failsafeRunnable.value};
      calls := calls + [ArmTimer(failsafeRunnable.value)];
    }

    method CancelFailsafeTimer()
      modifies this
      ensures State() == old(State()).(effects := Handoff.CancelFailsafeTimer(old(State()).effects))
    {
      if failsafeRunnable.Some? {
        postedTimers := postedTimers - {failsafeRunnable.value};
        calls := calls + [CancelTimer(failsafeRunnable.value)];
        failsafeRunnable := None;
      }
    }
  }
}
