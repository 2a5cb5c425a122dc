/**
 * AdPodManager as an object: the fields of the Java class, updated in place
 * by methods that follow its code line by line. Each method is proved to
 * leave the object in the state the matching PodSequencer function
 * computes, so everything proved about those functions holds of the object.
 *
 * The listener is the call log `calls`; the failsafe handler is the set of
 * runnables still queued on it (`postedTimers`), with `nextTimerId` standing
 * for the identity of the next runnable created.
 */
module PodManager {
  import opened Wrappers
  import opened AdTypes
  import opened AdPodItems
  import opened Media
  import opened Timeline
  import opened Segmenter
  import opened Handoff
  import PS = PodSequencer

  class AdPodManager {
    const hasViewGroup: bool
    var adPod: seq<AdPodItem>
    var adSegments: seq<AdSegment>
    var currentSegmentIndex: nat
    var currentAdIndexInSegment: nat
    var truexCreditReceived: bool
    var infillionAdManager: Option<Overlay>
    var failsafeRunnable: Option<Timer>
    var postedTimers: set<Timer>
    var nextTimerId: nat
    var calls: seq<Command>

    /** The object's fields read as a sequencer state. */
    function State(): PS.PodState
      reads this
    {
      PS.PodState(hasViewGroup, adPod, adSegments, currentSegmentIndex, currentAdIndexInSegment, truexCreditReceived,
                  Effects(infillionAdManager, failsafeRunnable, postedTimers, nextTimerId, calls))
    }

    /** A new manager: empty pod, position 0, no credit, no overlay, nothing posted. */
    constructor(hasViewGroup: bool)
      ensures State() == PS.Initial(hasViewGroup)
    {
      this.hasViewGroup := hasViewGroup;
      adPod := [];
      adSegments := [];
      currentSegmentIndex := 0;
      currentAdIndexInSegment := 0;
      truexCreditReceived := false;
      infillionAdManager := None;
      failsafeRunnable := None;
      postedTimers := {};
      nextTimerId := 0;
      calls := [];
    }

    method OnStop()
      modifies this
      ensures State() == PS.OnStop(old(State()))
    {
      CleanupInfillionAdManager();
    }

    method SetAdPod(adPod: seq<AdPodItem>)
      modifies this
      ensures State() == PS.SetAdPod(old(State()), adPod)
    {
      CleanupInfillionAdManager();
      this.adPod := adPod;
      adSegments := CreateAdSegments(adPod);
      currentSegmentIndex := 0;
      currentAdIndexInSegment := 0;
      truexCreditReceived := false;
    }

    method StartAdPod()
      requires PS.WellFormed(State())
      modifies this
      ensures State() == PS.StartAdPod(old(State()))
    {
      CleanupInfillionAdManager();
      currentSegmentIndex := 0;
      currentAdIndexInSegment := 0;
      truexCreditReceived := false;
      PlayNextSegment();
    }

    method IsPlayingInteractiveAd() returns (playing: bool)
      ensures playing == PS.IsPlayingInteractiveAd(State())
    {
      var currentAd := GetCurrentAd();
      playing := currentAd.Some? && currentAd.value.IsInfillionAd();
    }

    method OnPlaybackEnded()
      requires PS.WellFormed(State())
      modifies this
      ensures State() == PS.OnPlaybackEnded(old(State()))
    {
      currentSegmentIndex := currentSegmentIndex + 1;
      PlayNextSegment();
    }

    method OnMediaItemCompleted()
      requires PS.Valid(State())
      modifies this
      ensures State() == PS.OnMediaItemCompleted(old(State()))
    {
      var currentAd := GetCurrentAd();
      if currentAd.None? {
        return;
      }
      MoveToNextAd();
    }

    /** The live overlay's completion callback. */
    method OnOverlayComplete(receivedCredit: bool)
      requires PS.Valid(State()) && infillionAdManager.Some?
      modifies this
      ensures State() == PS.OnOverlayComplete(old(State()), receivedCredit)
    {
      OnInfillionAdComplete(receivedCredit);
    }

    /** A queued failsafe runnable runs: the handler drops it, then it forces a completion without credit. */
    method OnFailsafeFired(timer: Timer)
      requires PS.Valid(State()) && timer in postedTimers
      modifies this
      ensures State() == PS.OnFailsafeFired(old(State()), timer)
    {
      postedTimers := postedTimers - {timer};
      OnInfillionAdComplete(false);
    }

    method GetCurrentSegment() returns (segment: Option<AdSegment>)
      ensures segment == PS.CurrentSegment(State())
    {
      if currentSegmentIndex < |adSegments| {
        return Some(adSegments[currentSegmentIndex]);
      }
      return None;
    }

    method GetCurrentAd() returns (ad: Option<AdPodItem>)
      ensures ad == PS.CurrentAd(State())
    {
      var currentSegment := GetCurrentSegment();
      if currentSegment.Some? && currentAdIndexInSegment < |currentSegment.value.ads| {
        return Some(currentSegment.value.ads[currentAdIndexInSegment]);
      }
      return None;
    }

    method PlayNextSegment()
      requires PS.WellFormed(State())
      modifies this
      ensures State() == PS.PlayNextSegment(old(State()))
      decreases PS.SegmentsLeft(State()), PS.SegmentLength(State()) + 1, 0
    {
      if currentSegmentIndex >= |adSegments| {
        calls := calls + [AdPodComplete];
        return;
      }
      var segment := adSegments[currentSegmentIndex];
      currentAdIndexInSegment := 0;
      var notifyOfCompletion := segment.isConcatenated;
      calls := calls + [PlayMediaSource(segment.mediaSource, notifyOfCompletion)];
      LaunchInfillionOverlayIfNecessary();
    }

    method MoveToNextAd()
      requires PS.Valid(State())
      modifies this
      ensures State() == PS.MoveToNextAd(old(State()))
      decreases PS.SegmentsLeft(State()), PS.AdsLeftInSegment(State()), 0
    {
      ghost var st := State();
      var currentSegment := GetCurrentSegment();
      if currentSegment.None? {
        return;
      }
      if currentSegment.value.isConcatenated {
        currentAdIndexInSegment := currentAdIndexInSegment + 1;
        if currentAdIndexInSegment >= |currentSegment.value.ads| {
          currentSegmentIndex := currentSegmentIndex + 1;
          PS.MoveToNextAdEndsSegment(st, State());
          PlayNextSegment();
        } else {
          PS.MoveToNextAdInSegment(st, State());
          LaunchInfillionOverlayIfNecessary();
        }
      } else {
        currentSegmentIndex := currentSegmentIndex + 1;
        PS.MoveToNextAdFromIndividual(st, State());
        PlayNextSegment();
      }
    }

    method ShowInfillionRenderer(adItem: AdPodItem)
      requires PS.Valid(State())
      modifies this
      ensures State() == PS.ShowInfillionRenderer(old(State()), adItem)
      decreases PS.SegmentsLeft(State()), PS.AdsLeftInSegment(State()), 2
    {
      if !hasViewGroup {
        OnInfillionAdComplete(false);
        return;
      }
      CleanupInfillionAdManager();
      infillionAdManager := Some(Overlay(adItem.vastConfigUrl, adItem.Type()));
      calls := calls + [StartOverlay(adItem.vastConfigUrl, adItem.Type())];
      if adItem.IsInfillionAd() {
        StartFailsafeTimer(adItem);
      }
    }

    method CleanupInfillionAdManager()
      modifies this
      ensures State() == old(State()).(effects := Handoff.CleanupInfillionAdManager(old(State()).effects))
    {
      if infillionAdManager.Some? {
        calls := calls + [DestroyOverlay];
        infillionAdManager := None;
      }
    }

    method LaunchInfillionOverlayIfNecessary()
      requires PS.Valid(State())
      modifies this
      ensures State() == PS.LaunchInfillionOverlayIfNecessary(old(State()))
      decreases PS.SegmentsLeft(State()), PS.AdsLeftInSegment(State()), 3
    {
      var currentAd := GetCurrentAd();
      if currentAd.None? || !currentAd.value.IsInfillionAd() {
        return;
      }
      var endPosition := CalculateEndPositionOfCurrentAd();
      calls := calls + [ControlPlayer(SEEK_AND_PAUSE, endPosition - SEEK_GUARD_MS)];
      ShowInfillionRenderer(currentAd.value);
    }

    method OnInfillionAdComplete(receivedCredit: bool)
      requires PS.Valid(State())
      modifies this
      ensures State() == PS.OnInfillionAdComplete(old(State()), receivedCredit)
      decreases PS.SegmentsLeft(State()), PS.AdsLeftInSegment(State()), 1
    {
      ghost var st := State();
      CancelFailsafeTimer();
      CleanupInfillionAdManager();
      PS.OnInfillionAdCompleteSteps(st, State(), receivedCredit);
      var currentAd := GetCurrentAd();
      if currentAd.Some? && currentAd.value.Type() == IDVX {
        var currentSegment := GetCurrentSegment();
        if currentSegment.Some? && currentSegment.value.isConcatenated {
          calls := calls + [ControlPlayer(PLAY, 0)];
          return;
        }
      }
      if receivedCredit {
        truexCreditReceived := true;
        calls := calls + [SkipToContent];
        return;
      }
      MoveToNextAd();
    }

    /** Where the current ad ends in a concatenated timeline, summed item by item; 0 in an individual segment. */
    method CalculateEndPositionOfCurrentAd() returns (positionMs: int)
      ensures positionMs == PS.EndPositionOfCurrentAd(State())
    {
      var currentSegment := GetCurrentSegment();
      if currentSegment.None? || !currentSegment.value.isConcatenated {
        return 0;
      }
      var ads := currentSegment.value.ads;
      positionMs := 0;
      var i := 0;
      while i <= currentAdIndexInSegment
        invariant 0 <= i <= currentAdIndexInSegment + 1
        invariant positionMs == EndMs(PS.Durations(ads), i)
      {
        if i < |ads| {
          positionMs := positionMs + ads[i].duration * MS_PER_SECOND;
        }
        i := i + 1;
      }
    }

    /** Post a new runnable for twice the ad's duration and remember it as the one to cancel. */
    method StartFailsafeTimer(idvxAd: AdPodItem)
      modifies this
      ensures State() == old(State()).(effects := Handoff.StartFailsafeTimer(old(State()).effects, idvxAd.duration))
    {
      var failsafeTimeoutMs := idvxAd.duration * FAILSAFE_MS_PER_SECOND;
      failsafeRunnable := Some(Timer(nextTimerId, failsafeTimeoutMs));
      nextTimerId := nextTimerId + 1;
      postedTimers := postedTimers + {failsafeRunnable.value};
      calls := calls + [ArmTimer(failsafeRunnable.value)];
    }

    method CancelFailsafeTimer()
      modifies this
      ensures State() == old(State()).(effects := Handoff.CancelFailsafeTimer(old(State()).effects))
    {
      if failsafeRunnable.Some? {
        postedTimers := postedTimers - {failsafeRunnable.value};
        calls := calls + [CancelTimer(failsafeRunnable.value)];
        failsafeRunnable := None;
      }
    }
  }
}
