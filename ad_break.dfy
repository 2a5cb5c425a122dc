/**
 * The older single-timeline sequencer (AdManager) as a state machine over
 * values. One break plays as one concatenated source; there are no
 * segments, and an overlay that ends without credit always resumes the
 * paused player instead of advancing.
 */
module BreakSequencer {
  import opened Wrappers
  import opened AdTypes
  import opened Ads
  import opened Media
  import opened Timeline
  import opened Handoff

  /** mediaSource is None until a break has been set. */
  datatype BreakState = BreakState(
    hasViewGroup: bool,
    ads: seq<Ad>,
    mediaSource: Option<MediaSource>,
    currentAdIndexInSegment: nat,
    effects: Effects)

  function Initial(hasViewGroup: bool): BreakState {
    BreakState(hasViewGroup, [], None, 0, NoEffects)
  }

  /** One placeholder per ad, `duration * 1000` ms long, in break order. */
  function CreateMediaSource(ads: seq<Ad>): MediaSource {
    ConcatenatedSource(seq(|ads|, i requires 0 <= i < |ads| => PlaceholderFor(ads[i].adUrl, ads[i].duration)))
  }

  function CurrentAd(st: BreakState): Option<Ad> {
    if st.currentAdIndexInSegment < |st.ads| then Some(st.ads[st.currentAdIndexInSegment]) else None
  }

  predicate IsPlayingInteractiveAd(st: BreakState) {
    CurrentAd(st).Some? && CurrentAd(st).value.IsInfillionAd()
  }

  function Durations(ads: seq<Ad>): seq<int> {
    seq(|ads|, i requires 0 <= i < |ads| => ads[i].duration)
  }

  /** Where the current ad's placeholder ends in the break's timeline. */
  function EndPositionOfCurrentAd(st: BreakState): int {
    EndMs(Durations(st.ads), st.currentAdIndexInSegment + 1)
  }

  /** onInfillionAdComplete: cancel the failsafe, drop the overlay, then skip on credit or resume the player. */
  function OnInfillionAdComplete(st: BreakState, receivedCredit: bool): BreakState {
    var cleaned := CleanupInfillionAdManager(CancelFailsafeTimer(st.effects));
    st.(effects := Emit(cleaned, if receivedCredit then SkipToContent else ControlPlayer(PLAY, 0)))
  }

  /**
   * showInfillionRenderer: without a view group, complete at once without
   * credit; otherwise replace the overlay and arm the failsafe.
   */
  function ShowInfillionRenderer(st: BreakState, ad: Ad): BreakState {
    if !st.hasViewGroup then
      OnInfillionAdComplete(st, false)
    else
      var started := StartInfillionAdManager(st.effects, ad.vastConfigUrl, ad.adType);
      st.(effects := if ad.IsInfillionAd() then StartFailsafeTimer(started, ad.duration) else started)
  }

  /** For an interactive current ad: seek 100 ms before its end, pause, show the overlay. */
  function LaunchInfillionOverlayIfNecessary(st: BreakState): BreakState {
    match CurrentAd(st)
    case None => st
    case Some(ad) =>
      if !ad.IsInfillionAd() then st
      else
        var paused := st.(effects := Emit(st.effects, ControlPlayer(SEEK_AND_PAUSE, EndPositionOfCurrentAd(st) - SEEK_GUARD_MS)));
        ShowInfillionRenderer(paused, ad)
  }

  /** moveToNextAd: step to the next ad; past the last one, signal that the break is complete. */
  function MoveToNextAd(st: BreakState): BreakState {
    var next := st.(currentAdIndexInSegment := st.currentAdIndexInSegment + 1);
    if next.currentAdIndexInSegment >= |st.ads| then
      next.(effects := Emit(next.effects, AdBreadComplete))
    else
      LaunchInfillionOverlayIfNecessary(next)
  }

  // The handlers the outside world calls.

  function SetCurrentAdBreak(st: BreakState, ads: seq<Ad>): BreakState {
    st.(effects := CleanupInfillionAdManager(st.effects),
        ads := ads,
        currentAdIndexInSegment := 0,
        mediaSource := Some(CreateMediaSource(ads)))
  }

  function StartAdBread(st: BreakState): BreakState {
    var c := st.(effects := CleanupInfillionAdManager(st.effects), currentAdIndexInSegment := 0);
    LaunchInfillionOverlayIfNecessary(c.(effects := Emit(c.effects, PlayAdBreak(st.mediaSource))))
  }

  function OnPlaybackEnded(st: BreakState): BreakState {
    st.(effects := Emit(st.effects, AdBreadComplete))
  }

  function OnMediaItemCompleted(st: BreakState): BreakState {
    if CurrentAd(st).None? then st else MoveToNextAd(st)
  }

  /** The live overlay reports its outcome. */
  function OnOverlayComplete(st: BreakState, receivedCredit: bool): BreakState
    requires st.effects.infillionAdManager.Some?
  {
    OnInfillionAdComplete(st, receivedCredit)
  }

  /** A posted failsafe runnable runs: it leaves the queue and forces a no-credit completion. */
  function OnFailsafeFired(st: BreakState, timer: Timer): BreakState
    requires timer in st.effects.postedTimers
  {
    OnInfillionAdComplete(st.(effects := st.effects.(postedTimers := st.effects.postedTimers - {timer})), false)
  }

  function OnStop(st: BreakState): BreakState {
    st.(effects := CleanupInfillionAdManager(st.effects))
  }
}

/** What the single-timeline sequencer promises, stated over its state-machine functions. */
module BreakProperties {
  import opened Wrappers
  import opened AdTypes
  import opened Ads
  import opened Media
  import opened Timeline
  import opened Handoff
  import opened BreakSequencer
  import PodSequencer
  import AdPodItems

  function Teardown(e: Effects): seq<Command> {
    if e.infillionAdManager.Some? then [DestroyOverlay] else []
  }

  /** The calls with which an overlay completion ends, after cancelling and teardown. */
  function CompletionCalls(e: Effects, receivedCredit: bool): seq<Command> {
    (if e.failsafeRunnable.Some? then [CancelTimer(e.failsafeRunnable.value)] else [])
    + Teardown(e)
    + [if receivedCredit then SkipToContent else ControlPlayer(PLAY, 0)]
  }

  /**
   * setCurrentAdBreak drops the overlay, installs the new ads with one
   * placeholder per ad, and rewinds to the first ad; the failsafe is untouched.
   */
  lemma SetCurrentAdBreakResets(st: BreakState, ads: seq<Ad>)
    ensures var r := SetCurrentAdBreak(st, ads);
            && r.ads == ads && r.currentAdIndexInSegment == 0
            && r.mediaSource.Some? && r.mediaSource.value.ConcatenatedSource?
            && |r.mediaSource.value.items| == |ads|
            && (forall i :: 0 <= i < |ads| ==>
                  r.mediaSource.value.items[i] == Placeholder(ads[i].adUrl, ads[i].duration * 1000))
            && r.effects.infillionAdManager.None?
            && r.effects.failsafeRunnable == st.effects.failsafeRunnable
            && r.effects.postedTimers == st.effects.postedTimers
            && r.effects.log == st.effects.log + Teardown(st.effects)
  {
  }

  /** isPlayingInteractiveAd holds exactly when a current ad exists and is true[X] or IDVx. */
  lemma IsPlayingInteractiveAdIff(st: BreakState)
    ensures IsPlayingInteractiveAd(st) <==>
              st.currentAdIndexInSegment < |st.ads| && st.ads[st.currentAdIndexInSegment].adType in {TRUEX, IDVX}
  {
  }

  /**
   * startAdBread rewinds, asks for the break's source once, and then pauses
   * for an overlay only when the first ad is interactive.
   */
  lemma StartAdBreadPlaysOnce(st: BreakState)
    ensures var r := StartAdBread(st);
            var played := st.effects.log + Teardown(st.effects) + [PlayAdBreak(st.mediaSource)];
            && played <= r.effects.log
            && (st.ads == [] || !st.ads[0].IsInfillionAd() ==>
                  r.currentAdIndexInSegment == 0 && r.effects.log == played && r.effects.infillionAdManager.None?)
            && (st.ads != [] && st.ads[0].IsInfillionAd() ==>
                  && r.currentAdIndexInSegment == 0
                  && |r.effects.log| > |played|
                  && r.effects.log[|played|] == ControlPlayer(SEEK_AND_PAUSE, st.ads[0].duration * 1000 - 100)
                  && (forall i :: |played| <= i < |r.effects.log| ==> !r.effects.log[i].PlayAdBreak?)
                  && r.effects.infillionAdManager ==
                       (if st.hasViewGroup then Some(Overlay(st.ads[0].vastConfigUrl, st.ads[0].adType)) else None))
  {
    var c := st.(effects := CleanupInfillionAdManager(st.effects), currentAdIndexInSegment := 0);
    var p := c.(effects := Emit(c.effects, PlayAdBreak(st.mediaSource)));
    if st.ads != [] && st.ads[0].IsInfillionAd() {
      assert Durations(p.ads)[0] == st.ads[0].duration;
      assert EndPositionOfCurrentAd(p) == EndMs(Durations(p.ads), 0) + st.ads[0].duration * 1000;
      ShowRendererKeepsLog(p.(effects := Emit(p.effects, ControlPlayer(SEEK_AND_PAUSE, EndPositionOfCurrentAd(p) - SEEK_GUARD_MS))), st.ads[0]);
    }
  }

  /**
   * showInfillionRenderer only appends calls, never asks for the break's
   * source again and never moves the index; afterwards exactly the new
   * overlay is live, or none without a view group.
   */
  lemma ShowRendererKeepsLog(st: BreakState, ad: Ad)
    ensures var r := ShowInfillionRenderer(st, ad);
            && st.effects.log <= r.effects.log && r.currentAdIndexInSegment == st.currentAdIndexInSegment
            && r.ads == st.ads && r.mediaSource == st.mediaSource
            && (forall i :: |st.effects.log| <= i < |r.effects.log| ==> !r.effects.log[i].PlayAdBreak?)
            && r.effects.infillionAdManager == (if st.hasViewGroup then Some(Overlay(ad.vastConfigUrl, ad.adType)) else None)
  {
  }

  /** onPlaybackEnded always signals completion of the break and changes nothing else, however often it comes. */
  lemma PlaybackEndedOnlySignals(st: BreakState)
    ensures OnPlaybackEnded(st).effects.log == st.effects.log + [AdBreadComplete]
    ensures OnPlaybackEnded(st).(effects := st.effects) == st
    ensures OnPlaybackEnded(OnPlaybackEnded(st)).effects.log == st.effects.log + [AdBreadComplete, AdBreadComplete]
  {
  }

  /**
   * onMediaItemCompleted does nothing past the end of the break; otherwise
   * it advances one ad, signals completion on reaching the end, and else
   * launches an overlay only for an interactive new ad.
   */
  lemma OnMediaItemCompletedSteps(st: BreakState)
    ensures st.currentAdIndexInSegment >= |st.ads| ==> OnMediaItemCompleted(st) == st
    ensures st.currentAdIndexInSegment < |st.ads| ==>
              var next := st.(currentAdIndexInSegment := st.currentAdIndexInSegment + 1);
              var r := OnMediaItemCompleted(st);
              && (next.currentAdIndexInSegment == |st.ads| ==>
                    r == next.(effects := Emit(st.effects, AdBreadComplete)))
              && (next.currentAdIndexInSegment < |st.ads| && !st.ads[next.currentAdIndexInSegment].IsInfillionAd() ==>
                    r == next)
              && (next.currentAdIndexInSegment < |st.ads| && st.ads[next.currentAdIndexInSegment].IsInfillionAd() ==>
                    r.currentAdIndexInSegment == next.currentAdIndexInSegment
                    && |r.effects.log| > |st.effects.log|
                    && r.effects.log[|st.effects.log|] == ControlPlayer(SEEK_AND_PAUSE, EndPositionOfCurrentAd(next) - 100))
  {
    if st.currentAdIndexInSegment + 1 < |st.ads| {
      var next := st.(currentAdIndexInSegment := st.currentAdIndexInSegment + 1);
      var ad := st.ads[next.currentAdIndexInSegment];
      if ad.IsInfillionAd() {
        var paused := next.(effects := Emit(next.effects, ControlPlayer(SEEK_AND_PAUSE, EndPositionOfCurrentAd(next) - SEEK_GUARD_MS)));
        ShowRendererKeepsLog(paused, ad);
      }
    }
  }

  /** The seek target is 1000 times the total duration of the ads up to and including the current one, minus 100. */
  lemma SeekTargetIsPrefixSum(st: BreakState)
    requires IsPlayingInteractiveAd(st)
    ensures var r := LaunchInfillionOverlayIfNecessary(st);
            && |r.effects.log| > |st.effects.log|
            && r.effects.log[|st.effects.log|] ==
                 ControlPlayer(SEEK_AND_PAUSE, 1000 * Sum(Durations(st.ads)[..st.currentAdIndexInSegment + 1]) - 100)
  {
    var ad := CurrentAd(st).value;
    var paused := st.(effects := Emit(st.effects, ControlPlayer(SEEK_AND_PAUSE, EndPositionOfCurrentAd(st) - SEEK_GUARD_MS)));
    ShowRendererKeepsLog(paused, ad);
    EndMsIsScaledSum(Durations(st.ads), st.currentAdIndexInSegment + 1);
  }

  /**
   * Overlay completion cancels the failsafe and drops the overlay, then
   * skips to content on credit and otherwise resumes the player; the index
   * never changes.
   */
  lemma OverlayCompletionNeverAdvances(st: BreakState, receivedCredit: bool)
    ensures var r := OnInfillionAdComplete(st, receivedCredit);
            && r.currentAdIndexInSegment == st.currentAdIndexInSegment
            && r.ads == st.ads
            && r.effects.infillionAdManager.None? && r.effects.failsafeRunnable.None?
            && (st.effects.failsafeRunnable.Some? ==>
                  r.effects.postedTimers == st.effects.postedTimers - {st.effects.failsafeRunnable.value})
            && r.effects.log == st.effects.log + CompletionCalls(st.effects, receivedCredit)
  {
  }

  /**
   * With a view group, an interactive ad gets a fresh overlay and a failsafe
   * of twice its duration; without one, it completes at once without credit,
   * so the player resumes and no overlay or timer is created.
   */
  lemma ShowRendererOutcomes(st: BreakState, ad: Ad)
    requires st.effects.TimersIssued() && ad.IsInfillionAd()
    ensures var r := ShowInfillionRenderer(st, ad);
            && (st.hasViewGroup ==>
                  && r.effects.infillionAdManager == Some(Overlay(ad.vastConfigUrl, ad.adType))
                  && r.effects.failsafeRunnable == Some(Timer(st.effects.nextTimerId, ad.duration * 2000))
                  && r.effects.failsafeRunnable.value !in st.effects.postedTimers)
            && (!st.hasViewGroup ==>
                  && r.effects.infillionAdManager.None?
                  && r.effects.nextTimerId == st.effects.nextTimerId
                  && r.effects.log == st.effects.log + CompletionCalls(st.effects, false))
  {
    if st.hasViewGroup {
      ArmedTimerIsFresh(StartInfillionAdManager(st.effects, ad.vastConfigUrl, ad.adType), ad.duration);
    }
  }

  /**
   * The two sequencers differ on an overlay that ends without credit: the
   * single-timeline one always resumes the paused player in place, while
   * the segment-aware one, for a true[X] item, moves on past it.
   */
  lemma NoCreditRulesDiffer(b: BreakState, p: PodSequencer.PodState)
    requires PodSequencer.Valid(p) && PodSequencer.CurrentAd(p).Some?
    requires PodSequencer.CurrentAd(p).value.Type() == TRUEX
    ensures var r := OnInfillionAdComplete(b, false);
            && r.currentAdIndexInSegment == b.currentAdIndexInSegment
            && r.effects.log[|r.effects.log| - 1] == ControlPlayer(PLAY, 0)
    ensures PodSequencer.After(p, PodSequencer.OnInfillionAdComplete(p, false))
  {
    var cleaned := p.(effects := CleanupInfillionAdManager(CancelFailsafeTimer(p.effects)));
    assert PodSequencer.OnInfillionAdComplete(p, false) == PodSequencer.MoveToNextAd(cleaned);
  }
}
