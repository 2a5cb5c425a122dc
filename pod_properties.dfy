/** What the segment-aware sequencer promises, stated over its state-machine functions. */
module PodProperties {
  import opened Wrappers
  import opened AdTypes
  import opened AdPodItems
  import opened Media
  import opened Timeline
  import opened Segmenter
  import opened Handoff
  import opened PodSequencer

  function Teardown(e: Effects): seq<Command> {
    if e.infillionAdManager.Some? then [DestroyOverlay] else []
  }

  /** setAdPod drops the overlay, segments the new pod and resets position and credit; the failsafe is untouched. */
  lemma SetAdPodResets(st: PodState, adPod: seq<AdPodItem>)
    requires Valid(st)
    ensures var r := SetAdPod(st, adPod);
            && Valid(r)
            && r.adPod == adPod && r.adSegments == CreateAdSegments(adPod)
            && r.currentSegmentIndex == 0 && r.currentAdIndexInSegment == 0 && !r.truexCreditReceived
            && r.effects.infillionAdManager.None?
            && r.effects.failsafeRunnable == st.effects.failsafeRunnable
            && r.effects.postedTimers == st.effects.postedTimers
            && r.effects.log == st.effects.log + Teardown(st.effects)
  {
  }

  /**
   * startAdPod resets like setAdPod (keeping the pod), then either signals
   * completion of an empty pod or plays the first segment, with completion
   * notifications exactly when that segment is concatenated.
   */
  lemma StartAdPodPlaysFirstSegment(st: PodState)
    requires Valid(st)
    ensures var c := Restarted(st);
            && c.currentSegmentIndex == 0 && c.currentAdIndexInSegment == 0 && !c.truexCreditReceived
            && c.effects.infillionAdManager.None?
            && c.effects.log == st.effects.log + Teardown(st.effects)
    ensures st.adPod == [] ==> StartAdPod(st) == Restarted(st).(effects := Emit(Restarted(st).effects, AdPodComplete))
    ensures st.adPod != [] ==>
              var c := Restarted(st);
              var r := StartAdPod(st);
              && c.effects.log <= r.effects.log
              && |r.effects.log| > |c.effects.log|
              && r.effects.log[|c.effects.log|] == PlayMediaSource(st.adSegments[0].mediaSource, st.adSegments[0].isConcatenated)
    ensures st.adPod != [] && !st.adPod[0].IsInfillionAd() ==>
              var c := Restarted(st);
              StartAdPod(st) == c.(effects := Emit(c.effects, PlayMediaSource(st.adSegments[0].mediaSource, true)))
  {
    var c := Restarted(st);
    if st.adPod != [] {
      PlayNextSegmentOutcomes(c);
      SegmentShapes(st.adPod);
    }
  }

  /**
   * playNextSegment either signals completion and does nothing else, or
   * plays the current segment from its first ad, asking for item-completion
   * notifications exactly when the segment is concatenated.
   */
  lemma PlayNextSegmentOutcomes(st: PodState)
    requires WellFormed(st)
    ensures st.currentSegmentIndex >= |st.adSegments| ==>
              PlayNextSegment(st) == st.(effects := Emit(st.effects, AdPodComplete))
    ensures st.currentSegmentIndex < |st.adSegments| ==>
              var segment := st.adSegments[st.currentSegmentIndex];
              var r := PlayNextSegment(st);
              && st.effects.log <= r.effects.log
              && |r.effects.log| > |st.effects.log|
              && r.effects.log[|st.effects.log|] == PlayMediaSource(segment.mediaSource, segment.isConcatenated)
              && (st.hasViewGroup ==> r.currentSegmentIndex == st.currentSegmentIndex && r.currentAdIndexInSegment == 0)
  {
    if st.currentSegmentIndex < |st.adSegments| {
      var segment := st.adSegments[st.currentSegmentIndex];
      var playing := st.(currentAdIndexInSegment := 0,
                         effects := Emit(st.effects, PlayMediaSource(segment.mediaSource, segment.isConcatenated)));
      var r := PlayNextSegment(st);
      assert r == LaunchInfillionOverlayIfNecessary(playing);
      assert playing.effects.log <= r.effects.log;
      assert r.effects.log[|st.effects.log|] == playing.effects.log[|st.effects.log|];
      if st.hasViewGroup {
        LaunchWithViewGroupStaysPut(playing);
      }
    }
  }

  /** With a view group, launching an overlay never moves the position: the overlay stays up. */
  lemma LaunchWithViewGroupStaysPut(st: PodState)
    requires Valid(st) && st.hasViewGroup
    ensures var r := LaunchInfillionOverlayIfNecessary(st);
            r.currentSegmentIndex == st.currentSegmentIndex && r.currentAdIndexInSegment == st.currentAdIndexInSegment
  {
  }

  /**
   * onMediaItemCompleted: nothing without a current ad; in a concatenated
   * segment the ad index goes up and the segment changes only when it
   * reaches the segment's length; an individual segment moves straight on.
   */
  lemma OnMediaItemCompletedSteps(st: PodState)
    requires Valid(st)
    ensures CurrentAd(st).None? ==> OnMediaItemCompleted(st) == st
    ensures CurrentAd(st).Some? ==>
              var segment := CurrentSegment(st).value;
              var next := st.(currentAdIndexInSegment := st.currentAdIndexInSegment + 1);
              var r := OnMediaItemCompleted(st);
              && (segment.isConcatenated && next.currentAdIndexInSegment < |segment.ads| ==>
                    r == LaunchInfillionOverlayIfNecessary(next))
              && (segment.isConcatenated && next.currentAdIndexInSegment == |segment.ads| ==>
                    r == PlayNextSegment(next.(currentSegmentIndex := st.currentSegmentIndex + 1)))
              && (!segment.isConcatenated ==>
                    r == PlayNextSegment(st.(currentSegmentIndex := st.currentSegmentIndex + 1)))
  {
  }

  /**
   * With a view group, one completed item moves the position exactly one
   * step: to the next ad of a concatenated segment, or else to the first
   * ad of the next segment, or past the end with completion signalled.
   */
  lemma MediaItemCompletedMovesOneStep(st: PodState)
    requires Valid(st) && st.hasViewGroup && CurrentAd(st).Some?
    ensures var segment := CurrentSegment(st).value;
            var r := OnMediaItemCompleted(st);
            if segment.isConcatenated && st.currentAdIndexInSegment + 1 < |segment.ads| then
              r.currentSegmentIndex == st.currentSegmentIndex && r.currentAdIndexInSegment == st.currentAdIndexInSegment + 1
            else
              && r.currentSegmentIndex == st.currentSegmentIndex + 1
              && (r.currentSegmentIndex < |st.adSegments| ==> r.currentAdIndexInSegment == 0)
              && (r.currentSegmentIndex >= |st.adSegments| ==> r.effects.log == st.effects.log + [AdPodComplete])
  {
    var segment := CurrentSegment(st).value;
    var next := st.(currentAdIndexInSegment := st.currentAdIndexInSegment + 1);
    if segment.isConcatenated && next.currentAdIndexInSegment < |segment.ads| {
      MoveToNextAdInSegment(st, next);
      LaunchWithViewGroupStaysPut(next);
    } else if segment.isConcatenated {
      var skipped := next.(currentSegmentIndex := st.currentSegmentIndex + 1);
      MoveToNextAdEndsSegment(st, skipped);
      PlayNextSegmentOutcomes(skipped);
    } else {
      var moved := st.(currentSegmentIndex := st.currentSegmentIndex + 1);
      MoveToNextAdFromIndividual(st, moved);
      PlayNextSegmentOutcomes(moved);
    }
  }

  /**
   * In a concatenated segment the current ad ends at 1000 times the sum of
   * the durations of the ads up to and including it; in an individual
   * segment the end position is 0.
   */
  lemma EndPositionIsScaledPrefixSum(st: PodState)
    requires Valid(st) && CurrentSegment(st).Some?
    ensures var segment := CurrentSegment(st).value;
            && (segment.isConcatenated ==>
                  EndPositionOfCurrentAd(st) == MS_PER_SECOND * Sum(Durations(segment.ads)[..st.currentAdIndexInSegment + 1]))
            && (!segment.isConcatenated ==> EndPositionOfCurrentAd(st) == 0)
  {
    var segment := CurrentSegment(st).value;
    EndMsIsScaledSum(Durations(segment.ads), st.currentAdIndexInSegment + 1);
  }

  /**
   * Seek-and-pause is issued only for a TRUEX or IDVx current ad, and then
   * targets the end of its placeholder minus 100 ms; otherwise launching
   * changes nothing.
   */
  lemma SeekOnlyForInteractiveAds(st: PodState)
    requires Valid(st)
    ensures !IsPlayingInteractiveAd(st) ==> LaunchInfillionOverlayIfNecessary(st) == st
    ensures IsPlayingInteractiveAd(st) ==>
              var r := LaunchInfillionOverlayIfNecessary(st);
              && |r.effects.log| > |st.effects.log|
              && r.effects.log[|st.effects.log|] == ControlPlayer(SEEK_AND_PAUSE, EndPositionOfCurrentAd(st) - SEEK_GUARD_MS)
  {
    if IsPlayingInteractiveAd(st) {
      var ad := CurrentAd(st).value;
      var paused := st.(effects := Emit(st.effects, ControlPlayer(SEEK_AND_PAUSE, EndPositionOfCurrentAd(st) - SEEK_GUARD_MS)));
      var r := LaunchInfillionOverlayIfNecessary(st);
      assert r == ShowInfillionRenderer(paused, ad);
      assert paused.effects.log <= r.effects.log;
    }
  }

  /** In an individual segment the seek target is -100 ms, since the end position there is 0. */
  lemma IndividualSegmentSeeksToMinus100(st: PodState)
    requires Valid(st) && IsPlayingInteractiveAd(st) && !CurrentSegment(st).value.isConcatenated
    ensures LaunchInfillionOverlayIfNecessary(st).effects.log[|st.effects.log|] == ControlPlayer(SEEK_AND_PAUSE, -100)
  {
    SeekOnlyForInteractiveAds(st);
  }

  /**
   * Showing the renderer: without a view group it is an immediate no-credit
   * completion; with one, the old overlay is destroyed, the new one started
   * and a failsafe of duration * 2000 ms armed (for TRUEX as for IDVx), and
   * the position does not move.
   */
  lemma ShowRendererOutcomes(st: PodState, ad: AdPodItem)
    requires Valid(st) && ad.IsInfillionAd()
    ensures !st.hasViewGroup ==> ShowInfillionRenderer(st, ad) == OnInfillionAdComplete(st, false)
    ensures st.hasViewGroup ==>
              var r := ShowInfillionRenderer(st, ad);
              var t := Timer(st.effects.nextTimerId, ad.duration * 2000);
              && r.effects.infillionAdManager == Some(Overlay(ad.vastConfigUrl, ad.Type()))
              && r.effects.failsafeRunnable == Some(t)
              && t !in st.effects.postedTimers
              && r.effects.postedTimers == st.effects.postedTimers + {t}
              && r.effects.log == st.effects.log + Teardown(st.effects) + [StartOverlay(ad.vastConfigUrl, ad.Type()), ArmTimer(t)]
              && r.currentSegmentIndex == st.currentSegmentIndex && r.currentAdIndexInSegment == st.currentAdIndexInSegment
  {
    if st.hasViewGroup {
      ArmedTimerIsFresh(StartInfillionAdManager(st.effects, ad.vastConfigUrl, ad.Type()), ad.duration);
    }
  }

  /** Without a view group, no handler ever creates an overlay or arms a failsafe. */
  lemma NoViewGroupNoOverlay(st: PodState)
    requires Valid(st) && !st.hasViewGroup && st.effects.infillionAdManager.None?
    ensures var r := StartAdPod(st);
            r.effects.infillionAdManager.None? && r.effects.nextTimerId == st.effects.nextTimerId
    ensures var r := OnMediaItemCompleted(st);
            r.effects.infillionAdManager.None? && r.effects.nextTimerId == st.effects.nextTimerId
    ensures var r := OnPlaybackEnded(st);
            r.effects.infillionAdManager.None? && r.effects.nextTimerId == st.effects.nextTimerId
  {
  }

  /**
   * Overlay completion first cancels the failsafe and drops the overlay,
   * then: an IDVx in a concatenated segment resumes play where it is,
   * whatever the credit; otherwise credit skips to content without moving;
   * otherwise the sequencer moves to the next ad.
   */
  lemma OverlayCompletionRules(st: PodState, receivedCredit: bool)
    requires Valid(st)
    ensures var c := st.(effects := CleanupInfillionAdManager(CancelFailsafeTimer(st.effects)));
            var r := OnInfillionAdComplete(st, receivedCredit);
            && c.effects.infillionAdManager.None? && c.effects.failsafeRunnable.None?
            && c.effects.log == st.effects.log
                 + (if st.effects.failsafeRunnable.Some? then [CancelTimer(st.effects.failsafeRunnable.value)] else [])
                 + Teardown(st.effects)
            && (ResumesInPlace(st) ==> r == c.(effects := Emit(c.effects, ControlPlayer(PLAY, 0))))
            && (!ResumesInPlace(st) && receivedCredit ==>
                  r == c.(truexCreditReceived := true, effects := Emit(c.effects, SkipToContent)))
            && (!ResumesInPlace(st) && !receivedCredit ==> r == MoveToNextAd(c))
  {
    var c := st.(effects := CleanupInfillionAdManager(CancelFailsafeTimer(st.effects)));
    assert ResumesInPlace(c) == ResumesInPlace(st);
  }

  /**
   * A true[X] ad that earns credit ends the break: the overlay is gone,
   * the credit is recorded, content is resumed, and no further segment plays.
   */
  lemma TruexCreditSkipsToContent(st: PodState)
    requires Valid(st) && CurrentAd(st).Some? && CurrentAd(st).value.Type() == TRUEX
    ensures var r := OnInfillionAdComplete(st, true);
            && r.truexCreditReceived
            && r.effects.infillionAdManager.None? && r.effects.failsafeRunnable.None?
            && r.effects.log[|r.effects.log| - 1] == SkipToContent
            && r.currentSegmentIndex == st.currentSegmentIndex
            && r.currentAdIndexInSegment == st.currentAdIndexInSegment
  {
    OverlayCompletionRules(st, true);
  }

  /**
   * onPlaybackEnded past the last segment still bumps the index and
   * signals completion again: a second call signals it a second time.
   */
  lemma PlaybackEndedAfterCompletionRepeats(st: PodState)
    requires WellFormed(st) && st.currentSegmentIndex >= |st.adSegments|
    ensures var r := OnPlaybackEnded(st);
            && r.currentSegmentIndex == st.currentSegmentIndex + 1
            && r.effects.log == st.effects.log + [AdPodComplete]
            && OnPlaybackEnded(r).effects.log == st.effects.log + [AdPodComplete, AdPodComplete]
  {
    var r := OnPlaybackEnded(st);
    assert r == st.(currentSegmentIndex := st.currentSegmentIndex + 1, effects := Emit(st.effects, AdPodComplete));
    assert OnPlaybackEnded(r) == r.(currentSegmentIndex := r.currentSegmentIndex + 1, effects := Emit(r.effects, AdPodComplete));
  }

  /** k item-completion events in a row. */
  function CompleteItems(st: PodState, k: nat): (r: PodState)
    requires Valid(st)
    ensures Valid(r)
    decreases k
  {
    if k == 0 then st else CompleteItems(OnMediaItemCompleted(st), k - 1)
  }

  /** No ad of the segment is interactive. */
  predicate AllRegular(ads: seq<AdPodItem>) {
    forall i :: 0 <= i < |ads| ==> !ads[i].IsInfillionAd()
  }

  /**
   * Through a concatenated segment of regular ads, each completed item
   * advances the ad index by one and calls nothing, until the last one
   * moves to the next segment.
   */
  lemma {:induction false} RegularItemsAdvance(st: PodState, k: nat)
    requires Valid(st) && CurrentSegment(st).Some?
    requires CurrentSegment(st).value.isConcatenated && AllRegular(CurrentSegment(st).value.ads)
    requires st.currentAdIndexInSegment + k <= |CurrentSegment(st).value.ads|
    ensures var n := |CurrentSegment(st).value.ads|;
            && (st.currentAdIndexInSegment + k < n ==>
                  CompleteItems(st, k) == st.(currentAdIndexInSegment := st.currentAdIndexInSegment + k))
            && (st.currentAdIndexInSegment + k == n ==>
                  CompleteItems(st, k) ==
                    PlayNextSegment(st.(currentSegmentIndex := st.currentSegmentIndex + 1, currentAdIndexInSegment := n)))
    decreases k
  {
    if k > 0 {
      var next := st.(currentAdIndexInSegment := st.currentAdIndexInSegment + 1);
      RegularItemStep(st, next);
      if next.currentAdIndexInSegment < |CurrentSegment(st).value.ads| {
        assert CompleteItems(st, k) == CompleteItems(next, k - 1);
        RegularItemsAdvance(next, k - 1);
      }
    }
  }

  /** One completed regular item of a concatenated segment: the next ad, or the next segment after the last. */
  lemma RegularItemStep(st: PodState, next: PodState)
    requires Valid(st) && CurrentSegment(st).Some?
    requires CurrentSegment(st).value.isConcatenated && AllRegular(CurrentSegment(st).value.ads)
    requires next == st.(currentAdIndexInSegment := st.currentAdIndexInSegment + 1)
    ensures next.currentAdIndexInSegment < |CurrentSegment(st).value.ads| ==>
              Valid(next) && CurrentSegment(next) == CurrentSegment(st) && OnMediaItemCompleted(st) == next
    ensures next.currentAdIndexInSegment == |CurrentSegment(st).value.ads| ==>
              OnMediaItemCompleted(st) == PlayNextSegment(next.(currentSegmentIndex := st.currentSegmentIndex + 1))
  {
    var segment := CurrentSegment(st).value;
    OnMediaItemCompletedSteps(st);
    if next.currentAdIndexInSegment < |segment.ads| {
      assert !segment.ads[next.currentAdIndexInSegment].IsInfillionAd();
    }
  }

  /**
   * Completing the remaining items of a last, concatenated segment of
   * regular ads signals pod completion once and calls nothing else.
   */
  lemma LastRegularSegmentCompletes(st: PodState)
    requires Valid(st) && CurrentSegment(st).Some?
    requires CurrentSegment(st).value.isConcatenated && AllRegular(CurrentSegment(st).value.ads)
    requires st.currentSegmentIndex + 1 == |st.adSegments|
    ensures var n := |CurrentSegment(st).value.ads|;
            var r := CompleteItems(st, n - st.currentAdIndexInSegment);
            && r.effects.log == st.effects.log + [AdPodComplete]
            && r.currentSegmentIndex == |st.adSegments|
  {
    var n := |CurrentSegment(st).value.ads|;
    RegularItemsAdvance(st, n - st.currentAdIndexInSegment);
    var ended := st.(currentSegmentIndex := st.currentSegmentIndex + 1, currentAdIndexInSegment := n);
    PlayNextSegmentOutcomes(ended);
  }

  /**
   * A non-empty pod without interactive items plays as one concatenated
   * timeline and, after one completion event per item, signals pod
   * completion exactly once and never skips to content.
   */
  lemma {:induction false} RegularPodCompletesOnce(st: PodState, adPod: seq<AdPodItem>)
    requires Valid(st) && adPod != [] && AllRegular(adPod)
    ensures var started := StartAdPod(SetAdPod(st, adPod));
            var c := SetAdPod(st, adPod);
            && started.effects.log == c.effects.log + [PlayMediaSource(CreateConcatenatedSegment(adPod).mediaSource, true)]
            && CompleteItems(started, |adPod|).effects.log ==
                 c.effects.log + [PlayMediaSource(CreateConcatenatedSegment(adPod).mediaSource, true), AdPodComplete]
            && CompleteItems(started, |adPod|).currentSegmentIndex == 1
  {
    var c := SetAdPod(st, adPod);
    SetAdPodResets(st, adPod);
    assert !adPod[0].IsInfillionAd();
    SegmentShapes(adPod);
    StartAdPodPlaysFirstSegment(c);
    assert Restarted(c) == c;
    var started := StartAdPod(c);
    assert CurrentSegment(started) == Some(CreateConcatenatedSegment(adPod));
    LastRegularSegmentCompletes(started);
  }
}
