/**
 * The segment-aware ad-pod sequencer as a state machine over values. Each
 * function is one handler or private step of the sequencer and returns the
 * whole new state, including the calls made on the listener, the overlay
 * and the handler. The class in pod_manager.dfy runs the same steps in place
 * and is proved to agree with these functions.
 */
module PodSequencer {
  import opened Wrappers
  import opened AdTypes
  import opened AdPodItems
  import opened Media
  import opened Timeline
  import opened Segmenter
  import opened Handoff

  /** hasViewGroup says whether the manager was given a view group to draw overlays in. */
  datatype PodState = PodState(
    hasViewGroup: bool,
    adPod: seq<AdPodItem>,
    adSegments: seq<AdSegment>,
    currentSegmentIndex: nat,
    currentAdIndexInSegment: nat,
    truexCreditReceived: bool,
    effects: Effects)

  function Initial(hasViewGroup: bool): PodState {
    PodState(hasViewGroup, [], [], 0, 0, false, NoEffects)
  }

  /** The segments are always those of the current pod. */
  predicate WellFormed(st: PodState) {
    st.adSegments == CreateAdSegments(st.adPod) && st.effects.TimersIssued()
  }

  /** Between events, a current segment always has a current ad. */
  predicate Valid(st: PodState) {
    && WellFormed(st)
    && (st.currentSegmentIndex < |st.adSegments| ==>
          st.currentAdIndexInSegment < |st.adSegments[st.currentSegmentIndex].ads|)
  }

  function CurrentSegment(st: PodState): Option<AdSegment> {
    if st.currentSegmentIndex < |st.adSegments| then Some(st.adSegments[st.currentSegmentIndex]) else None
  }

  function CurrentAd(st: PodState): Option<AdPodItem> {
    match CurrentSegment(st)
    case None => None
    case Some(segment) =>
      if st.currentAdIndexInSegment < |segment.ads| then Some(segment.ads[st.currentAdIndexInSegment]) else None
  }

  predicate IsPlayingInteractiveAd(st: PodState) {
    CurrentAd(st).Some? && CurrentAd(st).value.IsInfillionAd()
  }

  function Durations(ads: seq<AdPodItem>): seq<int> {
    seq(|ads|, i requires 0 <= i < |ads| => ads[i].duration)
  }

  /** Where the current ad's placeholder ends in a concatenated timeline; 0 in an individual segment. */
  function EndPositionOfCurrentAd(st: PodState): int {
    match CurrentSegment(st)
    case None => 0
    case Some(segment) =>
      if !segment.isConcatenated then 0 else EndMs(Durations(segment.ads), st.currentAdIndexInSegment + 1)
  }

  /** An IDVx item inside a concatenated timeline: its overlay ends by resuming the paused player. */
  predicate ResumesInPlace(st: PodState) {
    && CurrentAd(st).Some?
    && CurrentAd(st).value.Type() == IDVX
    && CurrentSegment(st).value.isConcatenated
  }

  // Measures for the recursion moveToNextAd -> playNextSegment -> launch -> show -> complete -> moveToNextAd.

  function SegmentsLeft(st: PodState): nat {
    if st.currentSegmentIndex < |st.adSegments| then |st.adSegments| - st.currentSegmentIndex else 0
  }

  function SegmentLength(st: PodState): nat {
    if st.currentSegmentIndex < |st.adSegments| then |st.adSegments[st.currentSegmentIndex].ads| else 0
  }

  function AdsLeftInSegment(st: PodState): nat {
    if st.currentSegmentIndex < |st.adSegments| && st.currentAdIndexInSegment <= SegmentLength(st)
    then SegmentLength(st) - st.currentAdIndexInSegment
    else 0
  }

  /** Same pod and view group; calls only appended; credit never withdrawn; timer ids never reused. */
  predicate Progressed(st: PodState, r: PodState) {
    && r.hasViewGroup == st.hasViewGroup
    && r.adPod == st.adPod
    && r.adSegments == st.adSegments
    && st.effects.log <= r.effects.log
    && (st.truexCreditReceived ==> r.truexCreditReceived)
    && st.effects.nextTimerId <= r.effects.nextTimerId
  }

  /** No overlay was created and no failsafe armed between st and r. */
  predicate NoOverlayStarted(st: PodState, r: PodState) {
    && r.effects.nextTimerId == st.effects.nextTimerId
    && (st.effects.infillionAdManager.None? ==> r.effects.infillionAdManager.None?)
  }

  /** The (segment, ad) position of r is at or after that of st. */
  predicate NotBefore(st: PodState, r: PodState) {
    || r.currentSegmentIndex > st.currentSegmentIndex
    || (r.currentSegmentIndex == st.currentSegmentIndex && r.currentAdIndexInSegment >= st.currentAdIndexInSegment)
  }

  /** The (segment, ad) position of r is strictly after that of st. */
  predicate After(st: PodState, r: PodState) {
    || r.currentSegmentIndex > st.currentSegmentIndex
    || (r.currentSegmentIndex == st.currentSegmentIndex && r.currentAdIndexInSegment > st.currentAdIndexInSegment)
  }

  /** playNextSegment: signal completion past the last segment, else play the current one from its first ad. */
  function PlayNextSegment(st: PodState): (r: PodState)
    requires WellFormed(st)
    ensures Valid(r) && Progressed(st, r)
    ensures r.currentSegmentIndex >= st.currentSegmentIndex
    ensures !st.hasViewGroup ==> NoOverlayStarted(st, r)
    decreases SegmentsLeft(st), SegmentLength(st) + 1, 0
  {
    if st.currentSegmentIndex >= |st.adSegments| then
      st.(effects := Emit(st.effects, AdPodComplete))
    else
      var segment := st.adSegments[st.currentSegmentIndex];
      var playing := st.(currentAdIndexInSegment := 0,
                         effects := Emit(st.effects, PlayMediaSource(segment.mediaSource, segment.isConcatenated)));
      LaunchInfillionOverlayIfNecessary(playing)
  }

  /**
   * moveToNextAd: step to the next ad of a concatenated segment, or to the
   * next segment; nothing when there is no current segment. The position
   * strictly advances, which is why the recursion through it terminates.
   */
  function MoveToNextAd(st: PodState): (r: PodState)
    requires Valid(st)
    ensures Valid(r) && Progressed(st, r)
    ensures CurrentSegment(st).None? ==> r == st
    ensures CurrentSegment(st).Some? ==> After(st, r)
    ensures !st.hasViewGroup ==> NoOverlayStarted(st, r)
    decreases SegmentsLeft(st), AdsLeftInSegment(st), 0
  {
    match CurrentSegment(st)
    case None => st
    case Some(segment) =>
      if segment.isConcatenated then
        var next := st.(currentAdIndexInSegment := st.currentAdIndexInSegment + 1);
        if next.currentAdIndexInSegment >= |segment.ads| then
          PlayNextSegment(next.(currentSegmentIndex := st.currentSegmentIndex + 1))
        else
          LaunchInfillionOverlayIfNecessary(next)
      else
        PlayNextSegment(st.(currentSegmentIndex := st.currentSegmentIndex + 1))
  }

  /** moveToNextAd past the last ad of a concatenated segment plays the next segment. */
  lemma MoveToNextAdEndsSegment(st: PodState, skipped: PodState)
    requires Valid(st) && CurrentSegment(st).Some? && CurrentSegment(st).value.isConcatenated
    requires st.currentAdIndexInSegment + 1 >= |CurrentSegment(st).value.ads|
    requires skipped == st.(currentSegmentIndex := st.currentSegmentIndex + 1,
                            currentAdIndexInSegment := st.currentAdIndexInSegment + 1)
    ensures WellFormed(skipped) && SegmentsLeft(skipped) < SegmentsLeft(st)
    ensures MoveToNextAd(st) == PlayNextSegment(skipped)
  {
  }

  /** moveToNextAd inside a concatenated segment steps to its next ad. */
  lemma MoveToNextAdInSegment(st: PodState, next: PodState)
    requires Valid(st) && CurrentSegment(st).Some? && CurrentSegment(st).value.isConcatenated
    requires st.currentAdIndexInSegment + 1 < |CurrentSegment(st).value.ads|
    requires next == st.(currentAdIndexInSegment := st.currentAdIndexInSegment + 1)
    ensures Valid(next) && SegmentsLeft(next) == SegmentsLeft(st)
    ensures AdsLeftInSegment(next) < AdsLeftInSegment(st)
    ensures MoveToNextAd(st) == LaunchInfillionOverlayIfNecessary(next)
  {
  }

  /** moveToNextAd from an individual segment plays the next segment. */
  lemma MoveToNextAdFromIndividual(st: PodState, moved: PodState)
    requires Valid(st) && CurrentSegment(st).Some? && !CurrentSegment(st).value.isConcatenated
    requires moved == st.(currentSegmentIndex := st.currentSegmentIndex + 1)
    ensures WellFormed(moved) && SegmentsLeft(moved) < SegmentsLeft(st)
    ensures MoveToNextAd(st) == PlayNextSegment(moved)
  {
  }

  /** launchInfillionOverlayIfNecessary: for an interactive current ad, seek just before its end, pause, show the overlay. */
  function LaunchInfillionOverlayIfNecessary(st: PodState): (r: PodState)
    requires Valid(st)
    ensures Valid(r) && Progressed(st, r) && NotBefore(st, r)
    ensures !st.hasViewGroup ==> NoOverlayStarted(st, r)
    decreases SegmentsLeft(st), AdsLeftInSegment(st), 3
  {
    match CurrentAd(st)
    case None => st
    case Some(ad) =>
      if !ad.IsInfillionAd() then st
      else
        var paused := st.(effects := Emit(st.effects, ControlPlayer(SEEK_AND_PAUSE, EndPositionOfCurrentAd(st) - SEEK_GUARD_MS)));
        ShowInfillionRenderer(paused, ad)
  }

  /**
   * showInfillionRenderer: without a view group, complete at once without
   * credit; otherwise replace the overlay and arm the failsafe.
   */
  function ShowInfillionRenderer(st: PodState, ad: AdPodItem): (r: PodState)
    requires Valid(st)
    ensures Valid(r) && Progressed(st, r) && NotBefore(st, r)
    ensures !st.hasViewGroup ==> NoOverlayStarted(st, r)
    decreases SegmentsLeft(st), AdsLeftInSegment(st), 2
  {
    if !st.hasViewGroup then
      OnInfillionAdComplete(st, false)
    else
      var started := StartInfillionAdManager(st.effects, ad.vastConfigUrl, ad.Type());
      st.(effects := if ad.IsInfillionAd() then StartFailsafeTimer(started, ad.duration) else started)
  }

  /**
   * onInfillionAdComplete: cancel the failsafe, drop the overlay, then
   * resume an IDVx in a concatenated segment, or skip to content on
   * credit, or move on.
   */
  function OnInfillionAdComplete(st: PodState, receivedCredit: bool): (r: PodState)
    requires Valid(st)
    ensures Valid(r) && Progressed(st, r) && NotBefore(st, r)
    ensures !st.hasViewGroup ==> NoOverlayStarted(st, r)
    decreases SegmentsLeft(st), AdsLeftInSegment(st), 1
  {
    var cleaned := st.(effects := CleanupInfillionAdManager(CancelFailsafeTimer(st.effects)));
    if ResumesInPlace(cleaned) then
      cleaned.(effects := Emit(cleaned.effects, ControlPlayer(PLAY, 0)))
    else if receivedCredit then
      cleaned.(truexCreditReceived := true, effects := Emit(cleaned.effects, SkipToContent))
    else
      MoveToNextAd(cleaned)
  }

  /** onInfillionAdComplete after the teardown: resume in place, skip on credit, or move on from an unchanged position. */
  lemma OnInfillionAdCompleteSteps(st: PodState, cleaned: PodState, receivedCredit: bool)
    requires Valid(st)
    requires cleaned == st.(effects := CleanupInfillionAdManager(CancelFailsafeTimer(st.effects)))
    ensures Valid(cleaned)
    ensures SegmentsLeft(cleaned) == SegmentsLeft(st) && AdsLeftInSegment(cleaned) == AdsLeftInSegment(st)
    ensures ResumesInPlace(cleaned) ==>
              OnInfillionAdComplete(st, receivedCredit) == cleaned.(effects := Emit(cleaned.effects, ControlPlayer(PLAY, 0)))
    ensures !ResumesInPlace(cleaned) && receivedCredit ==>
              OnInfillionAdComplete(st, receivedCredit) ==
                cleaned.(truexCreditReceived := true, effects := Emit(cleaned.effects, SkipToContent))
    ensures !ResumesInPlace(cleaned) && !receivedCredit ==>
              OnInfillionAdComplete(st, receivedCredit) == MoveToNextAd(cleaned)
  {
  }

  // The handlers the outside world calls.

  /** setAdPod: drop the overlay, segment the new pod, reset the position and the credit. */
  function SetAdPod(st: PodState, adPod: seq<AdPodItem>): PodState {
    st.(effects := CleanupInfillionAdManager(st.effects),
        adPod := adPod,
        adSegments := CreateAdSegments(adPod),
        currentSegmentIndex := 0,
        currentAdIndexInSegment := 0,
        truexCreditReceived := false)
  }

  /** The state startAdPod plays from: overlay dropped, position and credit reset. */
  function Restarted(st: PodState): PodState {
    st.(effects := CleanupInfillionAdManager(st.effects),
        currentSegmentIndex := 0,
        currentAdIndexInSegment := 0,
        truexCreditReceived := false)
  }

  function StartAdPod(st: PodState): PodState
    requires WellFormed(st)
  {
    PlayNextSegment(Restarted(st))
  }

  /** onPlaybackEnded: the segment index goes up unconditionally. */
  function OnPlaybackEnded(st: PodState): PodState
    requires WellFormed(st)
  {
    PlayNextSegment(st.(currentSegmentIndex := st.currentSegmentIndex + 1))
  }

  function OnMediaItemCompleted(st: PodState): PodState
    requires Valid(st)
  {
    if CurrentAd(st).None? then st else MoveToNextAd(st)
  }

  /** The live overlay reports its outcome (its callback is nulled once it is destroyed). */
  function OnOverlayComplete(st: PodState, receivedCredit: bool): PodState
    requires Valid(st) && st.effects.infillionAdManager.Some?
  {
    OnInfillionAdComplete(st, receivedCredit)
  }

  /** A posted failsafe runnable runs: it leaves the queue and forces a no-credit completion. */
  function OnFailsafeFired(st: PodState, timer: Timer): PodState
    requires Valid(st) && timer in st.effects.postedTimers
  {
    OnInfillionAdComplete(st.(effects := st.effects.(postedTimers := st.effects.postedTimers - {timer})), false)
  }

  /** onStop: the overlay is dropped; the failsafe is left as it is. */
  function OnStop(st: PodState): PodState {
    st.(effects := CleanupInfillionAdManager(st.effects))
  }
}
