/**
 * The sample preroll pod (trueX, IDVx, GDFP, GDFP, 30 s each) played by a
 * manager that has a view group, event by event: the exact calls made and
 * the position, overlay and failsafe after each event.
 */
module PodScenarios {
  import opened Wrappers
  import opened AdTypes
  import opened AdPodItems
  import opened Media
  import opened Segmenter
  import opened Handoff
  import opened PodSequencer

  const T0: Timer := Timer(0, 60000)
  const T1: Timer := Timer(1, 60000)
  const T2: Timer := Timer(2, 60000)

  const TruexOverlay: Overlay := Overlay(Some("truex-vast"), TRUEX)
  const IdvxOverlay: Overlay := Overlay(Some("idvx-vast"), IDVX)

  function Loaded(): PodState {
    SetAdPod(Initial(true), SamplePod())
  }

  /** The calls made by starting the sample pod. */
  function StartCalls(): seq<Command> {
    [ PlayMediaSource(ProgressiveSource(Some("truex-30s.mp4")), false),
      ControlPlayer(SEEK_AND_PAUSE, -100),
      StartOverlay(Some("truex-vast"), TRUEX),
      ArmTimer(T0) ]
  }

  /**
   * Starting plays the true[X] item on its own, seeks to -100 ms (an
   * individual segment has end position 0), pauses, shows the true[X]
   * overlay and arms a 60 s failsafe.
   */
  function Started(): (r: PodState)
    ensures Valid(r) && r.adPod == SamplePod()
    ensures r.currentSegmentIndex == 0 && r.currentAdIndexInSegment == 0 && !r.truexCreditReceived
    ensures r.effects == Effects(Some(TruexOverlay), Some(T0), {T0}, 1, StartCalls())
  {
    SamplePodSegments();
    var c := Loaded();
    assert Restarted(c) == c;
    var playing := c.(effects := Emit(c.effects, PlayMediaSource(ProgressiveSource(Some("truex-30s.mp4")), false)));
    assert StartAdPod(c) == LaunchInfillionOverlayIfNecessary(playing);
    assert CurrentAd(playing) == Some(SamplePod()[0]);
    assert EndPositionOfCurrentAd(playing) == 0;
    var paused := playing.(effects := Emit(playing.effects, ControlPlayer(SEEK_AND_PAUSE, -100)));
    assert LaunchInfillionOverlayIfNecessary(playing) == ShowInfillionRenderer(paused, SamplePod()[0]);
    StartAdPod(c)
  }

  /** The concatenated source of the last three items. */
  function TailSource(): MediaSource {
    CreateConcatenatedSegment(SamplePod()[1..]).mediaSource
  }

  /** The calls the true[X] overlay's no-credit completion adds: the move to the IDVx item. */
  function DeclineCalls(): seq<Command> {
    [ CancelTimer(T0),
      DestroyOverlay,
      PlayMediaSource(TailSource(), true),
      ControlPlayer(SEEK_AND_PAUSE, 29900),
      StartOverlay(Some("idvx-vast"), IDVX),
      ArmTimer(T1) ]
  }

  /**
   * From the true[X] item of the sample pod with no overlay and no
   * failsafe, moving on plays the concatenated segment, pauses 100 ms
   * before the end of the IDVx placeholder (30 000 ms), and shows the IDVx
   * overlay with a fresh 60 s failsafe.
   */
  lemma MoveOnToIdvx(st: PodState)
    requires Valid(st) && st.hasViewGroup && st.adPod == SamplePod()
    requires st.currentSegmentIndex == 0 && st.currentAdIndexInSegment == 0
    requires st.effects.infillionAdManager.None? && st.effects.failsafeRunnable.None? && st.effects.postedTimers == {}
    ensures var t := Timer(st.effects.nextTimerId, 60000);
            MoveToNextAd(st) == st.(currentSegmentIndex := 1, effects := Effects(Some(IdvxOverlay), Some(t), {t},
                                      st.effects.nextTimerId + 1,
                                      st.effects.log + [ PlayMediaSource(TailSource(), true),
                                                         ControlPlayer(SEEK_AND_PAUSE, 29900),
                                                         StartOverlay(Some("idvx-vast"), IDVX),
                                                         ArmTimer(t) ]))
  {
    SamplePodSegments();
    var next := st.(currentSegmentIndex := 1);
    assert MoveToNextAd(st) == PlayNextSegment(next);
    var tail := SamplePod()[1..];
    var playing := next.(effects := Emit(next.effects, PlayMediaSource(TailSource(), true)));
    assert PlayNextSegment(next) == LaunchInfillionOverlayIfNecessary(playing);
    assert CurrentAd(playing) == Some(SamplePod()[1]);
    assert Durations(tail)[0] == 30;
    assert EndPositionOfCurrentAd(playing) == 30000 by {
      assert Timeline.EndMs(Durations(tail), 0) == 0;
    }
    var paused := playing.(effects := Emit(playing.effects, ControlPlayer(SEEK_AND_PAUSE, 29900)));
    assert LaunchInfillionOverlayIfNecessary(playing) == ShowInfillionRenderer(paused, SamplePod()[1]);
  }

  /**
   * Declining the true[X] interaction moves on to the concatenated
   * segment: its source is played with completion notifications, the
   * player is paused 100 ms before the end of the IDVx placeholder
   * (30 000 ms), and the IDVx overlay comes up with its own failsafe.
   */
  function TruexDeclined(): (r: PodState)
    ensures Valid(r) && r.adPod == SamplePod()
    ensures r.currentSegmentIndex == 1 && r.currentAdIndexInSegment == 0 && !r.truexCreditReceived
    ensures r.effects == Effects(Some(IdvxOverlay), Some(T1), {T1}, 2, StartCalls() + DeclineCalls())
  {
    SamplePodSegments();
    var st := Started();
    var c := st.(effects := CleanupInfillionAdManager(CancelFailsafeTimer(st.effects)));
    assert c.effects == Effects(None, None, {}, 1, StartCalls() + [CancelTimer(T0), DestroyOverlay]);
    assert CurrentAd(c) == Some(SamplePod()[0]) && !ResumesInPlace(c);
    assert OnOverlayComplete(st, false) == MoveToNextAd(c);
    MoveOnToIdvx(c);
    OnOverlayComplete(st, false)
  }

  /** Accepting the true[X] interaction records the credit and skips to content; nothing else plays. */
  function TruexCredited(): (r: PodState)
    ensures Valid(r) && r.adPod == SamplePod()
    ensures r.currentSegmentIndex == 0 && r.currentAdIndexInSegment == 0 && r.truexCreditReceived
    ensures r.effects == Effects(None, None, {}, 1, StartCalls() + [CancelTimer(T0), DestroyOverlay, SkipToContent])
  {
    SamplePodSegments();
    var st := Started();
    assert CurrentAd(st) == Some(SamplePod()[0]);
    OnOverlayComplete(st, true)
  }

  /**
   * The IDVx overlay ends by resuming the paused player in place, with or
   * without credit; the position stays on the IDVx item until the player
   * reports that item complete.
   */
  function IdvxFinished(receivedCredit: bool): (r: PodState)
    ensures Valid(r) && r.adPod == SamplePod()
    ensures r.currentSegmentIndex == 1 && r.currentAdIndexInSegment == 0 && !r.truexCreditReceived
    ensures r.effects == Effects(None, None, {}, 2,
                                 StartCalls() + DeclineCalls() + [CancelTimer(T1), DestroyOverlay, ControlPlayer(PLAY, 0)])
  {
    SamplePodSegments();
    var st := TruexDeclined();
    assert CurrentAd(st) == Some(SamplePod()[1]);
    OnOverlayComplete(st, receivedCredit)
  }

  /**
   * After the IDVx item, the two regular items complete silently and the
   * third completion event ends the pod: one onAdPodComplete, nothing else.
   */
  function PodEnded(): (r: PodState)
    ensures Valid(r)
    ensures r.currentSegmentIndex == 2 && r.currentAdIndexInSegment == 3
    ensures r.effects == IdvxFinished(false).effects.(log := IdvxFinished(false).effects.log + [AdPodComplete])
  {
    SamplePodSegments();
    var st := IdvxFinished(false);
    var s1 := OnMediaItemCompleted(st);
    assert s1 == st.(currentAdIndexInSegment := 1);
    var s2 := OnMediaItemCompleted(s1);
    assert s2 == st.(currentAdIndexInSegment := 2);
    var s3 := OnMediaItemCompleted(s2);
    assert s3 == PlayNextSegment(st.(currentSegmentIndex := 2, currentAdIndexInSegment := 3));
    s3
  }

  /**
   * Restarting while the true[X] overlay is up destroys the overlay but
   * leaves its failsafe queued next to the new one, and forgets it.
   */
  function RestartedDuringTruex(): (r: PodState)
    ensures Valid(r)
    ensures r.currentSegmentIndex == 0 && r.currentAdIndexInSegment == 0
    ensures r.effects.infillionAdManager == Some(TruexOverlay)
    ensures r.effects.failsafeRunnable == Some(T1)
    ensures r.effects.postedTimers == {T0, T1} && r.effects.nextTimerId == 2
    ensures r.effects.log == StartCalls() + [DestroyOverlay] + StartCalls()[..3] + [ArmTimer(T1)]
  {
    SamplePodSegments();
    var st := Started();
    var c := Restarted(st);
    var playing := c.(effects := Emit(c.effects, PlayMediaSource(ProgressiveSource(Some("truex-30s.mp4")), false)));
    assert StartAdPod(st) == LaunchInfillionOverlayIfNecessary(playing);
    assert CurrentAd(playing) == Some(SamplePod()[0]);
    assert EndPositionOfCurrentAd(playing) == 0;
    var paused := playing.(effects := Emit(playing.effects, ControlPlayer(SEEK_AND_PAUSE, -100)));
    assert LaunchInfillionOverlayIfNecessary(playing) == ShowInfillionRenderer(paused, SamplePod()[0]);
    StartAdPod(st)
  }

  /**
   * When that stale failsafe fires, it cancels the new run's failsafe and
   * closes the new true[X] overlay without credit, moving the new run on
   * to the IDVx item, whose own failsafe is then the only one queued.
   */
  function StaleFailsafeFired(): (r: PodState)
    ensures Valid(r)
    ensures r.currentSegmentIndex == 1 && r.currentAdIndexInSegment == 0
    ensures r.effects.infillionAdManager == Some(IdvxOverlay)
    ensures r.effects.failsafeRunnable == Some(T2) && r.effects.postedTimers == {T2}
    ensures r.effects.log == RestartedDuringTruex().effects.log + [CancelTimer(T1), DestroyOverlay] + DeclineCalls()[2..5] + [ArmTimer(T2)]
  {
    var st := RestartedDuringTruex();
    StaleTimerFiresOnTruex(st, T0, T1);
    MoveOnToIdvx(st.(effects := Effects(None, None, {}, 2, st.effects.log + [CancelTimer(T1), DestroyOverlay])));
    OnFailsafeFired(st, T0)
  }

  /**
   * A queued runnable t0 that is not the armed one fires while the sample
   * pod's true[X] overlay is up: the armed failsafe t1 is cancelled, the
   * overlay destroyed, and the sequencer moves on as for a declined ad.
   */
  lemma StaleTimerFiresOnTruex(st: PodState, t0: Timer, t1: Timer)
    requires Valid(st) && st.adPod == SamplePod() && t0 != t1
    requires st.currentSegmentIndex == 0 && st.currentAdIndexInSegment == 0
    requires st.effects.infillionAdManager.Some? && st.effects.failsafeRunnable == Some(t1)
    requires st.effects.postedTimers == {t0, t1}
    ensures OnFailsafeFired(st, t0) ==
              MoveToNextAd(st.(effects := Effects(None, None, {}, st.effects.nextTimerId,
                                                  st.effects.log + [CancelTimer(t1), DestroyOverlay])))
  {
    SamplePodSegments();
    assert st.effects.postedTimers - {t0} == {t1};
    var fired := st.(effects := st.effects.(postedTimers := {t1}));
    var c := fired.(effects := CleanupInfillionAdManager(CancelFailsafeTimer(fired.effects)));
    assert c.effects == Effects(None, None, {}, st.effects.nextTimerId, st.effects.log + [CancelTimer(t1), DestroyOverlay]);
    assert CurrentAd(c) == Some(SamplePod()[0]) && !ResumesInPlace(c);
    assert OnFailsafeFired(st, t0) == OnInfillionAdComplete(fired, false);
  }
}
