# Ad-pod sequencing of the true[X] Android CTV reference app, in Dafny

This project models how the reference app plays one advertising break made of
ordinary video ads and Infillion interactive ads (true[X] and IDVx). It covers:

- **AdPodManager**, the segment-aware sequencer:
  - It splits the pod into playback segments: a leading true[X] item alone, the rest concatenated.
  - It tracks a segment index and an ad index.
  - It seeks the player to 100 ms before the end of an interactive item's placeholder, pauses it and shows the overlay.
  - It arms a failsafe of twice the ad's duration.
  - When the overlay ends, it resumes in place, skips to content on credit, or moves on.
- **AdManager**, the older sequencer. It plays the break as one concatenated timeline and always resumes the player after an overlay without credit.
- **InfillionAdManager**, the overlay. It folds renderer events into one credit flag and at most one completion report to its owner.
- **AdPodItem** and **Ad**, which classify an ad by an exact match on its ad system.
- **PlayerEventListener**, which turns player state changes into start, resume and pause notifications and cancels the stream on any error.

Every listener call, overlay start and teardown, and failsafe post and removal becomes a `Command` appended to a log. Everything that happens is therefore part of the state.

The two sequencers follow the same pattern:
- A module of functions over a state value (`PodSequencer`, `BreakSequencer`), with properties proved in `PodProperties` and `BreakProperties`.
- A class with the Java fields (`PodManager.AdPodManager`, `BreakManager.AdManager`). Its methods update those fields in place, and each method is proved to leave the object in the state the matching function computes.

The recursion `moveToNextAd → playNextSegment → launchInfillionOverlayIfNecessary → showInfillionRenderer → onInfillionAdComplete → moveToNextAd` terminates because the (segment, ad) position moves forward. That is the `decreases` measure of both the functions and the methods.

`PodScenarios` plays the app's sample preroll pod (true[X], IDVx and two regular ads, 30 s each) event by event. It pins down the exact calls made.

## Model

Source paths are relative to the repository root.

| member | source | states |
|---|---|---|
| AdTypes.DetermineAdType | CtvReferenceApp/src/main/java/com/truex/ctv/referenceapp/ads/AdPodItem.java:22-30 | TRUEX iff the ad system is exactly "trueX", IDVX iff exactly "IDVx", REGULAR iff neither (null included) |
| AdTypes.InfillionXorRegular | CtvReferenceApp/src/main/java/com/truex/ctv/referenceapp/ads/AdPodItem.java:60-66 | for every type exactly one of isInfillionAd and isRegularAd holds |
| AdTypes.ClassificationIsExact | CtvReferenceApp/src/main/java/com/truex/ctv/referenceapp/ads/AdPodItem.java:22-29 | the match is case-sensitive: "truex", "TRUEX", "idvx", another vendor and null all classify as REGULAR |
| AdPodItems.NewAdPodItem | CtvReferenceApp/src/main/java/com/truex/ctv/referenceapp/ads/AdPodItem.java:12-20 | the item keeps every constructor argument unchanged (what the getters return) and its type is the classification of its ad system |
| AdPodItems.InfillionAdIffVendor | CtvReferenceApp/src/main/java/com/truex/ctv/referenceapp/ads/AdPodItem.java:60-66 | an item is interactive iff its ad system is "trueX" or "IDVx", and regular iff it is not interactive |
| Ads.NewAd | CtvReferenceApp/src/main/java/com/truex/ctv/referenceapp/ads/Ad.java:12-20 | the ad stores its arguments verbatim and its type is computed once from the ad system |
| Ads.InfillionAdXorRegularAd | CtvReferenceApp/src/main/java/com/truex/ctv/referenceapp/ads/Ad.java:31-37 | isInfillionAd and isRegularAd are complementary |
| Ads.ReassignedSystemKeepsType | CtvReferenceApp/src/main/java/com/truex/ctv/referenceapp/ads/Ad.java:4-10 | reassigning the public ad-system field leaves the stored type as it was |
| Ads.StoredTypeCanDisagreeWithSystem | CtvReferenceApp/src/main/java/com/truex/ctv/referenceapp/ads/Ad.java:19 | a true[X] ad whose ad system is later set to "GDFP" is still TRUEX, though its new system classifies as REGULAR |
| Timeline.EndMsIsScaledSum | CtvReferenceApp/src/main/java/com/truex/ctv/referenceapp/ads/AdPodManager.java:329-335 | after n rounds the accumulator holds 1000 times the sum of the first min(n, size) durations |
| Timeline.EndMsMonotone | CtvReferenceApp/src/main/java/com/truex/ctv/referenceapp/ads/AdPodManager.java:331-335 | with non-negative durations, more rounds never give a smaller end position |
| Timeline.EndMsSaturates | CtvReferenceApp/src/main/java/com/truex/ctv/referenceapp/ads/AdPodManager.java:331-335 | rounds past the end of the list add nothing |
| Timeline.SeekTargetInsidePlaceholder | CtvReferenceApp/src/main/java/com/truex/ctv/referenceapp/ads/AdPodManager.java:284-286 | for an item of at least 1 s, end minus 100 ms lies inside that item's placeholder, strictly before its end |
| Handoff.FailsafeDelayMs | CtvReferenceApp/src/main/java/com/truex/ctv/referenceapp/ads/AdPodManager.java:340-342 | the failsafe delay is twice the ad's duration in milliseconds |
| Handoff.CleanupIsIdempotent | CtvReferenceApp/src/main/java/com/truex/ctv/referenceapp/ads/AdPodManager.java:220-225 | teardown leaves no overlay, touches no timer, and a second teardown changes nothing |
| Handoff.CancelIsIdempotent | CtvReferenceApp/src/main/java/com/truex/ctv/referenceapp/ads/AdPodManager.java:352-357 | cancelling removes exactly the remembered runnable from the handler and forgets it; with none remembered, or a second time, it changes nothing |
| Handoff.ArmedTimerIsFresh | CtvReferenceApp/src/main/java/com/truex/ctv/referenceapp/ads/AdPodManager.java:340-350 | arming posts a new runnable of duration × 2000 ms, not already queued, adds it to the queue and remembers it |
| Handoff.OneOverlayAtATime | CtvReferenceApp/src/main/java/com/truex/ctv/referenceapp/ads/AdPodManager.java:201-212 | starting an overlay first destroys the live one, if any, so exactly the new overlay is live; timers are untouched |
| Segmenter.CreateAdSegments | CtvReferenceApp/src/main/java/com/truex/ctv/referenceapp/ads/AdPodManager.java:227-250 | at most two segments; none iff the pod is empty; every segment is non-empty, with a source matching its kind; the only possible individual segment is the first, holding just a leading true[X] item |
| Segmenter.SegmentLayout | CtvReferenceApp/src/main/java/com/truex/ctv/referenceapp/ads/AdPodManager.java:227-276 | for a non-empty pod: a leading true[X] item is segment 0 alone, played from its own URL with no completion notifications, followed by one concatenated segment holding exactly the rest when there is a rest; any other pod is one concatenated segment of the whole pod; each concatenated segment has one placeholder per ad, in order, at the ad's URL and duration × 1000 ms long |
| Segmenter.FlattenCreateAdSegments | CtvReferenceApp/src/main/java/com/truex/ctv/referenceapp/ads/AdPodManager.java:235-247 | the segments' ad lists, joined in order, are the input pod exactly |
| Segmenter.LateTruexIsConcatenated | CtvReferenceApp/src/main/java/com/truex/ctv/referenceapp/ads/AdPodManager.java:234-247 | any item after the first, a true[X] item included, lands in the final, concatenated segment |
| Segmenter.SamplePodSegments | CtvReferenceApp/src/main/java/com/truex/ctv/referenceapp/ads/SampleAdProvider.java:9-53 | the sample pod plays as [true[X] alone] then [IDVx, GDFP, GDFP] back to back |
| PodSequencer.PlayNextSegment | CtvReferenceApp/src/main/java/com/truex/ctv/referenceapp/ads/AdPodManager.java:152-165 | keeps the state valid, only appends calls, keeps pod and credit, and never moves the segment index back |
| PodSequencer.MoveToNextAd | CtvReferenceApp/src/main/java/com/truex/ctv/referenceapp/ads/AdPodManager.java:170-193 | with no current segment nothing changes; otherwise the position ends strictly later; without a view group no overlay or timer is created |
| PodSequencer.LaunchInfillionOverlayIfNecessary | CtvReferenceApp/src/main/java/com/truex/ctv/referenceapp/ads/AdPodManager.java:278-288 | keeps the state valid, only appends calls, never moves the position back; without a view group no overlay or timer is created |
| PodSequencer.ShowInfillionRenderer | CtvReferenceApp/src/main/java/com/truex/ctv/referenceapp/ads/AdPodManager.java:195-218 | keeps the state valid, only appends calls, never moves the position back; without a view group no overlay or timer is created |
| PodSequencer.OnInfillionAdComplete | CtvReferenceApp/src/main/java/com/truex/ctv/referenceapp/ads/AdPodManager.java:290-321 | keeps the state valid, only appends calls, keeps the credit once set, never moves the position back |
| PodProperties.SetAdPodResets | CtvReferenceApp/src/main/java/com/truex/ctv/referenceapp/ads/AdPodManager.java:93-102 | setAdPod destroys the overlay, installs the pod and its segments, resets both indices and the credit, and leaves the failsafe and the handler queue untouched |
| PodProperties.StartAdPodPlaysFirstSegment | CtvReferenceApp/src/main/java/com/truex/ctv/referenceapp/ads/AdPodManager.java:104-112 | startAdPod resets like setAdPod; an empty pod only signals completion; otherwise the first new call plays segment 0 with notifications iff it is concatenated; a non-interactive first item makes that the only call |
| PodProperties.PlayNextSegmentOutcomes | CtvReferenceApp/src/main/java/com/truex/ctv/referenceapp/ads/AdPodManager.java:152-165 | past the last segment: onAdPodComplete and nothing else; otherwise the first call plays the segment with notify == isConcatenated, and with a view group the ad index is 0 and the segment stays |
| PodProperties.LaunchWithViewGroupStaysPut | CtvReferenceApp/src/main/java/com/truex/ctv/referenceapp/ads/AdPodManager.java:278-288 | with a view group, launching an overlay never moves the position |
| PodProperties.MediaItemCompletedMovesOneStep | CtvReferenceApp/src/main/java/com/truex/ctv/referenceapp/ads/AdPodManager.java:170-193 | with a view group, one completed item moves exactly one step: next ad, or first ad of the next segment, or past the end with onAdPodComplete |
| PodProperties.EndPositionIsScaledPrefixSum | CtvReferenceApp/src/main/java/com/truex/ctv/referenceapp/ads/AdPodManager.java:323-338 | in a concatenated segment the end position is 1000 × the sum of durations of ads 0..index; in an individual one it is 0 |
| PodProperties.SeekOnlyForInteractiveAds | CtvReferenceApp/src/main/java/com/truex/ctv/referenceapp/ads/AdPodManager.java:278-288 | seek-and-pause to end position − 100 is the first call iff the current ad is TRUEX or IDVX; otherwise launching changes nothing |
| PodProperties.IndividualSegmentSeeksToMinus100 | CtvReferenceApp/src/main/java/com/truex/ctv/referenceapp/ads/AdPodManager.java:323-327 | an interactive ad in an individual segment is sought to −100 ms |
| PodProperties.ShowRendererOutcomes | CtvReferenceApp/src/main/java/com/truex/ctv/referenceapp/ads/AdPodManager.java:195-218 | no view group: an immediate no-credit completion; otherwise old overlay destroyed, new one started, a fresh failsafe of duration × 2000 ms armed for TRUEX as for IDVX, position unchanged |
| PodProperties.NoViewGroupNoOverlay | CtvReferenceApp/src/main/java/com/truex/ctv/referenceapp/ads/AdPodManager.java:196-199 | without a view group, startAdPod, onMediaItemCompleted and onPlaybackEnded never create an overlay or arm a failsafe |
| PodProperties.OverlayCompletionRules | CtvReferenceApp/src/main/java/com/truex/ctv/referenceapp/ads/AdPodManager.java:290-321 | completion first cancels the failsafe and destroys the overlay, then: IDVX in a concatenated segment → PLAY at 0, position and credit unchanged, whatever the credit; else credit → flag set and onSkipToContent; else moveToNextAd |
| PodProperties.TruexCreditSkipsToContent | CtvReferenceApp/src/main/java/com/truex/ctv/referenceapp/ads/AdPodManager.java:312-317 | a credited true[X] item records the credit, ends with onSkipToContent, leaves no overlay or failsafe, and does not move |
| PodProperties.PlaybackEndedAfterCompletionRepeats | CtvReferenceApp/src/main/java/com/truex/ctv/referenceapp/ads/AdPodManager.java:121-124 | past the end, onPlaybackEnded still bumps the segment index and fires onAdPodComplete, so a second call fires it again |
| PodProperties.CompleteItems | CtvReferenceApp/src/main/java/com/truex/ctv/referenceapp/ads/AdPodManager.java:128-135 | any number of item-completion events keep the sequencer's state valid |
| PodProperties.RegularItemsAdvance | CtvReferenceApp/src/main/java/com/truex/ctv/referenceapp/ads/AdPodManager.java:176-187 | in a concatenated segment of regular ads, k completions advance the ad index by k silently, and the one that reaches the end plays the next segment |
| PodProperties.RegularItemStep | CtvReferenceApp/src/main/java/com/truex/ctv/referenceapp/ads/AdPodManager.java:176-187 | one completion of a regular item is just ad index + 1, or plays the next segment after the last |
| PodProperties.LastRegularSegmentCompletes | CtvReferenceApp/src/main/java/com/truex/ctv/referenceapp/ads/AdPodManager.java:176-183 | finishing a last concatenated segment of regular ads adds exactly one onAdPodComplete |
| PodProperties.RegularPodCompletesOnce | CtvReferenceApp/src/main/java/com/truex/ctv/referenceapp/ads/AdPodManager.java:93-193 | a non-empty pod of regular ads plays once as one concatenated source and, after one completion per item, fires onAdPodComplete exactly once and nothing else |
| PodManager.AdPodManager.constructor | CtvReferenceApp/src/main/java/com/truex/ctv/referenceapp/ads/AdPodManager.java:58-69 | empty pod and segments, indices 0, no credit, no overlay, nothing posted |
| PodManager.AdPodManager.OnStop | CtvReferenceApp/src/main/java/com/truex/ctv/referenceapp/ads/AdPodManager.java:84-90 | the fields end as the onStop function says: overlay destroyed, failsafe left |
| PodManager.AdPodManager.SetAdPod | CtvReferenceApp/src/main/java/com/truex/ctv/referenceapp/ads/AdPodManager.java:93-102 | the fields end as SetAdPod computes (see SetAdPodResets) |
| PodManager.AdPodManager.StartAdPod | CtvReferenceApp/src/main/java/com/truex/ctv/referenceapp/ads/AdPodManager.java:104-112 | the fields end as StartAdPod computes (see StartAdPodPlaysFirstSegment) |
| PodManager.AdPodManager.IsPlayingInteractiveAd | CtvReferenceApp/src/main/java/com/truex/ctv/referenceapp/ads/AdPodManager.java:114-117 | true iff a current ad exists and is TRUEX or IDVX |
| PodManager.AdPodManager.OnPlaybackEnded | CtvReferenceApp/src/main/java/com/truex/ctv/referenceapp/ads/AdPodManager.java:121-124 | the fields end as OnPlaybackEnded computes (see PlaybackEndedAfterCompletionRepeats) |
| PodManager.AdPodManager.OnMediaItemCompleted | CtvReferenceApp/src/main/java/com/truex/ctv/referenceapp/ads/AdPodManager.java:128-135 | the fields end as OnMediaItemCompleted computes (see MediaItemCompletedMovesOneStep and RegularItemsAdvance) |
| PodManager.AdPodManager.OnOverlayComplete | CtvReferenceApp/src/main/java/com/truex/ctv/referenceapp/ads/AdPodManager.java:204-209 | the live overlay's callback runs onInfillionAdComplete with its credit |
| PodManager.AdPodManager.OnFailsafeFired | CtvReferenceApp/src/main/java/com/truex/ctv/referenceapp/ads/AdPodManager.java:344-347 | a queued runnable leaves the queue and forces a no-credit completion |
| PodManager.AdPodManager.GetCurrentSegment | CtvReferenceApp/src/main/java/com/truex/ctv/referenceapp/ads/AdPodManager.java:137-142 | the segment at the index, or none past the end |
| PodManager.AdPodManager.GetCurrentAd | CtvReferenceApp/src/main/java/com/truex/ctv/referenceapp/ads/AdPodManager.java:144-150 | the ad at the ad index of the current segment, or none |
| PodManager.AdPodManager.PlayNextSegment | CtvReferenceApp/src/main/java/com/truex/ctv/referenceapp/ads/AdPodManager.java:152-165 | the fields end as PlayNextSegment computes (see PlayNextSegmentOutcomes) |
| PodManager.AdPodManager.MoveToNextAd | CtvReferenceApp/src/main/java/com/truex/ctv/referenceapp/ads/AdPodManager.java:170-193 | the fields end as MoveToNextAd computes (see MediaItemCompletedMovesOneStep) |
| PodManager.AdPodManager.ShowInfillionRenderer | CtvReferenceApp/src/main/java/com/truex/ctv/referenceapp/ads/AdPodManager.java:195-218 | the fields end as ShowInfillionRenderer computes (see ShowRendererOutcomes) |
| PodManager.AdPodManager.CleanupInfillionAdManager | CtvReferenceApp/src/main/java/com/truex/ctv/referenceapp/ads/AdPodManager.java:220-225 | only the overlay and the log change, as the teardown function says (see CleanupIsIdempotent) |
| PodManager.AdPodManager.LaunchInfillionOverlayIfNecessary | CtvReferenceApp/src/main/java/com/truex/ctv/referenceapp/ads/AdPodManager.java:278-288 | the fields end as the launch function computes (see SeekOnlyForInteractiveAds) |
| PodManager.AdPodManager.OnInfillionAdComplete | CtvReferenceApp/src/main/java/com/truex/ctv/referenceapp/ads/AdPodManager.java:290-321 | the fields end as OnInfillionAdComplete computes (see OverlayCompletionRules) |
| PodManager.AdPodManager.CalculateEndPositionOfCurrentAd | CtvReferenceApp/src/main/java/com/truex/ctv/referenceapp/ads/AdPodManager.java:323-338 | the loop returns the end position: 1000 × the prefix sum in a concatenated segment, 0 otherwise (see EndPositionIsScaledPrefixSum) |
| PodManager.AdPodManager.StartFailsafeTimer | CtvReferenceApp/src/main/java/com/truex/ctv/referenceapp/ads/AdPodManager.java:340-350 | only the timer fields and the log change, as the arming function says (see ArmedTimerIsFresh) |
| PodManager.AdPodManager.CancelFailsafeTimer | CtvReferenceApp/src/main/java/com/truex/ctv/referenceapp/ads/AdPodManager.java:352-357 | only the timer fields and the log change, as the cancelling function says (see CancelIsIdempotent) |
| PodScenarios.Started | CtvReferenceApp/src/main/java/com/truex/ctv/referenceapp/ads/AdPodManager.java:104-112 | starting the sample pod plays the true[X] item alone, seeks to −100 ms, shows the true[X] overlay and arms a 60 000 ms failsafe, in that order |
| PodScenarios.MoveOnToIdvx | CtvReferenceApp/src/main/java/com/truex/ctv/referenceapp/ads/AdPodManager.java:188-192 | moving on from the sample's true[X] item plays the concatenated rest, seeks to 29 900 ms, shows the IDVx overlay and arms a fresh failsafe |
| PodScenarios.TruexDeclined | CtvReferenceApp/src/main/java/com/truex/ctv/referenceapp/ads/AdPodManager.java:290-321 | a no-credit true[X] completion cancels its failsafe, destroys the overlay and moves on to the IDVx item with the calls listed |
| PodScenarios.TruexCredited | CtvReferenceApp/src/main/java/com/truex/ctv/referenceapp/ads/AdPodManager.java:312-317 | a credited true[X] completion ends with onSkipToContent and plays nothing more |
| PodScenarios.IdvxFinished | CtvReferenceApp/src/main/java/com/truex/ctv/referenceapp/ads/AdPodManager.java:299-310 | the IDVx overlay, with or without credit, ends with PLAY at 0 and leaves the position on the IDVx item |
| PodScenarios.PodEnded | CtvReferenceApp/src/main/java/com/truex/ctv/referenceapp/ads/AdPodManager.java:176-183 | three item completions after the IDVx overlay add exactly one onAdPodComplete |
| PodScenarios.RestartedDuringTruex | CtvReferenceApp/src/main/java/com/truex/ctv/referenceapp/ads/AdPodManager.java:104-112 | restarting during the true[X] overlay destroys it but leaves its failsafe queued beside the new one |
| PodScenarios.StaleFailsafeFired | CtvReferenceApp/src/main/java/com/truex/ctv/referenceapp/ads/AdPodManager.java:344-347 | when that stale runnable fires, it cancels the new failsafe, closes the new true[X] overlay without credit and moves the new run on to the IDVx item |
| PodScenarios.StaleTimerFiresOnTruex | CtvReferenceApp/src/main/java/com/truex/ctv/referenceapp/ads/AdPodManager.java:290-321 | a queued runnable other than the remembered one, firing over the sample's true[X] overlay, acts like a declined true[X] |
| BreakProperties.SetCurrentAdBreakResets | CtvReferenceApp/src/main/java/com/truex/ctv/referenceapp/ads/AdManager.java:71-78 | the overlay is destroyed, the ads installed with one placeholder of duration × 1000 ms each, the index reset to 0; the failsafe is untouched |
| BreakProperties.IsPlayingInteractiveAdIff | CtvReferenceApp/src/main/java/com/truex/ctv/referenceapp/ads/AdManager.java:90-93 | true iff a current ad exists and its type is TRUEX or IDVX |
| BreakProperties.StartAdBreadPlaysOnce | CtvReferenceApp/src/main/java/com/truex/ctv/referenceapp/ads/AdManager.java:80-88 | tears down the overlay, rewinds to ad 0 and asks for the break's source; nothing after that asks for it again, and the index stays 0. If ad 0 is regular (or there is none), nothing else happens. If ad 0 is interactive, the next call is a seek-and-pause at duration × 1000 − 100, and then exactly that ad's overlay is live when there is a view group, none otherwise |
| BreakProperties.ShowRendererKeepsLog | CtvReferenceApp/src/main/java/com/truex/ctv/referenceapp/ads/AdManager.java:134-157 | showing the renderer only appends calls, never asks for the break's source, and keeps the index, ads and source; afterwards exactly the new overlay is live with a view group, none without |
| BreakProperties.PlaybackEndedOnlySignals | CtvReferenceApp/src/main/java/com/truex/ctv/referenceapp/ads/AdManager.java:97-99 | onPlaybackEnded fires onAdBreadComplete and changes nothing else, every time it is called |
| BreakProperties.OnMediaItemCompletedSteps | CtvReferenceApp/src/main/java/com/truex/ctv/referenceapp/ads/AdManager.java:103-132 | no-op past the end; else index + 1, with onAdBreadComplete on reaching the end, else a seek-and-pause only for an interactive new ad |
| BreakProperties.SeekTargetIsPrefixSum | CtvReferenceApp/src/main/java/com/truex/ctv/referenceapp/ads/AdManager.java:180-190 | the seek target is 1000 × the sum of durations of ads 0..index, minus 100 |
| BreakProperties.OverlayCompletionNeverAdvances | CtvReferenceApp/src/main/java/com/truex/ctv/referenceapp/ads/AdManager.java:192-208 | completion cancels the failsafe, destroys the overlay, then skips on credit or resumes with PLAY at 0; the index never changes |
| BreakProperties.ShowRendererOutcomes | CtvReferenceApp/src/main/java/com/truex/ctv/referenceapp/ads/AdManager.java:134-157 | with a view group: a fresh overlay and a new failsafe of duration × 2000 ms; without: an immediate no-credit completion, no overlay, no timer |
| BreakProperties.NoCreditRulesDiffer | CtvReferenceApp/src/main/java/com/truex/ctv/referenceapp/ads/AdManager.java:192-208 | without credit the older manager resumes in place, while the segment-aware one moves past a true[X] item |
| BreakManager.AdManager.constructor | CtvReferenceApp/src/main/java/com/truex/ctv/referenceapp/ads/AdManager.java:40-47 | no ads, no source, index 0, no overlay, nothing posted |
| BreakManager.AdManager.OnStop | CtvReferenceApp/src/main/java/com/truex/ctv/referenceapp/ads/AdManager.java:62-68 | the fields end as the onStop function says: overlay destroyed, failsafe left |
| BreakManager.AdManager.SetCurrentAdBreak | CtvReferenceApp/src/main/java/com/truex/ctv/referenceapp/ads/AdManager.java:71-78 | the fields end as SetCurrentAdBreak computes (see SetCurrentAdBreakResets) |
| BreakManager.AdManager.StartAdBread | CtvReferenceApp/src/main/java/com/truex/ctv/referenceapp/ads/AdManager.java:80-88 | the fields end as StartAdBread computes (see StartAdBreadPlaysOnce) |
| BreakManager.AdManager.IsPlayingInteractiveAd | CtvReferenceApp/src/main/java/com/truex/ctv/referenceapp/ads/AdManager.java:90-93 | the answer is the interactive-ad predicate (see IsPlayingInteractiveAdIff) |
| BreakManager.AdManager.OnPlaybackEnded | CtvReferenceApp/src/main/java/com/truex/ctv/referenceapp/ads/AdManager.java:97-99 | the fields end as OnPlaybackEnded computes (see PlaybackEndedOnlySignals) |
| BreakManager.AdManager.OnMediaItemCompleted | CtvReferenceApp/src/main/java/com/truex/ctv/referenceapp/ads/AdManager.java:103-110 | the fields end as OnMediaItemCompleted computes (see OnMediaItemCompletedSteps) |
| BreakManager.AdManager.OnOverlayComplete | CtvReferenceApp/src/main/java/com/truex/ctv/referenceapp/ads/AdManager.java:143-148 | the live overlay's callback runs onInfillionAdComplete with its credit |
| BreakManager.AdManager.OnFailsafeFired | CtvReferenceApp/src/main/java/com/truex/ctv/referenceapp/ads/AdManager.java:226-229 | a queued runnable leaves the queue and forces a no-credit completion |
| BreakManager.AdManager.GetCurrentAd | CtvReferenceApp/src/main/java/com/truex/ctv/referenceapp/ads/AdManager.java:112-117 | the ad at the index, or none past the end |
| BreakManager.AdManager.MoveToNextAd | CtvReferenceApp/src/main/java/com/truex/ctv/referenceapp/ads/AdManager.java:122-132 | the fields end as MoveToNextAd computes (see OnMediaItemCompletedSteps) |
| BreakManager.AdManager.ShowInfillionRenderer | CtvReferenceApp/src/main/java/com/truex/ctv/referenceapp/ads/AdManager.java:134-157 | the fields end as ShowInfillionRenderer computes (see ShowRendererOutcomes) |
| BreakManager.AdManager.CleanupInfillionAdManager | CtvReferenceApp/src/main/java/com/truex/ctv/referenceapp/ads/AdManager.java:159-164 | only the overlay and the log change, as the teardown function says |
| BreakManager.AdManager.LaunchInfillionOverlayIfNecessary | CtvReferenceApp/src/main/java/com/truex/ctv/referenceapp/ads/AdManager.java:180-190 | the fields end as the launch function computes (see SeekTargetIsPrefixSum) |
| BreakManager.AdManager.OnInfillionAdComplete | CtvReferenceApp/src/main/java/com/truex/ctv/referenceapp/ads/AdManager.java:192-208 | the fields end as OnInfillionAdComplete computes (see OverlayCompletionNeverAdvances) |
| BreakManager.AdManager.CalculateEndPositionOfCurrentAd | CtvReferenceApp/src/main/java/com/truex/ctv/referenceapp/ads/AdManager.java:210-220 | the loop returns 1000 × the sum of durations of ads 0..index |
| BreakManager.AdManager.StartFailsafeTimer | CtvReferenceApp/src/main/java/com/truex/ctv/referenceapp/ads/AdManager.java:222-232 | only the timer fields and the log change, as the arming function says |
| BreakManager.AdManager.CancelFailsafeTimer | CtvReferenceApp/src/main/java/com/truex/ctv/referenceapp/ads/AdManager.java:234-239 | only the timer fields and the log change, as the cancelling function says |
| Infillion.Run | CtvReferenceApp/src/main/java/com/truex/ctv/referenceapp/ads/InfillionAdManager.java:123-186 | whatever the renderer sends, reports are only appended, at most one is made, and none after the first |
| Infillion.CreatedIsFresh | CtvReferenceApp/src/main/java/com/truex/ctv/referenceapp/ads/InfillionAdManager.java:46-60 | a new manager has no credit, has reported nothing, holds a live callback and is not yet started |
| Infillion.CancelReportsNoCredit | CtvReferenceApp/src/main/java/com/truex/ctv/referenceapp/ads/InfillionAdManager.java:174-186 | cancel-stream reports false even after AD_FREE_POD, and is a no-op once destroyed |
| Infillion.DestroyedManagerIgnoresEvents | CtvReferenceApp/src/main/java/com/truex/ctv/referenceapp/ads/InfillionAdManager.java:114-121 | after destroy, no sequence of renderer events changes the manager |
| Infillion.FirstReportCarriesEarnedCredit | CtvReferenceApp/src/main/java/com/truex/ctv/referenceapp/ads/InfillionAdManager.java:123-186 | a live manager that has not reported makes exactly one report, at the first reporting event (a completion event, or the cancel-stream event when its handler is registered), then is torn down; the report is true iff that event is a completion event and AD_FREE_POD came before it (or credit was already held); cancelling first reports false |
| Infillion.SilentRunKeepsListening | CtvReferenceApp/src/main/java/com/truex/ctv/referenceapp/ads/InfillionAdManager.java:123-186 | while no reporting event arrives, the manager stays live and registered, reports nothing, and holds credit iff AD_FREE_POD has been seen |
| Infillion.CreditedEngagementReportsTrue | CtvReferenceApp/src/main/java/com/truex/ctv/referenceapp/ads/InfillionAdManager.java:148-158 | start, opt in, earn credit, complete: one report, carrying true |
| Infillion.CancelAfterCreditReportsFalse | CtvReferenceApp/src/main/java/com/truex/ctv/referenceapp/ads/InfillionAdManager.java:174-186 | earning credit and then cancelling the stream reports false with the switch on, and nothing with it off |
| InfillionManager.InfillionAdManager.constructor | CtvReferenceApp/src/main/java/com/truex/ctv/referenceapp/ads/InfillionAdManager.java:46-60 | the fields start as Created says; the cancel-stream handler is registered iff the switch is on |
| InfillionManager.InfillionAdManager.StartAd | CtvReferenceApp/src/main/java/com/truex/ctv/referenceapp/ads/InfillionAdManager.java:68-86 | the renderer is initialised with the URL and the options OptionsFor gives |
| InfillionManager.InfillionAdManager.Destroy | CtvReferenceApp/src/main/java/com/truex/ctv/referenceapp/ads/InfillionAdManager.java:114-121 | the general handler is unregistered and the callback dropped |
| InfillionManager.InfillionAdManager.AdEventHandler | CtvReferenceApp/src/main/java/com/truex/ctv/referenceapp/ads/InfillionAdManager.java:123-169 | the fields end as the event reducer says (see FirstReportCarriesEarnedCredit and SilentRunKeepsListening) |
| InfillionManager.InfillionAdManager.OnCancelStream | CtvReferenceApp/src/main/java/com/truex/ctv/referenceapp/ads/InfillionAdManager.java:174-186 | the fields end as OnCancelStream says (see CancelReportsNoCredit) |
| PlayerEvents.StepAppendsAtMostOne | app/src/main/java/com/truex/sheppard/player/PlayerEventListener.java:26-43 | each event makes at most one notification, appended after the earlier ones |
| PlayerEvents.StepStartRule | app/src/main/java/com/truex/sheppard/player/PlayerEventListener.java:33-39 | one event sets the flag iff it is play-while-ready, and announces a start iff the flag was clear |
| PlayerEvents.EveryErrorCancelsOnce | app/src/main/java/com/truex/sheppard/player/PlayerEventListener.java:26-43 | from a new listener, the stream is cancelled exactly as often as a player error occurs; no state change cancels it |
| PlayerEvents.ResumeOnlyAfterStart | app/src/main/java/com/truex/sheppard/player/PlayerEventListener.java:32-43 | from a new listener, the started flag is set iff onPlayerDidStart has been called, and every onPlayerDidResume comes after an onPlayerDidStart |
| PlayerEvents.StartAnnouncedOnce | app/src/main/java/com/truex/sheppard/player/PlayerEventListener.java:19-43 | from a new listener, playback has started iff some event was play-while-ready, and onPlayerDidStart was called exactly once then, never otherwise |
| PlayerListener.PlayerEventListener.constructor | app/src/main/java/com/truex/sheppard/player/PlayerEventListener.java:19-23 | the flag starts false, nothing notified |
| PlayerListener.PlayerEventListener.OnPlayerError | app/src/main/java/com/truex/sheppard/player/PlayerEventListener.java:26-29 | the fields end as the error rule says (see EveryErrorCancelsOnce) |
| PlayerListener.PlayerEventListener.OnPlayerStateChanged | app/src/main/java/com/truex/sheppard/player/PlayerEventListener.java:32-43 | the fields end as the state-change rules say (see StepStartRule, StartAnnouncedOnce and ResumeOnlyAfterStart) |

## Behaviour worth knowing

- **Restarting does not cancel the failsafe.** `setAdPod`, `startAdPod` and `onStop` destroy the overlay but never call `cancelFailsafeTimer` (AdPodManager.java:84-112). `startFailsafeTimer` then overwrites the remembered runnable (AdPodManager.java:340-350). A restart during an overlay therefore leaves the old runnable posted and forgotten. When it fires, it cancels the new failsafe and ends the new overlay without credit. `PodScenarios.RestartedDuringTruex` and `PodScenarios.StaleFailsafeFired` show this on the sample pod. This is why the model keeps the handler queue as a set of posted runnables rather than a single optional timer.
- **Error events can carry credit.** `AD_ERROR` and `NO_ADS_AVAILABLE` report the credit flag as it stands, like `AD_COMPLETED` (InfillionAdManager.java:148-153). An error after `AD_FREE_POD` therefore reports credit. `Infillion.FirstReportCarriesEarnedCredit` states the rule.
- **A late true[X] item is accepted.** Only position 0 is inspected (AdPodManager.java:235). A true[X] item anywhere else is concatenated with the rest, and is later shown as an overlay inside that timeline (`Segmenter.LateTruexIsConcatenated`).

## Left out

- Media sources are values. `ConcatenatingMediaSource2`, `ProgressiveMediaSource` and `MediaItem` are foreign library types, so a source is an opaque value. For a concatenated source only the placeholder list (URL, duration × 1000 ms) is kept.
- The player, the renderer SDK and the Android handler are outside the model. Their calls (`init`, `start`, `addEventListener`, `removeEventListener`, `postDelayed`, `removeCallbacks`) are appended to the log as commands.
- Real time is not modelled. A failsafe firing is an input event for any runnable still queued (`OnFailsafeFired`).
- The lifecycle forwarding `onResume`, `onPause` and `onStop` to the renderer is not modelled, because it only calls the SDK. The managers' `onStop` is modelled by its teardown only.
- The sequencers do not hold an `InfillionAdManager` object. The sequencers hold the overlay as a value (URL and type), and its completion callback is the input event `OnOverlayComplete`, allowed only while an overlay is live. The overlay's own event handling is modelled separately in `Infillion`. Its `Deliver` assumes the owner destroys the overlay on a report, which both sequencers do.
- `UUID.randomUUID` and every `Log` call are left out. They produce nothing the sequencers read.
- The static `supportUserCancelStream` switch becomes a parameter. It is read at construction and in `startAd`.
- `showAdAfterLoad` is the constant false (InfillionAdManager.java:43-44), so the deferred `start` in the `AD_DISPLAYED` branch cannot run and is not modelled.
- Java `int`/`long` become unbounded integers. An overflow of `duration * 1000L` or of the summed position cannot happen for realistic durations, so it is not modelled.
- Java `null` strings are `None`. A null ad list is not modelled. `createAdSegments` dereferences the list (AdPodManager.java:230), so a null pod fails on that dereference, after `setAdPod` has already torn the overlay down. `setCurrentAdBreak` likewise dereferences its list when building the media source.
- `List.subList` aliasing is not modelled. The segments hold copies (sequences), and the pod is never mutated after `setAdPod`.
- The public fields of `Ad` are not modelled as mutable fields of a shared object. Only the effect of reassigning `adSystem` on the stored type is stated (`Ads.ReassignedSystemKeepsType`).
- The sample pod uses short stand-in URLs. It is built from `AdPodItem`s so that it can be fed to `AdPodManager`. `SampleAdProvider` itself builds `Ad`s, and carries no logic.
- `MainActivity.java`, `PlaybackStateListener.java` and `PlaybackHandler.java` are not part of this model. The two interfaces only supply the names of the notifications. `AdType.java` is not part of this model either: the enum is declared as TRUEX, IDVX and REGULAR, as its uses imply.
- `STATE_READY` is the value 3 of the player library's `Player.STATE_READY`, which is not part of this model.
- PodSequencer.PlayNextSegment, PodSequencer.MoveToNextAd, PodSequencer.LaunchInfillionOverlayIfNecessary, PodSequencer.ShowInfillionRenderer, PodSequencer.OnInfillionAdComplete: their own contracts state only validity, progress and ordering. Their exact results are stated by the lemmas in `PodProperties` cited in the table.
