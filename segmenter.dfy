/**
 * Splitting a pod into playback segments: a leading true[X] item plays on
 * its own; every other item plays in one concatenated timeline.
 */
module Segmenter {
  import opened Wrappers
  import opened AdTypes
  import opened AdPodItems
  import opened Media

  /**
   * A segment: its ads, the media source that plays them, and whether they
   * play back to back in one timeline (so the player reports each item's end).
   */
  datatype AdSegment = AdSegment(ads: seq<AdPodItem>, mediaSource: MediaSource, isConcatenated: bool)

  function PlaceholdersOf(ads: seq<AdPodItem>): seq<Placeholder> {
    seq(|ads|, i requires 0 <= i < |ads| => PlaceholderFor(ads[i].adUrl, ads[i].duration))
  }

  function CreateIndividualSegment(ad: AdPodItem): AdSegment {
    AdSegment([ad], ProgressiveSource(ad.adUrl), false)
  }

  function CreateConcatenatedSegment(ads: seq<AdPodItem>): AdSegment {
    AdSegment(ads, ConcatenatedSource(PlaceholdersOf(ads)), true)
  }

  /**
   * A segment as the segmenter builds it: non-empty; an individual segment
   * is one item played from its own URL; a concatenated one has one
   * placeholder per ad, each `duration * 1000` ms long.
   */
  predicate SegmentWellFormed(segment: AdSegment) {
    && segment.ads != []
    && (!segment.isConcatenated ==>
          |segment.ads| == 1 && segment.mediaSource == ProgressiveSource(segment.ads[0].adUrl))
    && (segment.isConcatenated ==> segment.mediaSource == ConcatenatedSource(PlaceholdersOf(segment.ads)))
  }

  function CreateAdSegments(adPod: seq<AdPodItem>): (segments: seq<AdSegment>)
    ensures |segments| <= 2
    ensures adPod == [] <==> segments == []
    ensures forall i :: 0 <= i < |segments| ==> SegmentWellFormed(segments[i])
    ensures forall i :: 0 <= i < |segments| && !segments[i].isConcatenated ==>
              i == 0 && segments[i].ads == [adPod[0]] && adPod[0].Type() == TRUEX
  {
    if adPod == [] then []
    else if adPod[0].Type() == TRUEX then
      [CreateIndividualSegment(adPod[0])] + (if |adPod| > 1 then [CreateConcatenatedSegment(adPod[1..])] else [])
    else
      [CreateConcatenatedSegment(adPod)]
  }

  /** The ads of a list of segments, in segment order. */
  function Flatten(segments: seq<AdSegment>): seq<AdPodItem> {
    if segments == [] then [] else segments[0].ads + Flatten(segments[1..])
  }

  /**
   * The three shapes: nothing for an empty pod; a leading true[X] alone,
   * then the rest concatenated when there is a rest; otherwise the whole
   * pod in one concatenated segment.
   */
  lemma SegmentShapes(adPod: seq<AdPodItem>)
    ensures adPod == [] ==> CreateAdSegments(adPod) == []
    ensures adPod != [] && adPod[0].Type() == TRUEX && |adPod| == 1 ==>
              CreateAdSegments(adPod) == [CreateIndividualSegment(adPod[0])]
    ensures adPod != [] && adPod[0].Type() == TRUEX && |adPod| > 1 ==>
              CreateAdSegments(adPod) == [CreateIndividualSegment(adPod[0]), CreateConcatenatedSegment(adPod[1..])]
    ensures adPod != [] && adPod[0].Type() != TRUEX ==>
              CreateAdSegments(adPod) == [CreateConcatenatedSegment(adPod)]
  {
  }

  /**
   * The segments of a non-empty pod, field by field. A leading true[X] item
   * is the first segment on its own, played from its own URL without
   * item-completion notifications, followed by one concatenated segment of
   * everything after it when there is anything; any other pod is one
   * concatenated segment. Every concatenated segment gives each of its ads,
   * in order, a placeholder of `duration * 1000` ms at that ad's URL.
   */
  lemma SegmentLayout(adPod: seq<AdPodItem>)
    requires adPod != []
    ensures var segs := CreateAdSegments(adPod);
            && (adPod[0].Type() == TRUEX ==>
                  && |segs| == (if |adPod| == 1 then 1 else 2)
                  && segs[0].ads == [adPod[0]] && !segs[0].isConcatenated
                  && segs[0].mediaSource == ProgressiveSource(adPod[0].adUrl)
                  && (|adPod| > 1 ==> segs[1].ads == adPod[1..] && segs[1].isConcatenated))
            && (adPod[0].Type() != TRUEX ==>
                  |segs| == 1 && segs[0].ads == adPod && segs[0].isConcatenated)
    ensures var segs := CreateAdSegments(adPod);
            forall k :: 0 <= k < |segs| && segs[k].isConcatenated ==>
              && segs[k].mediaSource.ConcatenatedSource?
              && |segs[k].mediaSource.items| == |segs[k].ads|
              && (forall j :: 0 <= j < |segs[k].ads| ==>
                    segs[k].mediaSource.items[j] == Placeholder(segs[k].ads[j].adUrl, segs[k].ads[j].duration * 1000))
  {
  }

  /** Segmenting loses, duplicates and reorders nothing. */
  lemma {:induction false} FlattenCreateAdSegments(adPod: seq<AdPodItem>)
    ensures Flatten(CreateAdSegments(adPod)) == adPod
  {
    var segments := CreateAdSegments(adPod);
    if adPod == [] {
    } else if adPod[0].Type() == TRUEX {
      if |adPod| > 1 {
        assert segments[1..][1..] == [];
        assert Flatten(segments[1..]) == adPod[1..] + Flatten([]);
      } else {
        assert segments[1..] == [];
      }
      assert [adPod[0]] + adPod[1..] == adPod;
    } else {
      assert segments[1..] == [];
    }
  }

  /**
   * Only position 0 is inspected: a true[X] item anywhere else is played
   * inside the concatenated segment, like any other item.
   */
  lemma LateTruexIsConcatenated(adPod: seq<AdPodItem>, k: nat)
    requires 0 < k < |adPod|
    ensures var segments := CreateAdSegments(adPod);
            segments[|segments| - 1].isConcatenated && adPod[k] in segments[|segments| - 1].ads
  {
    var segments := CreateAdSegments(adPod);
    if adPod[0].Type() == TRUEX {
      assert adPod[k] == adPod[1..][k - 1];
    }
  }

  /** The preroll pod of the sample provider, as AdPodItems: trueX, IDVx, GDFP, GDFP, 30 s each. */
  function SamplePod(): seq<AdPodItem> {
    [ NewAdPodItem(Some("trueX"), Some("truex-30s.mp4"), Some("truex-vast"), 30, 1, Some("truex-preroll")),
      NewAdPodItem(Some("IDVx"), Some("idvx-30s.mp4"), Some("idvx-vast"), 30, 2, Some("idvx-preroll")),
      NewAdPodItem(Some("GDFP"), Some("airline.mp4"), None, 30, 3, Some("airline-preroll")),
      NewAdPodItem(Some("GDFP"), Some("pets.mp4"), None, 30, 4, Some("pets-preroll")) ]
  }

  /** The sample pod plays as [trueX alone] then [IDVx, GDFP, GDFP] back to back. */
  lemma SamplePodSegments()
    ensures var pod := SamplePod();
            CreateAdSegments(pod) == [CreateIndividualSegment(pod[0]), CreateConcatenatedSegment(pod[1..])]
            && pod[1..] == [pod[1], pod[2], pod[3]]
  {
  }
}
