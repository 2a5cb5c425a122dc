/** One creative of an ad pod, as the segment-aware sequencer sees it. */
module AdPodItems {
  import opened Wrappers
  import opened AdTypes

  /**
   * An immutable record: every field is fixed by the constructor and only
   * read back by getters. The ad type is computed from adSystem once, at
   * construction; since adSystem never changes afterwards, it is modelled
   * as the function Type() of the record.
   */
  datatype AdPodItem = AdPodItem(
    adSystem: Option<string>,
    adUrl: Option<string>,
    vastConfigUrl: Option<string>,
    duration: int,
    position: int,
    adId: Option<string>)
  {
    function Type(): AdType {
      DetermineAdType(adSystem)
    }

    predicate IsInfillionAd() {
      IsInfillion(Type())
    }

    predicate IsRegularAd() {
      IsRegular(Type())
    }
  }

  /** The constructor: getters return its arguments and the type follows adSystem. */
  function NewAdPodItem(adSystem: Option<string>, adUrl: Option<string>, vastConfigUrl: Option<string>,
                        duration: int, position: int, adId: Option<string>): (item: AdPodItem)
    ensures item.adSystem == adSystem && item.adUrl == adUrl && item.vastConfigUrl == vastConfigUrl
    ensures item.duration == duration && item.position == position && item.adId == adId
    ensures item.Type() == DetermineAdType(adSystem)
  {
    AdPodItem(adSystem, adUrl, vastConfigUrl, duration, position, adId)
  }

  /** isInfillionAd holds exactly for the two interactive vendor names, isRegularAd for everything else. */
  lemma InfillionAdIffVendor(item: AdPodItem)
    ensures item.IsInfillionAd() <==> item.adSystem == Some(TRUEX_AD_SYSTEM) || item.adSystem == Some(IDVX_AD_SYSTEM)
    ensures item.IsRegularAd() <==> !item.IsInfillionAd()
  {
  }
}
