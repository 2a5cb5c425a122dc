/** The older ad record used by the single-timeline sequencer. */
module Ads {
  import opened Wrappers
  import opened AdTypes

  /**
   * Every field is public and assignable, and adType is a stored field
   * computed once by the constructor. Assigning a field is modelled as a
   * datatype update `a.(adSystem := s)`, which leaves adType as it was.
   */
  datatype Ad = Ad(
    adSystem: Option<string>,
    adUrl: Option<string>,
    vastConfigUrl: Option<string>,
    duration: int,
    position: int,
    adId: Option<string>,
    adType: AdType)
  {
    predicate IsInfillionAd() {
      IsInfillion(adType)
    }

    predicate IsRegularAd() {
      IsRegular(adType)
    }
  }

  /** The constructor stores its arguments verbatim and classifies adSystem once. */
  function NewAd(adSystem: Option<string>, adUrl: Option<string>, vastConfigUrl: Option<string>,
                 duration: int, position: int, adId: Option<string>): (a: Ad)
    ensures a.adSystem == adSystem && a.adUrl == adUrl && a.vastConfigUrl == vastConfigUrl
    ensures a.duration == duration && a.position == position && a.adId == adId
    ensures a.adType == DetermineAdType(adSystem)
  {
    Ad(adSystem, adUrl, vastConfigUrl, duration, position, adId, DetermineAdType(adSystem))
  }

  /** isInfillionAd and isRegularAd are complementary. */
  lemma InfillionAdXorRegularAd(a: Ad)
    ensures a.IsInfillionAd() != a.IsRegularAd()
  {
    InfillionXorRegular(a.adType);
  }

  /** adType is stored, not derived: reassigning adSystem does not reclassify the ad. */
  lemma ReassignedSystemKeepsType(a: Ad, adSystem: Option<string>)
    ensures a.(adSystem := adSystem).adType == a.adType
  {
  }

  /** A constructed true[X] ad whose adSystem is later overwritten still reports TRUEX. */
  lemma StoredTypeCanDisagreeWithSystem()
    ensures var a := NewAd(Some("trueX"), None, None, 30, 1, None).(adSystem := Some("GDFP"));
            a.adType == TRUEX && DetermineAdType(a.adSystem) == REGULAR
  {
  }
}
