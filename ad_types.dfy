/**
 * The classification shared by AdPodItem and the older Ad record: an ad's
 * type is decided by an exact, case-sensitive comparison of its adSystem
 * string against two vendor names; a null or unknown system is a regular ad.
 */
module AdTypes {
  import opened Wrappers

  datatype AdType = TRUEX | IDVX | REGULAR

  const TRUEX_AD_SYSTEM: string := "trueX"
  const IDVX_AD_SYSTEM: string := "IDVx"

  /** `"trueX".equals(adSystem)` is false for null, so None is REGULAR. */
  function DetermineAdType(adSystem: Option<string>): (t: AdType)
    ensures t == TRUEX <==> adSystem == Some(TRUEX_AD_SYSTEM)
    ensures t == IDVX <==> adSystem == Some(IDVX_AD_SYSTEM)
    ensures t == REGULAR <==> adSystem != Some(TRUEX_AD_SYSTEM) && adSystem != Some(IDVX_AD_SYSTEM)
  {
    if adSystem == Some(TRUEX_AD_SYSTEM) then TRUEX
    else if adSystem == Some(IDVX_AD_SYSTEM) then IDVX
    else REGULAR
  }

  /** An Infillion ad is one that hands control to the interactive overlay. */
  predicate IsInfillion(t: AdType) {
    t == TRUEX || t == IDVX
  }

  predicate IsRegular(t: AdType) {
    t == REGULAR
  }

  /** Every ad is exactly one of interactive and regular. */
  lemma InfillionXorRegular(t: AdType)
    ensures IsInfillion(t) != IsRegular(t)
  {
  }

  /** The match is exact: other spellings and a null system are regular ads. */
  lemma ClassificationIsExact()
    ensures DetermineAdType(Some("truex")) == REGULAR
    ensures DetermineAdType(Some("TRUEX")) == REGULAR
    ensures DetermineAdType(Some("idvx")) == REGULAR
    ensures DetermineAdType(Some("GDFP")) == REGULAR
    ensures DetermineAdType(None) == REGULAR
  {
  }
}
