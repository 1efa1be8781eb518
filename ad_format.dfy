/** The five ad formats the library serves, with their string raw values. */
module AdFormats {
  import opened Wrappers

  datatype AdFormat = Banner | Interstitial | RewardedVideo | Native | AppOpen

  /** The raw value of a `String`-backed Swift enum case: the case name. */
  function RawValue(f: AdFormat): (s: string)
    ensures |s| >= 1 && '_' !in s
  {
    match f
    case Banner => "banner"
    case Interstitial => "interstitial"
    case RewardedVideo => "rewardedVideo"
    case Native => "native"
    case AppOpen => "appOpen"
  }

  /** Swift's synthesized `AdFormat(rawValue:)`: the format whose raw value is `s`, if any. */
  function FromRawValue(s: string): (r: Option<AdFormat>)
    ensures r.Some? ==> RawValue(r.value) == s
    ensures forall f :: RawValue(f) == s ==> r == Some(f)
  {
    if s == "banner" then Some(Banner)
    else if s == "interstitial" then Some(Interstitial)
    else if s == "rewardedVideo" then Some(RewardedVideo)
    else if s == "native" then Some(Native)
    else if s == "appOpen" then Some(AppOpen)
    else None
  }

  /** Distinct formats have distinct raw values. */
  lemma RawValueInjective(f: AdFormat, g: AdFormat)
    ensures RawValue(f) == RawValue(g) <==> f == g
  {
  }
}
