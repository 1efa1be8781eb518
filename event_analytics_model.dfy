/**
  The analytics event names the library records. `EventAnalyticsModel` belongs
  to the external analytics package; the library only ever builds one from a
  name string, so the model keeps just that string. Each builder below is one
  string interpolation; its contract gives the name's underscore-separated tokens.
 */
module EventAnalyticsModels {
  import opened AdFormats
  import opened IntText
  import opened Tokens

  datatype EventAnalyticsModel = EventAnalyticsModel(name: string)

  /** The twelve builders, told apart by the first token of the names they build. */
  datatype EventKind =
    | DidLoad | DidFailToLoad | DidDisplay | DidFailToDisplay | DidClick | DidDismiss
    | RevenuePaid | DidRewardUser | Expired | ImpressionTracked | DidExpand | DidCollapse

  /** The first token of every name of that kind. */
  function KindPrefix(k: EventKind): (s: string)
    ensures |s| >= 1 && Separator !in s
  {
    match k
    case DidLoad => "adDidLoad"
    case DidFailToLoad => "adDidFailToLoad"
    case DidDisplay => "adDidDisplay"
    case DidFailToDisplay => "adDidFailToDisplay"
    case DidClick => "adDidClick"
    case DidDismiss => "adDidDismiss"
    case RevenuePaid => "adRevenuePaid"
    case DidRewardUser => "adDidRewardUser"
    case Expired => "adExpired"
    case ImpressionTracked => "adImpressionTracked"
    case DidExpand => "adDidExpand"
    case DidCollapse => "adDidCollapse"
  }

  /** The tokens of `lead + raw`, where `lead` is a kind's prefix and an underscore. */
  lemma PlainTokens(k: EventKind, lead: string, f: AdFormat)
    requires lead == KindPrefix(k) + "_"
    ensures Split(lead + RawValue(f)) == [KindPrefix(k), RawValue(f)]
  {
    SplitAround(KindPrefix(k), RawValue(f));
    SplitSingle(KindPrefix(k));
    SplitSingle(RawValue(f));
  }

  /** The tokens of a failure name: kind, raw value, "error" and the decimal code. */
  lemma ErrorTokens(k: EventKind, lead: string, f: AdFormat, code: string)
    requires lead == KindPrefix(k) + "_" && Separator !in code
    ensures Split(lead + RawValue(f) + "_error_" + code) == [KindPrefix(k), RawValue(f), "error", code]
  {
    var x := lead + RawValue(f);
    PlainTokens(k, lead, f);
    assert x + "_error_" + code == x + ("_error_" + code);
    SplitConcat(x, "_error_" + code);
    assert ("_error_" + code)[1..] == "error" + "_" + code;
    SplitAround("error", code);
    SplitSingle("error");
    SplitSingle(code);
  }

  /** The tokens of `lead + raw + "_" + middle + "_" + last`. */
  lemma PayloadTokens(k: EventKind, lead: string, f: AdFormat, middle: string, last: string)
    requires lead == KindPrefix(k) + "_"
    ensures Split(lead + RawValue(f) + "_" + middle + "_" + last)
         == [KindPrefix(k), RawValue(f)] + Split(middle) + Split(last)
  {
    var x := lead + RawValue(f);
    PlainTokens(k, lead, f);
    SplitAround(x, middle);
    SplitAround(x + "_" + middle, last);
  }

  // Load events

  function AdDidLoad(f: AdFormat): (m: EventAnalyticsModel)
    ensures Split(m.name) == [KindPrefix(DidLoad), RawValue(f)]
  {
    PlainTokens(DidLoad, "adDidLoad_", f);
    EventAnalyticsModel("adDidLoad_" + RawValue(f))
  }

  function AdDidFailToLoad(f: AdFormat, errorCode: Int64): (m: EventAnalyticsModel)
    ensures Split(m.name) == [KindPrefix(DidFailToLoad), RawValue(f), "error", Decimal(errorCode)]
  {
    ErrorTokens(DidFailToLoad, "adDidFailToLoad_", f, Decimal(errorCode));
    EventAnalyticsModel("adDidFailToLoad_" + RawValue(f) + "_error_" + Decimal(errorCode))
  }

  // Display events

  function AdDidDisplay(f: AdFormat): (m: EventAnalyticsModel)
    ensures Split(m.name) == [KindPrefix(DidDisplay), RawValue(f)]
  {
    PlainTokens(DidDisplay, "adDidDisplay_", f);
    EventAnalyticsModel("adDidDisplay_" + RawValue(f))
  }

  function AdDidFailToDisplay(f: AdFormat, errorCode: Int64): (m: EventAnalyticsModel)
    ensures Split(m.name) == [KindPrefix(DidFailToDisplay), RawValue(f), "error", Decimal(errorCode)]
  {
    ErrorTokens(DidFailToDisplay, "adDidFailToDisplay_", f, Decimal(errorCode));
    EventAnalyticsModel("adDidFailToDisplay_" + RawValue(f) + "_error_" + Decimal(errorCode))
  }

  // Click and dismiss events

  function AdDidClick(f: AdFormat): (m: EventAnalyticsModel)
    ensures Split(m.name) == [KindPrefix(DidClick), RawValue(f)]
  {
    PlainTokens(DidClick, "adDidClick_", f);
    EventAnalyticsModel("adDidClick_" + RawValue(f))
  }

  function AdDidDismiss(f: AdFormat): (m: EventAnalyticsModel)
    ensures Split(m.name) == [KindPrefix(DidDismiss), RawValue(f)]
  {
    PlainTokens(DidDismiss, "adDidDismiss_", f);
    EventAnalyticsModel("adDidDismiss_" + RawValue(f))
  }

  // Revenue and reward events

  /**
    The revenue is a Swift `Double`; how Swift writes a `Double` as text is not
    part of this model, so the builder takes that rendering as `describe`.
   */
  function AdRevenuePaid<D>(f: AdFormat, revenue: D, currency: string, describe: D -> string): (m: EventAnalyticsModel)
    ensures Split(m.name) == [KindPrefix(RevenuePaid), RawValue(f)] + Split(currency) + Split(describe(revenue))
  {
    PayloadTokens(RevenuePaid, "adRevenuePaid_", f, currency, describe(revenue));
    EventAnalyticsModel("adRevenuePaid_" + RawValue(f) + "_" + currency + "_" + describe(revenue))
  }

  function AdDidRewardUser(f: AdFormat, rewardAmount: Int64, rewardType: string): (m: EventAnalyticsModel)
    ensures Split(m.name) == [KindPrefix(DidRewardUser), RawValue(f)] + Split(rewardType) + [Decimal(rewardAmount)]
  {
    PayloadTokens(DidRewardUser, "adDidRewardUser_", f, rewardType, Decimal(rewardAmount));
    SplitSingle(Decimal(rewardAmount));
    EventAnalyticsModel("adDidRewardUser_" + RawValue(f) + "_" + rewardType + "_" + Decimal(rewardAmount))
  }

  // Expiry, impression and banner view events

  function AdExpired(f: AdFormat): (m: EventAnalyticsModel)
    ensures Split(m.name) == [KindPrefix(Expired), RawValue(f)]
  {
    PlainTokens(Expired, "adExpired_", f);
    EventAnalyticsModel("adExpired_" + RawValue(f))
  }

  function AdImpressionTracked(f: AdFormat): (m: EventAnalyticsModel)
    ensures Split(m.name) == [KindPrefix(ImpressionTracked), RawValue(f)]
  {
    PlainTokens(ImpressionTracked, "adImpressionTracked_", f);
    EventAnalyticsModel("adImpressionTracked_" + RawValue(f))
  }

  function AdDidExpand(f: AdFormat): (m: EventAnalyticsModel)
    ensures Split(m.name) == [KindPrefix(DidExpand), RawValue(f)]
  {
    PlainTokens(DidExpand, "adDidExpand_", f);
    EventAnalyticsModel("adDidExpand_" + RawValue(f))
  }

  function AdDidCollapse(f: AdFormat): (m: EventAnalyticsModel)
    ensures Split(m.name) == [KindPrefix(DidCollapse), RawValue(f)]
  {
    PlainTokens(DidCollapse, "adDidCollapse_", f);
    EventAnalyticsModel("adDidCollapse_" + RawValue(f))
  }
}
