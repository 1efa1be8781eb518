/**
  The analytics events of the ad lifecycle: what happened (the kind), to which
  ad format, and any payload. Each event has a coarse category and an
  analytics model, which is its event name.
 */
module AnalyticsEvents {
  import opened AdFormats
  import opened IntText
  import opened Tokens
  import M = EventAnalyticsModels

  datatype AnalyticsEventCategory =
    | Load | Display | Click | Dismiss | Revenue | Reward | Expiry | Impression | View

  /** `AnalyticsEventCategory.allCases`, in declaration order. */
  function AllCategories(): (cs: seq<AnalyticsEventCategory>)
    ensures |cs| == 9
    ensures forall i, j | 0 <= i < j < |cs| :: cs[i] != cs[j]
  {
    [Load, Display, Click, Dismiss, Revenue, Reward, Expiry, Impression, View]
  }

  /** `allCases` lists every category. */
  lemma AllCategoriesComplete(c: AnalyticsEventCategory)
    ensures c in AllCategories()
  {
  }

  /** A Swift `Double`, as its IEEE-754 bit pattern; the model never interprets it. */
  datatype Double = Double(bits: bv64)

  /**
    The events, generic in the type of the revenue amount: the library's own
    `AdAnalyticsEvent` is `AdAnalyticsEventOf<Double>`. A name read back from
    text gives `AdAnalyticsEventOf<string>`, where the amount is the text it was
    written as.
   */
  datatype AdAnalyticsEventOf<D> =
    | AdDidLoad(format: AdFormat)
    | AdDidFailToLoad(format: AdFormat, errorCode: Int64)
    | AdDidDisplay(format: AdFormat)
    | AdDidFailToDisplay(format: AdFormat, errorCode: Int64)
    | AdDidClick(format: AdFormat)
    | AdDidDismiss(format: AdFormat)
    | AdRevenuePaid(format: AdFormat, revenue: D, currency: string)
    | AdDidRewardUser(format: AdFormat, rewardAmount: Int64, rewardType: string)
    | AdExpired(format: AdFormat)
    | AdImpressionTracked(format: AdFormat)
    | AdDidExpand(format: AdFormat)
    | AdDidCollapse(format: AdFormat)

  type AdAnalyticsEvent = AdAnalyticsEventOf<Double>

  /** Which of the twelve cases an event is, without its format and payload. */
  function Kind<D>(e: AdAnalyticsEventOf<D>): M.EventKind {
    match e
    case AdDidLoad(_) => M.DidLoad
    case AdDidFailToLoad(_, _) => M.DidFailToLoad
    case AdDidDisplay(_) => M.DidDisplay
    case AdDidFailToDisplay(_, _) => M.DidFailToDisplay
    case AdDidClick(_) => M.DidClick
    case AdDidDismiss(_) => M.DidDismiss
    case AdRevenuePaid(_, _, _) => M.RevenuePaid
    case AdDidRewardUser(_, _, _) => M.DidRewardUser
    case AdExpired(_) => M.Expired
    case AdImpressionTracked(_) => M.ImpressionTracked
    case AdDidExpand(_) => M.DidExpand
    case AdDidCollapse(_) => M.DidCollapse
  }

  /** The same event with its revenue amount replaced by `describe` of it. */
  function MapRevenue<D, E>(e: AdAnalyticsEventOf<D>, describe: D -> E): (r: AdAnalyticsEventOf<E>)
    ensures Kind(r) == Kind(e) && r.format == e.format
  {
    match e
    case AdDidLoad(f) => AdDidLoad(f)
    case AdDidFailToLoad(f, c) => AdDidFailToLoad(f, c)
    case AdDidDisplay(f) => AdDidDisplay(f)
    case AdDidFailToDisplay(f, c) => AdDidFailToDisplay(f, c)
    case AdDidClick(f) => AdDidClick(f)
    case AdDidDismiss(f) => AdDidDismiss(f)
    case AdRevenuePaid(f, v, cur) => AdRevenuePaid(f, describe(v), cur)
    case AdDidRewardUser(f, a, t) => AdDidRewardUser(f, a, t)
    case AdExpired(f) => AdExpired(f)
    case AdImpressionTracked(f) => AdImpressionTracked(f)
    case AdDidExpand(f) => AdDidExpand(f)
    case AdDidCollapse(f) => AdDidCollapse(f)
  }

  /** Load and display outcomes share a category, as do banner expand and collapse. */
  function Category<D>(e: AdAnalyticsEventOf<D>): (c: AnalyticsEventCategory)
    ensures c == Load <==> e.AdDidLoad? || e.AdDidFailToLoad?
    ensures c == Display <==> e.AdDidDisplay? || e.AdDidFailToDisplay?
    ensures c == Click <==> e.AdDidClick?
    ensures c == Dismiss <==> e.AdDidDismiss?
    ensures c == Revenue <==> e.AdRevenuePaid?
    ensures c == Reward <==> e.AdDidRewardUser?
    ensures c == Expiry <==> e.AdExpired?
    ensures c == Impression <==> e.AdImpressionTracked?
    ensures c == View <==> e.AdDidExpand? || e.AdDidCollapse?
  {
    match e
    case AdDidLoad(_) | AdDidFailToLoad(_, _) => Load
    case AdDidDisplay(_) | AdDidFailToDisplay(_, _) => Display
    case AdDidClick(_) => Click
    case AdDidDismiss(_) => Dismiss
    case AdRevenuePaid(_, _, _) => Revenue
    case AdDidRewardUser(_, _, _) => Reward
    case AdExpired(_) => Expiry
    case AdImpressionTracked(_) => Impression
    case AdDidExpand(_) | AdDidCollapse(_) => View
  }

  /**
    The event's name, built by the builder of the same name from the event's
    own format and payload. `describe` is how the revenue amount is written.
   */
  function AnalyticsModel<D>(e: AdAnalyticsEventOf<D>, describe: D -> string): (m: M.EventAnalyticsModel)
    ensures |Split(m.name)| >= 2
    ensures Split(m.name)[0] == M.KindPrefix(Kind(e))
    ensures Split(m.name)[1] == RawValue(e.format)
  {
    match e
    case AdDidLoad(f) => M.AdDidLoad(f)
    case AdDidFailToLoad(f, c) => M.AdDidFailToLoad(f, c)
    case AdDidDisplay(f) => M.AdDidDisplay(f)
    case AdDidFailToDisplay(f, c) => M.AdDidFailToDisplay(f, c)
    case AdDidClick(f) => M.AdDidClick(f)
    case AdDidDismiss(f) => M.AdDidDismiss(f)
    case AdRevenuePaid(f, v, cur) => M.AdRevenuePaid(f, v, cur, describe)
    case AdDidRewardUser(f, a, t) => M.AdDidRewardUser(f, a, t)
    case AdExpired(f) => M.AdExpired(f)
    case AdImpressionTracked(f) => M.AdImpressionTracked(f)
    case AdDidExpand(f) => M.AdDidExpand(f)
    case AdDidCollapse(f) => M.AdDidCollapse(f)
  }

  /**
    The payload part of a name: nothing after the format for payload-free
    events, "error" and the decimal code for failures, and the decimal reward
    amount as the last token of a reward name.
   */
  lemma NamePayload<D>(e: AdAnalyticsEventOf<D>, describe: D -> string)
    ensures var ts := Split(AnalyticsModel(e, describe).name);
      && (|ts| == 2 <==> Category(e) !in {Revenue, Reward} && !e.AdDidFailToLoad? && !e.AdDidFailToDisplay?)
      && (e.AdDidFailToLoad? || e.AdDidFailToDisplay? ==> ts[2..] == ["error", Decimal(e.errorCode)])
      && (e.AdDidRewardUser? ==> |ts| >= 4 && ts[|ts| - 1] == Decimal(e.rewardAmount))
  {
  }

  /** Every category is the category of some event. */
  lemma CategoryOnto(c: AnalyticsEventCategory)
    ensures exists e: AdAnalyticsEvent :: Category(e) == c
  {
    var e: AdAnalyticsEvent := match c
      case Load => AdDidLoad(Banner)
      case Display => AdDidDisplay(Banner)
      case Click => AdDidClick(Banner)
      case Dismiss => AdDidDismiss(Banner)
      case Revenue => AdRevenuePaid(Banner, Double(0), "USD")
      case Reward => AdDidRewardUser(Banner, 1, "coins")
      case Expiry => AdExpired(Native)
      case Impression => AdImpressionTracked(Banner)
      case View => AdDidExpand(Banner);
    assert Category(e) == c;
  }

  /** The category depends only on the kind of event. */
  lemma CategoryByKind<D, E>(e: AdAnalyticsEventOf<D>, g: AdAnalyticsEventOf<E>)
    requires Kind(e) == Kind(g)
    ensures Category(e) == Category(g)
  {
  }
}
