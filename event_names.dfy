/**
  Reading an event name back. `ParseName` inverts `AnalyticsModel`: a name
  determines the event's kind, format and payload, the revenue amount up to
  the text it was written as.
 */
module EventNames {
  import opened Wrappers
  import opened AdFormats
  import opened IntText
  import opened Tokens
  import opened AnalyticsEvents
  import M = EventAnalyticsModels

  /** The kind whose names begin with token `t`, if any. */
  function KindOfPrefix(t: string): (r: Option<M.EventKind>)
    ensures r.Some? ==> M.KindPrefix(r.value) == t
    ensures forall k :: M.KindPrefix(k) == t ==> r == Some(k)
  {
    if t == "adDidLoad" then Some(M.DidLoad)
    else if t == "adDidFailToLoad" then Some(M.DidFailToLoad)
    else if t == "adDidDisplay" then Some(M.DidDisplay)
    else if t == "adDidFailToDisplay" then Some(M.DidFailToDisplay)
    else if t == "adDidClick" then Some(M.DidClick)
    else if t == "adDidDismiss" then Some(M.DidDismiss)
    else if t == "adRevenuePaid" then Some(M.RevenuePaid)
    else if t == "adDidRewardUser" then Some(M.DidRewardUser)
    else if t == "adExpired" then Some(M.Expired)
    else if t == "adImpressionTracked" then Some(M.ImpressionTracked)
    else if t == "adDidExpand" then Some(M.DidExpand)
    else if t == "adDidCollapse" then Some(M.DidCollapse)
    else None
  }

  /** Writes a revenue amount that is already text: the text itself. */
  function Verbatim(s: string): string {
    s
  }

  /** The code of a failure name's tail `["error", code]`. */
  function ParseErrorCode(rest: seq<string>): Option<Int64> {
    if |rest| == 2 && rest[0] == "error" then ParseInt64(rest[1]) else None
  }

  /** The event of kind `k` and format `f` whose payload tokens are `rest`. */
  function ParsePayload(k: M.EventKind, f: AdFormat, rest: seq<string>): Option<AdAnalyticsEventOf<string>> {
    match k
    case DidLoad => if rest == [] then Some(AdDidLoad(f)) else None
    case DidFailToLoad =>
      (match ParseErrorCode(rest)
       case Some(c) => Some(AdDidFailToLoad(f, c))
       case None => None)
    case DidDisplay => if rest == [] then Some(AdDidDisplay(f)) else None
    case DidFailToDisplay =>
      (match ParseErrorCode(rest)
       case Some(c) => Some(AdDidFailToDisplay(f, c))
       case None => None)
    case DidClick => if rest == [] then Some(AdDidClick(f)) else None
    case DidDismiss => if rest == [] then Some(AdDidDismiss(f)) else None
    case RevenuePaid =>
      if |rest| >= 2 then Some(AdRevenuePaid(f, rest[|rest| - 1], Join(rest[..|rest| - 1]))) else None
    case DidRewardUser =>
      if |rest| >= 2 then
        (match ParseInt64(rest[|rest| - 1])
         case Some(a) => Some(AdDidRewardUser(f, a, Join(rest[..|rest| - 1])))
         case None => None)
      else None
    case Expired => if rest == [] then Some(AdExpired(f)) else None
    case ImpressionTracked => if rest == [] then Some(AdImpressionTracked(f)) else None
    case DidExpand => if rest == [] then Some(AdDidExpand(f)) else None
    case DidCollapse => if rest == [] then Some(AdDidCollapse(f)) else None
  }

  /** The event a name records: kind token, format token, then the payload tokens. */
  function ParseName(name: string): Option<AdAnalyticsEventOf<string>> {
    var ts := Split(name);
    if |ts| < 2 then None
    else
      match (KindOfPrefix(ts[0]), FromRawValue(ts[1]))
      case (Some(k), Some(f)) => ParsePayload(k, f, ts[2..])
      case _ => None
  }

  /** A name's first two tokens are read back as its kind and format. */
  lemma ParseHead<D>(e: AdAnalyticsEventOf<D>, describe: D -> string)
    ensures var ts := Split(AnalyticsModel(e, describe).name);
      && |ts| >= 2
      && KindOfPrefix(ts[0]) == Some(Kind(e))
      && FromRawValue(ts[1]) == Some(e.format)
  {
  }

  predicate PayloadFree<D>(e: AdAnalyticsEventOf<D>) {
    !(e.AdDidFailToLoad? || e.AdDidFailToDisplay? || e.AdRevenuePaid? || e.AdDidRewardUser?)
  }

  lemma ParsePlainModel<D>(e: AdAnalyticsEventOf<D>, describe: D -> string)
    requires PayloadFree(e)
    ensures ParseName(AnalyticsModel(e, describe).name) == Some(MapRevenue(e, describe))
  {
    ParseHead(e, describe);
  }

  lemma ParseFailureModel<D>(e: AdAnalyticsEventOf<D>, describe: D -> string)
    requires e.AdDidFailToLoad? || e.AdDidFailToDisplay?
    ensures ParseName(AnalyticsModel(e, describe).name) == Some(MapRevenue(e, describe))
  {
    ParseHead(e, describe);
    Int64RoundTrip(e.errorCode);
  }

  lemma ParseRewardModel<D>(e: AdAnalyticsEventOf<D>, describe: D -> string)
    requires e.AdDidRewardUser?
    ensures ParseName(AnalyticsModel(e, describe).name) == Some(MapRevenue(e, describe))
  {
    ParseHead(e, describe);
    var rest := Split(AnalyticsModel(e, describe).name)[2..];
    Int64RoundTrip(e.rewardAmount);
    JoinSplit(e.rewardType);
    assert rest == Split(e.rewardType) + [Decimal(e.rewardAmount)];
    assert rest[..|rest| - 1] == Split(e.rewardType);
  }

  lemma ParseRevenueModel<D>(e: AdAnalyticsEventOf<D>, describe: D -> string)
    requires e.AdRevenuePaid? && Separator !in describe(e.revenue)
    ensures ParseName(AnalyticsModel(e, describe).name) == Some(MapRevenue(e, describe))
  {
    ParseHead(e, describe);
    var rest := Split(AnalyticsModel(e, describe).name)[2..];
    JoinSplit(e.currency);
    SplitSingle(describe(e.revenue));
    assert rest == Split(e.currency) + [describe(e.revenue)];
    assert rest[..|rest| - 1] == Split(e.currency);
  }

  /** Every name reads back as the event it was built from. */
  lemma ParseAnalyticsModel<D>(e: AdAnalyticsEventOf<D>, describe: D -> string)
    requires e.AdRevenuePaid? ==> Separator !in describe(e.revenue)
    ensures ParseName(AnalyticsModel(e, describe).name) == Some(MapRevenue(e, describe))
  {
    if e.AdDidFailToLoad? || e.AdDidFailToDisplay? {
      ParseFailureModel(e, describe);
    } else if e.AdDidRewardUser? {
      ParseRewardModel(e, describe);
    } else if e.AdRevenuePaid? {
      ParseRevenueModel(e, describe);
    } else {
      ParsePlainModel(e, describe);
    }
  }

  /** A payload read under kind `k` and format `f` gives an event of that kind and format. */
  lemma ParsePayloadHead(k: M.EventKind, f: AdFormat, rest: seq<string>)
    requires ParsePayload(k, f, rest).Some?
    ensures Kind(ParsePayload(k, f, rest).value) == k
    ensures ParsePayload(k, f, rest).value.format == f
  {
  }

  /** Facts every successful reading of `name` shares: head tokens, kind and format. */
  lemma ParsedHead(name: string)
    requires ParseName(name).Some?
    ensures var ts, d := Split(name), ParseName(name).value;
      && |ts| >= 2 && NoSeparator(ts) && Join(ts) == name
      && ts[0] == M.KindPrefix(Kind(d)) && ts[1] == RawValue(d.format)
      && ParsePayload(Kind(d), d.format, ts[2..]) == Some(d)
  {
    JoinSplit(name);
    var ts := Split(name);
    var k, f := KindOfPrefix(ts[0]).value, FromRawValue(ts[1]).value;
    ParsePayloadHead(k, f, ts[2..]);
  }

  /** The tokens of a payload-free event's name are its kind prefix and raw value. */
  lemma SoundPlain(ts: seq<string>, d: AdAnalyticsEventOf<string>)
    requires |ts| == 2 && PayloadFree(d)
    requires ts[0] == M.KindPrefix(Kind(d)) && ts[1] == RawValue(d.format)
    ensures Split(AnalyticsModel(d, Verbatim).name) == ts
  {
    NamePayload(d, Verbatim);
  }

  lemma SoundFailure(ts: seq<string>, d: AdAnalyticsEventOf<string>)
    requires |ts| >= 2 && (d.AdDidFailToLoad? || d.AdDidFailToDisplay?)
    requires ts[0] == M.KindPrefix(Kind(d)) && ts[1] == RawValue(d.format)
    requires ParseErrorCode(ts[2..]) == Some(d.errorCode)
    ensures Split(AnalyticsModel(d, Verbatim).name) == ts
  {
    DecimalBijection(ts[3], d.errorCode);
    assert ts == [ts[0], ts[1]] + ts[2..];
  }

  /** The payload tokens `rest` end in `last`; the ones before it join to `middle`. */
  lemma SoundPayload(ts: seq<string>, middle: string, last: string)
    requires |ts| >= 4 && NoSeparator(ts)
    requires middle == Join(ts[2..|ts| - 1]) && last == ts[|ts| - 1]
    ensures ts == ts[..2] + Split(middle) + Split(last)
  {
    SplitJoin(ts[2..|ts| - 1]);
    SplitSingle(last);
    assert ts == ts[..2] + ts[2..|ts| - 1] + [ts[|ts| - 1]];
  }

  lemma SoundReward(ts: seq<string>, d: AdAnalyticsEventOf<string>)
    requires |ts| >= 4 && NoSeparator(ts) && d.AdDidRewardUser?
    requires ts[0] == M.KindPrefix(Kind(d)) && ts[1] == RawValue(d.format)
    requires d.rewardType == Join(ts[2..|ts| - 1]) && ParseInt64(ts[|ts| - 1]) == Some(d.rewardAmount)
    ensures Split(AnalyticsModel(d, Verbatim).name) == ts
  {
    DecimalBijection(ts[|ts| - 1], d.rewardAmount);
    SoundPayload(ts, d.rewardType, ts[|ts| - 1]);
    SplitSingle(ts[|ts| - 1]);
  }

  lemma SoundRevenue(ts: seq<string>, d: AdAnalyticsEventOf<string>)
    requires |ts| >= 4 && NoSeparator(ts) && d.AdRevenuePaid?
    requires ts[0] == M.KindPrefix(Kind(d)) && ts[1] == RawValue(d.format)
    requires d.currency == Join(ts[2..|ts| - 1]) && d.revenue == ts[|ts| - 1]
    ensures Split(AnalyticsModel(d, Verbatim).name) == ts
  {
    SoundPayload(ts, d.currency, d.revenue);
  }

  /** The tokens of a name that reads as `d` are the tokens of `d`'s name. */
  lemma SoundTokens(ts: seq<string>, d: AdAnalyticsEventOf<string>)
    requires |ts| >= 2 && NoSeparator(ts)
    requires ts[0] == M.KindPrefix(Kind(d)) && ts[1] == RawValue(d.format)
    requires ParsePayload(Kind(d), d.format, ts[2..]) == Some(d)
    ensures Split(AnalyticsModel(d, Verbatim).name) == ts
  {
    var rest := ts[2..];
    match d
    case AdDidFailToLoad(_, _) => SoundFailure(ts, d);
    case AdDidFailToDisplay(_, _) => SoundFailure(ts, d);
    case AdDidRewardUser(_, _, _) =>
      assert rest[..|rest| - 1] == ts[2..|ts| - 1];
      SoundReward(ts, d);
    case AdRevenuePaid(_, _, _) =>
      assert rest[..|rest| - 1] == ts[2..|ts| - 1];
      SoundRevenue(ts, d);
    case _ =>
      assert ts == [ts[0], ts[1]] + rest;
      SoundPlain(ts, d);
  }

  /** Every name that reads as an event is exactly that event's name. */
  lemma ParseNameSound(name: string)
    requires ParseName(name).Some?
    ensures AnalyticsModel(ParseName(name).value, Verbatim) == M.EventAnalyticsModel(name)
  {
    var d := ParseName(name).value;
    ParsedHead(name);
    SoundTokens(Split(name), d);
    SplitInjective(AnalyticsModel(d, Verbatim).name, name);
  }

  /**
    Whatever the revenue amounts are written as, two events with the same name
    have the same kind, the same format and therefore the same category.
   */
  lemma NameDeterminesKind<D, E>(e: AdAnalyticsEventOf<D>, describeD: D -> string,
                                 g: AdAnalyticsEventOf<E>, describeE: E -> string)
    requires AnalyticsModel(e, describeD) == AnalyticsModel(g, describeE)
    ensures Kind(e) == Kind(g) && e.format == g.format && Category(e) == Category(g)
  {
    ParseHead(e, describeD);
    ParseHead(g, describeE);
    CategoryByKind(e, g);
  }

  /** Writing revenue amounts injectively loses nothing else about an event. */
  lemma MapRevenueInjective<D, E>(e: AdAnalyticsEventOf<D>, g: AdAnalyticsEventOf<D>, describe: D -> E)
    requires forall x, y :: describe(x) == describe(y) ==> x == y
    requires MapRevenue(e, describe) == MapRevenue(g, describe)
    ensures e == g
  {
    if e.AdRevenuePaid? {
      assert describe(e.revenue) == describe(g.revenue);
    }
  }

  /**
    For any revenue rendering without underscores (Swift's, which writes every
    NaN alike, included), two events share a name exactly when they agree on
    everything but the revenue and their revenue texts are equal.
   */
  lemma NamesDetermineEvents<D>(e: AdAnalyticsEventOf<D>, g: AdAnalyticsEventOf<D>, describe: D -> string)
    requires forall x :: Separator !in describe(x)
    ensures AnalyticsModel(e, describe) == AnalyticsModel(g, describe) <==> MapRevenue(e, describe) == MapRevenue(g, describe)
  {
    ParseAnalyticsModel(e, describe);
    ParseAnalyticsModel(g, describe);
    ParseNameSound(AnalyticsModel(e, describe).name);
    ParseNameSound(AnalyticsModel(g, describe).name);
  }

  /**
    When revenue amounts are written injectively and without underscores,
    distinct events have distinct names.
   */
  lemma NamesDistinguishEvents<D>(e: AdAnalyticsEventOf<D>, g: AdAnalyticsEventOf<D>, describe: D -> string)
    requires forall x :: Separator !in describe(x)
    requires forall x, y :: describe(x) == describe(y) ==> x == y
    ensures AnalyticsModel(e, describe) == AnalyticsModel(g, describe) <==> e == g
  {
    if AnalyticsModel(e, describe) == AnalyticsModel(g, describe) {
      ParseAnalyticsModel(e, describe);
      ParseAnalyticsModel(g, describe);
      MapRevenueInjective(e, g, describe);
    }
  }

  /** A load failure with a negative SDK error code is written with its minus sign. */
  lemma FailureNameExample()
    ensures AnalyticsModel(AdDidFailToLoad(Banner, -1001), Verbatim).name == "adDidFailToLoad_banner_error_-1001"
  {
    assert Decimal(-1001) == "-1001";
  }

  /** That name reads back as the same failure. */
  lemma FailureNameExampleParses()
    ensures ParseName("adDidFailToLoad_banner_error_-1001") == Some(AdDidFailToLoad(Banner, -1001))
  {
    FailureNameExample();
    ParseAnalyticsModel(AdDidFailToLoad(Banner, -1001), Verbatim);
  }
}
