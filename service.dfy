/**
 * The analysis entry points: analyzeChannel looks a channel up, fetches its recent videos and
 * computes the analytics, falling back to generated data when an error mentions the quota;
 * compareChannels analyses two channels and compares them.
 */
module ChannelService {
  import opened Wrappers
  import opened Text
  import opened Quota
  import opened ChannelUrl
  import opened YouTubeApi
  import opened Analytics
  import MockData

  const FailedToAnalyzeMessage: string := "Failed to analyze channel"
  const FailedToCompareMessage: string := "Failed to compare channels"
  const MockChannelId: string := "mock-channel"

  /** How many recent uploads an analysis asks for. */
  const VideoSampleSize: nat := 50

  /** A sequence of draws the mock video generator can use for one analysis. */
  predicate ValidDraws(draws: seq<MockData.VideoDraw>)
  {
    |draws| == VideoSampleSize && forall i :: 0 <= i < |draws| ==> MockData.ValidDraw(draws[i])
  }

  /**
   * What analyzeChannel returns: the processed channel with its analytics, raw data, quota flag and
   * quota report; or, after a quota error, the generated channel with its canned analytics (the
   * `mockData: true` result, whose quota flag is always set).
   */
  datatype Report =
    | LiveReport(profile: Profile, analytics: ChannelAnalytics, channel: Item, videos: seq<Item>,
                 quotaExceeded: bool, quotaInfo: QuotaReport)
    | MockReport(mock: MockData.MockChannel, analytics: ChannelAnalytics, quotaInfo: QuotaReport)

  /** The quotaExceeded field of a report. */
  function QuotaFlag(r: Report): bool
  {
    if r.LiveReport? then r.quotaExceeded else true
  }

  // ---------------------------------------------------------------- the outer catch

  /** The outer catch's test: the message mentions "quota", or is QUOTA_EXCEEDED. */
  predicate QuotaMessage(msg: string)
  {
    Contains(msg, "quota") || msg == QuotaExceeded
  }

  /** A text without the letter q cannot contain "quota". */
  lemma {:induction false} NoQuotaWithoutQ(s: string)
    requires 'q' !in s
    ensures !Contains(s, "quota")
  {
    if s != [] {
      assert forall c :: c in s[1..] ==> c in s;
      NoQuotaWithoutQ(s[1..]);
      assert s[0] in s;
      assert s[0] != "quota"[0];
    }
  }

  /** The last '/'-separated segment of the URL, or "mock-channel" when it is empty. */
  function RecoveryId(url: string): (id: string)
    ensures id != "" && '/' !in id
  {
    var parts := Split(url, '/');
    var last := parts[|parts| - 1];
    if last != "" then last else MockChannelId
  }

  /** The last segment of a split is what follows the last separator. */
  lemma {:induction false} SplitLast(x: string, sep: char, seg: string)
    requires sep !in seg
    ensures |Split(x + [sep] + seg, sep)| >= 2
    ensures var parts := Split(x + [sep] + seg, sep); parts[|parts| - 1] == seg
  {
    var s := x + [sep] + seg;
    if x == [] {
      assert s[1..] == seg;
      SplitOfPlainWord(seg, sep);
    } else {
      assert s[0] == x[0];
      assert s[1..] == x[1..] + [sep] + seg;
      SplitLast(x[1..], sep, seg);
    }
  }

  /** A URL whose last segment is not empty recovers with that segment as the channel id. */
  lemma RecoveryIdIsLastSegment(prefix: string, seg: string)
    requires '/' !in seg && seg != ""
    ensures RecoveryId(prefix + "/" + seg) == seg
  {
    SplitLast(prefix, '/', seg);
    assert prefix + "/" + seg == prefix + ['/'] + seg;
  }

  /** A URL ending in '/' recovers with "mock-channel". */
  lemma TrailingSlashRecovery(prefix: string)
    ensures RecoveryId(prefix + "/") == MockChannelId
  {
    SplitLast(prefix, '/', "");
    assert prefix + "/" == prefix + ['/'] + "";
  }

  /**
   * The outer catch: a quota message yields the generated channel for the URL's last segment,
   * flagged and with the quota report; anything else is thrown again, "Failed to analyze channel"
   * standing in for an empty message.
   */
  function Recover(s: Store, initialReset: int, url: string, msg: string, now: int): (out: Step<Report>)
    requires ValidLedger(s.ledger)
    ensures ValidLedger(out.store.ledger)
    ensures out.result.Ok? <==> QuotaMessage(msg)
    ensures out.result.Ok? ==> out.result.value.MockReport? && out.result.value.mock.id == RecoveryId(url)
    ensures out.result.Err? ==> out.result.error != "" && !QuotaMessage(out.result.error)
    ensures out.result.Err? ==> out.store == s && (msg != "" ==> out.result.error == msg)
  {
    if QuotaMessage(msg) then
      var mock := MockData.MockChannelData(RecoveryId(url));
      Step(Store(StoredAfterRead(s.ledger, now), s.cache),
           Ok(MockReport(mock, MockChannelAnalytics(mock), QuotaReportOf(s.ledger, initialReset, now))))
    else
      assert |FailedToAnalyzeMessage| != |QuotaExceeded|;
      NoQuotaWithoutQ(FailedToAnalyzeMessage);
      Step(s, Err(if msg != "" then msg else FailedToAnalyzeMessage))
  }

  // ---------------------------------------------------------------- the inner try

  /** What the inner try block holds when it reaches the analytics. */
  datatype Gathered = Gathered(channel: Item, videos: Response, quotaExceeded: bool)

  /**
   * The channel lookup by handle or id, the "Channel not found" check, then the recent videos; the
   * flag is set when either response was a quota fallback. Neither endpoint throws QUOTA_EXCEEDED,
   * so the inner catch's mock branches are never taken.
   */
  function Gather(s: Store, initialReset: int, cfg: Config, ref: ChannelRef, draws: seq<MockData.VideoDraw>,
                  now: int, net: Request -> RemoteOutcome): (out: Step<Gathered>)
    requires ValidDraws(draws)
    ensures ValidLedger(s.ledger) ==> ValidLedger(out.store.ledger)
    ensures out.result != Err(QuotaExceeded)
  {
    var lookup := if ref.kind == Handle then ChannelByHandle(s, initialReset, cfg, ref.id, now, net)
                  else ChannelById(s, initialReset, cfg, ref.id, now, net);
    if lookup.result.Err? then Step(lookup.store, Err(lookup.result.error))
    else if lookup.result.value.items == [] then
      assert |NotFoundMessage| != |QuotaExceeded|;
      Step(lookup.store, Err(NotFoundMessage))
    else
      var channel := lookup.result.value.items[0];
      var videos := ChannelVideos(lookup.store, initialReset, cfg, channel.id, VideoSampleSize, draws, now, net);
      if videos.result.Err? then Step(videos.store, Err(videos.result.error))
      else Step(videos.store, Ok(Gathered(channel, videos.result.value,
                                          lookup.result.value.quotaExceeded || videos.result.value.quotaExceeded)))
  }

  /** The analytics of what the inner try gathered can be computed without dividing by zero. */
  predicate FlowAnalyzable(s: Store, initialReset: int, cfg: Config, keyCheck: Option<string>, url: string,
                           draws: seq<MockData.VideoDraw>, now: int, net: Request -> RemoteOutcome)
    requires ValidDraws(draws)
  {
    keyCheck.None? && Extract(url).Ok? ==>
      var g := Gather(s, initialReset, cfg, Extract(url).value, draws, now, net);
      g.result.Ok? ==> Analyzable(g.result.value.channel, g.result.value.videos.items, now)
  }

  /** The live result: processed channel and videos, analytics, the raw data, the flag and the quota report. */
  function LiveReportOf(g: Gathered, ledger: Option<Usage>, initialReset: int, now: int, cutoff: int): Report
    requires Analyzable(g.channel, g.videos.items, now) && ValidLedger(ledger)
  {
    LiveReport(ProcessChannel(g.channel, g.videos.items), CalculateChannelAnalytics(g.channel, g.videos.items, now, cutoff),
               g.channel, g.videos.items, g.quotaExceeded, QuotaReportOf(ledger, initialReset, now))
  }

  /**
   * analyzeChannel: the key check (validateApiKey's message, if it throws), the URL, the inner
   * try, and the outer catch for every message thrown on the way.
   */
  function Analysis(s: Store, initialReset: int, cfg: Config, keyCheck: Option<string>, url: string,
                    draws: seq<MockData.VideoDraw>, now: int, cutoff: int, net: Request -> RemoteOutcome): (out: Step<Report>)
    requires ValidLedger(s.ledger) && ValidDraws(draws)
    requires FlowAnalyzable(s, initialReset, cfg, keyCheck, url, draws, now, net)
    ensures ValidLedger(out.store.ledger)
    ensures out.result.Err? ==> out.result.error != "" && !QuotaMessage(out.result.error)
  {
    if keyCheck.Some? then Recover(s, initialReset, url, keyCheck.value, now)
    else
      match Extract(url)
      case Err(msg) => Recover(s, initialReset, url, msg, now)
      case Ok(ref) =>
        var g := Gather(s, initialReset, cfg, ref, draws, now, net);
        match g.result
        case Err(msg) => Recover(g.store, initialReset, url, msg, now)
        case Ok(gathered) =>
          Step(Store(StoredAfterRead(g.store.ledger, now), g.store.cache),
               Ok(LiveReportOf(gathered, g.store.ledger, initialReset, now, cutoff)))
  }

  // ---------------------------------------------------------------- properties of the analysis

  /** A URL with neither '/' nor '@' is rejected with the URL message, and storage is untouched. */
  lemma InvalidUrlIsRejected(s: Store, initialReset: int, cfg: Config, url: string,
                             draws: seq<MockData.VideoDraw>, now: int, cutoff: int, net: Request -> RemoteOutcome)
    requires ValidLedger(s.ledger) && ValidDraws(draws)
    requires '/' !in url && '@' !in url
    ensures FlowAnalyzable(s, initialReset, cfg, None, url, draws, now, net)
    ensures Analysis(s, initialReset, cfg, None, url, draws, now, cutoff, net) == Step(s, Err(InvalidUrlMessage))
  {
    NoSlashNoAtIsInvalid(url);
    assert |InvalidUrlMessage| != |QuotaExceeded|;
    NoQuotaWithoutQ(InvalidUrlMessage);
  }

  /** A key check that throws a quota message makes the analysis return the generated channel for the URL. */
  lemma QuotaKeyMessageGivesMock(s: Store, initialReset: int, cfg: Config, msg: string, url: string,
                                 draws: seq<MockData.VideoDraw>, now: int, cutoff: int, net: Request -> RemoteOutcome)
    requires ValidLedger(s.ledger) && ValidDraws(draws)
    requires QuotaMessage(msg)
    ensures var out := Analysis(s, initialReset, cfg, Some(msg), url, draws, now, cutoff, net);
      && out.result.Ok? && out.result.value.MockReport? && QuotaFlag(out.result.value)
      && out.result.value.mock == MockData.MockChannelData(RecoveryId(url))
      && out.result.value.quotaInfo == QuotaReportOf(s.ledger, initialReset, now)
  {
  }

  /**
   * When the handle lookup is refused for lack of quota, a live report (rather than the `mockData`
   * result) is the analysis of the generated channel response, flagged quotaExceeded.
   */
  lemma ExhaustedQuotaAnalysesMockResponse(s: Store, initialReset: int, cfg: Config, url: string, handle: string,
                                           draws: seq<MockData.VideoDraw>, now: int, cutoff: int, net: Request -> RemoteOutcome)
    requires ValidLedger(s.ledger) && ValidDraws(draws)
    requires Extract(url) == Ok(ChannelRef(handle, Handle))
    requires Lookup(CacheOf(s.cache), CacheKey(ChannelByHandleRequest(cfg, handle)), now).None?
    requires !Available(s.ledger, initialReset, cfg.channelsCost, now)
    requires FlowAnalyzable(s, initialReset, cfg, None, url, draws, now, net)
    ensures var out := Analysis(s, initialReset, cfg, None, url, draws, now, cutoff, net);
      out.result.Ok? && out.result.value.LiveReport? ==>
        && out.result.value.quotaExceeded
        && out.result.value.channel == MockChannelResponse(handle).items[0]
        && out.result.value.profile.id == handle
  {
    var g := Gather(s, initialReset, cfg, ChannelRef(handle, Handle), draws, now, net);
    RefusedLookupGathersMock(s, initialReset, cfg, handle, draws, now, net);
    if g.result.Ok? {
      var live := LiveReportOf(g.result.value, g.store.ledger, initialReset, now, cutoff);
      assert Analysis(s, initialReset, cfg, None, url, draws, now, cutoff, net).result == Ok(live);
      assert live.channel.id == handle;
    } else {
      var out := Recover(g.store, initialReset, url, g.result.error, now);
      assert Analysis(s, initialReset, cfg, None, url, draws, now, cutoff, net) == out;
      assert out.result.Ok? ==> out.result.value.MockReport?;
    }
  }

  /** The inner try after a refused handle lookup: whatever it gathers is the generated channel, flagged. */
  lemma RefusedLookupGathersMock(s: Store, initialReset: int, cfg: Config, handle: string,
                                 draws: seq<MockData.VideoDraw>, now: int, net: Request -> RemoteOutcome)
    requires ValidDraws(draws)
    requires Lookup(CacheOf(s.cache), CacheKey(ChannelByHandleRequest(cfg, handle)), now).None?
    requires !Available(s.ledger, initialReset, cfg.channelsCost, now)
    ensures var g := Gather(s, initialReset, cfg, ChannelRef(handle, Handle), draws, now, net);
      g.result.Ok? ==> g.result.value.channel == MockChannelResponse(handle).items[0] && g.result.value.quotaExceeded
  {
    ChannelByHandleOutOfQuota(s, initialReset, cfg, handle, now, net);
  }

  /** A live report's flag is set exactly when the channel response or the videos response was a fallback. */
  lemma LiveFlagCombinesResponses(s: Store, initialReset: int, cfg: Config, url: string, ref: ChannelRef,
                                  draws: seq<MockData.VideoDraw>, now: int, cutoff: int, net: Request -> RemoteOutcome)
    requires ValidLedger(s.ledger) && ValidDraws(draws)
    requires Extract(url) == Ok(ref)
    requires FlowAnalyzable(s, initialReset, cfg, None, url, draws, now, net)
    ensures var out := Analysis(s, initialReset, cfg, None, url, draws, now, cutoff, net);
      var lookup := if ref.kind == Handle then ChannelByHandle(s, initialReset, cfg, ref.id, now, net)
                    else ChannelById(s, initialReset, cfg, ref.id, now, net);
      out.result.Ok? && out.result.value.LiveReport? ==>
        && lookup.result.Ok? && lookup.result.value.items != []
        && out.result.value.channel == lookup.result.value.items[0]
        && var videos := ChannelVideos(lookup.store, initialReset, cfg, out.result.value.channel.id, VideoSampleSize, draws, now, net);
           && videos.result.Ok? && out.result.value.videos == videos.result.value.items
           && out.result.value.quotaExceeded == (lookup.result.value.quotaExceeded || videos.result.value.quotaExceeded)
  {
  }

  // ---------------------------------------------------------------- compareChannels

  /** What generateComparison reads of an analysis result. */
  function ContenderOf(r: Report): Contender
  {
    match r
    case LiveReport(p, a, _, _, _, _) => Contender(p.title, p.subscriberCount, a.engagementRate, a.healthScore)
    case MockReport(m, a, _) => Contender(m.title, m.subscriberCount, a.engagementRate, a.healthScore)
  }

  /** What compareChannels returns. */
  datatype ComparisonReport = ComparisonReport(channel1: Report, channel2: Report, comparison: Comparison, quotaExceeded: bool)

  /** The two analyses compared, or the first one's message when either throws. */
  function Combine(r1: Result<Report, string>, r2: Result<Report, string>): (out: Result<ComparisonReport, string>)
    requires r1.Ok? && r2.Ok? ==> Comparable(ContenderOf(r1.value), ContenderOf(r2.value))
    ensures out.Ok? <==> r1.Ok? && r2.Ok?
    ensures out.Ok? ==> out.value.channel1 == r1.value && out.value.channel2 == r2.value
    ensures out.Ok? ==> (out.value.quotaExceeded <==> QuotaFlag(r1.value) || QuotaFlag(r2.value))
    ensures out.Err? ==> out.error != "" && (out.error == (if r1.Err? then r1.error else r2.error) || out.error == FailedToCompareMessage)
  {
    if r1.Err? then Err(if r1.error != "" then r1.error else FailedToCompareMessage)
    else if r2.Err? then Err(if r2.error != "" then r2.error else FailedToCompareMessage)
    else Ok(ComparisonReport(r1.value, r2.value, ComparisonOf(ContenderOf(r1.value), ContenderOf(r2.value)),
                             QuotaFlag(r1.value) || QuotaFlag(r2.value)))
  }

  /** Both analyses can run, and their results can be compared. */
  predicate PairAnalyzable(s: Store, initialReset: int, cfg: Config, keyCheck: Option<string>, url1: string, url2: string,
                           draws1: seq<MockData.VideoDraw>, draws2: seq<MockData.VideoDraw>, now: int, cutoff: int,
                           net: Request -> RemoteOutcome)
    requires ValidLedger(s.ledger) && ValidDraws(draws1) && ValidDraws(draws2)
  {
    && FlowAnalyzable(s, initialReset, cfg, keyCheck, url1, draws1, now, net)
    && var a1 := Analysis(s, initialReset, cfg, keyCheck, url1, draws1, now, cutoff, net);
       && FlowAnalyzable(a1.store, initialReset, cfg, keyCheck, url2, draws2, now, net)
       && var a2 := Analysis(a1.store, initialReset, cfg, keyCheck, url2, draws2, now, cutoff, net);
          a1.result.Ok? && a2.result.Ok? ==> Comparable(ContenderOf(a1.result.value), ContenderOf(a2.result.value))
  }

  /** compareChannels: the first channel analysed, then the second, then combined. */
  function Comparing(s: Store, initialReset: int, cfg: Config, keyCheck: Option<string>, url1: string, url2: string,
                     draws1: seq<MockData.VideoDraw>, draws2: seq<MockData.VideoDraw>, now: int, cutoff: int,
                     net: Request -> RemoteOutcome): (out: Step<ComparisonReport>)
    requires ValidLedger(s.ledger) && ValidDraws(draws1) && ValidDraws(draws2)
    requires PairAnalyzable(s, initialReset, cfg, keyCheck, url1, url2, draws1, draws2, now, cutoff, net)
    ensures ValidLedger(out.store.ledger)
  {
    var a1 := Analysis(s, initialReset, cfg, keyCheck, url1, draws1, now, cutoff, net);
    var a2 := Analysis(a1.store, initialReset, cfg, keyCheck, url2, draws2, now, cutoff, net);
    Step(a2.store, Combine(a1.result, a2.result))
  }

  /**
   * A comparison never fails with an empty or quota message, and a generated (quota fallback)
   * result on either side sets its flag.
   */
  lemma ComparisonFlagsFallbacks(s: Store, initialReset: int, cfg: Config, keyCheck: Option<string>, url1: string, url2: string,
                                 draws1: seq<MockData.VideoDraw>, draws2: seq<MockData.VideoDraw>, now: int, cutoff: int,
                                 net: Request -> RemoteOutcome)
    requires ValidLedger(s.ledger) && ValidDraws(draws1) && ValidDraws(draws2)
    requires PairAnalyzable(s, initialReset, cfg, keyCheck, url1, url2, draws1, draws2, now, cutoff, net)
    ensures var out := Comparing(s, initialReset, cfg, keyCheck, url1, url2, draws1, draws2, now, cutoff, net);
      && (out.result.Err? ==> out.result.error != "" && !QuotaMessage(out.result.error))
      && (out.result.Ok? && (out.result.value.channel1.MockReport? || out.result.value.channel2.MockReport?) ==>
            out.result.value.quotaExceeded)
  {
  }

  // ---------------------------------------------------------------- the functions as the application runs them

  /** The outer catch, reading the quota report from the service. */
  method RecoverFromError(api: ApiService, url: string, msg: string, now: int) returns (r: Result<Report, string>)
    requires api.quota.Valid()
    modifies api.quota
    ensures api.quota.Valid()
    ensures Step(api.Records(), r) == Recover(old(api.Records()), api.quota.initialReset, url, msg, now)
  {
    if Contains(msg, "quota") || msg == QuotaExceeded {
      var parts := Split(url, '/');
      var channelId := parts[|parts| - 1];
      if channelId == "" {
        channelId := MockChannelId;
      }
      assert channelId == RecoveryId(url);
      var mock := MockData.MockChannelData(channelId);
      var analytics := MockChannelAnalytics(mock);
      var quotaInfo := api.GetQuotaUsage(now);
      r := Ok(MockReport(mock, analytics, quotaInfo));
    } else {
      r := Err(if msg != "" then msg else FailedToAnalyzeMessage);
    }
  }

  /** analyzeChannel, one service call after another, with the flag kept in a local. */
  method AnalyzeChannel(api: ApiService, keyCheck: Option<string>, url: string, draws: seq<MockData.VideoDraw>,
                        now: int, cutoff: int, net: Request -> RemoteOutcome) returns (r: Result<Report, string>)
    requires api.quota.Valid() && ValidDraws(draws)
    requires FlowAnalyzable(api.Records(), api.quota.initialReset, api.config, keyCheck, url, draws, now, net)
    modifies api.quota
    ensures api.quota.Valid()
    ensures Step(api.Records(), r) == Analysis(old(api.Records()), api.quota.initialReset, api.config, keyCheck, url, draws, now, cutoff, net)
  {
    ghost var s := api.Records();
    if keyCheck.Some? {
      r := RecoverFromError(api, url, keyCheck.value, now);
      return;
    }
    var extracted := ExtractChannelId(url);
    if extracted.Err? {
      r := RecoverFromError(api, url, extracted.error, now);
      return;
    }
    var ref := extracted.value;
    var gathered := GatherChannel(api, ref, draws, now, net);
    if gathered.Err? {
      r := RecoverFromError(api, url, gathered.error, now);
      return;
    }
    var g := gathered.value;
    var profile := ProcessChannel(g.channel, g.videos.items);
    var analytics := CalculateChannelAnalytics(g.channel, g.videos.items, now, cutoff);
    var quotaInfo := api.GetQuotaUsage(now);
    r := Ok(LiveReport(profile, analytics, g.channel, g.videos.items, g.quotaExceeded, quotaInfo));
  }

  /** The inner try of analyzeChannel: the channel lookup, the "Channel not found" check, the videos, and the flag. */
  method GatherChannel(api: ApiService, ref: ChannelRef, draws: seq<MockData.VideoDraw>, now: int, net: Request -> RemoteOutcome)
    returns (r: Result<Gathered, string>)
    requires api.quota.Valid() && ValidDraws(draws)
    modifies api.quota
    ensures api.quota.Valid()
    ensures Step(api.Records(), r) == Gather(old(api.Records()), api.quota.initialReset, api.config, ref, draws, now, net)
  {
    var channelData: Result<Response, string>;
    if ref.kind == Handle {
      channelData := api.GetChannelByHandle(ref.id, now, net);
    } else {
      channelData := api.GetChannelById(ref.id, now, net);
    }
    if channelData.Err? {
      return Err(channelData.error);
    }
    var isQuotaExceeded := channelData.value.quotaExceeded;
    if channelData.value.items == [] {
      return Err(NotFoundMessage);
    }
    var channel := channelData.value.items[0];
    var videosData := api.GetChannelVideos(channel.id, VideoSampleSize, draws, now, net);
    if videosData.Err? {
      return Err(videosData.error);
    }
    isQuotaExceeded := isQuotaExceeded || videosData.value.quotaExceeded;
    r := Ok(Gathered(channel, videosData.value, isQuotaExceeded));
  }

  /** compareChannels: both analyses (one after the other), then the comparison. */
  method CompareChannels(api: ApiService, keyCheck: Option<string>, url1: string, url2: string,
                         draws1: seq<MockData.VideoDraw>, draws2: seq<MockData.VideoDraw>,
                         now: int, cutoff: int, net: Request -> RemoteOutcome) returns (r: Result<ComparisonReport, string>)
    requires api.quota.Valid() && ValidDraws(draws1) && ValidDraws(draws2)
    requires PairAnalyzable(api.Records(), api.quota.initialReset, api.config, keyCheck, url1, url2, draws1, draws2, now, cutoff, net)
    modifies api.quota
    ensures api.quota.Valid()
    ensures Step(api.Records(), r) == Comparing(old(api.Records()), api.quota.initialReset, api.config, keyCheck, url1, url2,
                                                draws1, draws2, now, cutoff, net)
  {
    var channel1Data := AnalyzeChannel(api, keyCheck, url1, draws1, now, cutoff, net);
    var channel2Data := AnalyzeChannel(api, keyCheck, url2, draws2, now, cutoff, net);
    if channel1Data.Err? {
      return Err(if channel1Data.error != "" then channel1Data.error else FailedToCompareMessage);
    }
    if channel2Data.Err? {
      return Err(if channel2Data.error != "" then channel2Data.error else FailedToCompareMessage);
    }
    var comparison := GenerateComparison(ContenderOf(channel1Data.value), ContenderOf(channel2Data.value));
    r := Ok(ComparisonReport(channel1Data.value, channel2Data.value, comparison,
                             QuotaFlag(channel1Data.value) || QuotaFlag(channel2Data.value)));
  }
}
