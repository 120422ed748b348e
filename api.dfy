/**
 * The quota-aware YouTube Data API client (src/services/youtubeApiService.js): responses, error
 * classification, the cached and quota-checked call, the per-endpoint fallbacks to mock data, and
 * the mock responses themselves. The remote API is a function from requests to outcomes.
 */
module YouTubeApi {
  import opened Wrappers
  import opened Text
  import opened JsMath
  import opened Quota
  import opened MockData

  const QuotaExceeded: string := "QUOTA_EXCEEDED"
  const InvalidKeyMessage: string := "Invalid YouTube API key. Please check your configuration."
  const ForbiddenMessage: string := "YouTube API access forbidden. Please check your API key and permissions."
  const NotFoundMessage: string := "Channel not found. Please check the URL and ensure the channel is public."
  const BadRequestMessage: string := "Invalid request. Please check the channel URL format."
  const DefaultFailureMessage: string := "Failed to fetch data from YouTube API"
  const NoUploadsChannelMessage: string := "Channel not found"
  /** makeApiCall caches every live response for 30 minutes. */
  const CacheTtl: int := 1800000

  // ---------------------------------------------------------------- response records

  /**
   * The parts of a channel, playlist-item or video resource the application reads. A field the
   * resource does not carry is "" (the JavaScript `||` defaults treat both alike); times are
   * milliseconds since the epoch.
   */
  datatype Snippet = Snippet(
    title: string, description: string, mediumThumbnail: string, defaultThumbnail: string,
    publishedAt: int, country: string, customUrl: string, tags: Option<seq<string>>)

  /** Counts arrive as decimal strings. */
  datatype Statistics = Statistics(
    subscriberCount: string, videoCount: string, viewCount: string, likeCount: string, commentCount: string)

  /** relatedPlaylists.uploads of a channel, videoId of a playlist item, duration of a video. */
  datatype ContentDetails = ContentDetails(uploads: string, videoId: string, duration: string)

  /** One resource; `keywords` is brandingSettings.channel.keywords. */
  datatype Item = Item(
    id: string, snippet: Snippet, statistics: Statistics, contentDetails: ContentDetails, keywords: Option<string>)

  /** A response body; the mock responses set `quotaExceeded`. */
  datatype Response = Response(items: seq<Item>, quotaExceeded: bool)

  // ---------------------------------------------------------------- requests and the remote side

  datatype ParamValue = StrValue(str: string) | NumValue(num: nat)

  datatype Param = Param(name: string, value: ParamValue)

  datatype Request = Request(endpoint: string, params: seq<Param>)

  /** An HTTP failure: the status, the first entry of error.errors[].reason, and error.message ("" when absent). */
  datatype HttpFailure = HttpFailure(status: int, reason: Option<string>, message: string)

  /** What the remote API does with a request: a body, or a failure with or without an HTTP response. */
  datatype RemoteOutcome = Delivered(data: Response) | Failed(failure: Option<HttpFailure>)

  /** The endpoint names, quota costs and part lists of the API configuration. */
  datatype Config = Config(
    channelsEndpoint: string, playlistItemsEndpoint: string, videosEndpoint: string, searchEndpoint: string,
    channelsCost: int, playlistItemsCost: int, videosCost: int, searchCost: int,
    channelParts: string, videoParts: string)

  /** handleApiError: the message an HTTP failure is turned into. */
  function HandleApiError(failure: Option<HttpFailure>): (msg: string)
    ensures msg != ""
  {
    match failure
    case None => DefaultFailureMessage
    case Some(f) =>
      if f.status == 403 then
        if f.reason == Some("quotaExceeded") then QuotaExceeded
        else if f.reason == Some("keyInvalid") then InvalidKeyMessage
        else ForbiddenMessage
      else if f.status == 404 then NotFoundMessage
      else if f.status == 400 then BadRequestMessage
      else if f.message != "" then f.message
      else DefaultFailureMessage
  }

  /**
   * A failure is reported as QUOTA_EXCEEDED exactly when it is a 403 whose reason is quotaExceeded,
   * or a failure with another status than 400, 403 and 404 whose own message is that text.
   */
  lemma QuotaSignal(failure: Option<HttpFailure>)
    ensures HandleApiError(failure) == QuotaExceeded <==>
      failure.Some? &&
      ((failure.value.status == 403 && failure.value.reason == Some("quotaExceeded")) ||
       (failure.value.status !in {400, 403, 404} && failure.value.message == QuotaExceeded))
  {
    assert |QuotaExceeded| == 14;
    assert |InvalidKeyMessage| != 14 && |ForbiddenMessage| != 14 && |NotFoundMessage| != 14;
    assert |BadRequestMessage| != 14 && |DefaultFailureMessage| != 14;
  }

  /** JSON.stringify of one parameter: strings are quoted (escaping is not modelled), numbers bare. */
  function ParamJson(p: Param): string
  {
    "\"" + p.name + "\":" +
    match p.value
    case StrValue(s) => "\"" + s + "\""
    case NumValue(n) => NatToString(n)
  }

  /** The cache key `${endpoint}_${JSON.stringify(params)}`. */
  function CacheKey(req: Request): (key: string)
    ensures req.endpoint + "_" <= key && key != ""
  {
    req.endpoint + "_" + "{" + Join(seq(|req.params|, i requires 0 <= i < |req.params| => ParamJson(req.params[i])), ',') + "}"
  }

  // ---------------------------------------------------------------- makeApiCall

  /** Data returned by makeApiCall. */
  datatype Fetched = Fetched(data: Response, fromCache: bool)

  /** The two records in storage: the quota ledger and the response cache. */
  datatype Store = Store(ledger: Option<Usage>, cache: Option<Cache<Response>>)

  /** The storage after an operation, and what it returned or the message it threw. */
  datatype Step<T> = Step(store: Store, result: Result<T, string>)

  /** What makeApiCall does: answer from the cache, refuse for lack of quota, or call, charge and cache. */
  function Call(s: Store, initialReset: int, req: Request, cost: int, now: int, net: Request -> RemoteOutcome): (out: Step<Fetched>)
    ensures ValidLedger(s.ledger) ==> ValidLedger(out.store.ledger)
  {
    var key := CacheKey(req);
    var cached := Lookup(CacheOf(s.cache), key, now);
    if cached.Some? then Step(s, Ok(Fetched(cached.value, true)))
    else
      var cacheAfterLookup := StoreAfterLookup(s.cache, key, now);
      var ledgerAfterRead := StoredAfterRead(s.ledger, now);
      if !Available(s.ledger, initialReset, cost, now) then
        Step(Store(ledgerAfterRead, cacheAfterLookup), Err(QuotaExceeded))
      else
        match net(req)
        case Delivered(data) =>
          Step(Store(Some(Charged(ledgerAfterRead, initialReset, cost, now)),
                     StoreAfterSet(cacheAfterLookup, key, data, CacheTtl, now)),
               Ok(Fetched(data, false)))
        case Failed(failure) =>
          Step(Store(ledgerAfterRead, cacheAfterLookup), Err(HandleApiError(failure)))
  }

  /** A cache hit answers with the cached data, touches neither record, and does not reach the network. */
  lemma CacheHitIsLocal(s: Store, initialReset: int, req: Request, cost: int, now: int,
                        net: Request -> RemoteOutcome, other: Request -> RemoteOutcome)
    requires Lookup(CacheOf(s.cache), CacheKey(req), now).Some?
    ensures Call(s, initialReset, req, cost, now, net)
            == Step(s, Ok(Fetched(Lookup(CacheOf(s.cache), CacheKey(req), now).value, true)))
    ensures Call(s, initialReset, req, cost, now, net) == Call(s, initialReset, req, cost, now, other)
  {
  }

  /**
   * Without enough quota the call throws QUOTA_EXCEEDED without reaching the network: usage stays
   * as reported, and the records change only by the lazy rollover and the eviction of the stale key.
   */
  lemma RefusalIsLocal(s: Store, initialReset: int, req: Request, cost: int, now: int,
                       net: Request -> RemoteOutcome, other: Request -> RemoteOutcome)
    requires Lookup(CacheOf(s.cache), CacheKey(req), now).None?
    requires !Available(s.ledger, initialReset, cost, now)
    ensures Call(s, initialReset, req, cost, now, net).result == Err(QuotaExceeded)
    ensures Call(s, initialReset, req, cost, now, net)
            == Step(Store(StoredAfterRead(s.ledger, now), StoreAfterLookup(s.cache, CacheKey(req), now)), Err(QuotaExceeded))
    ensures Reported(Call(s, initialReset, req, cost, now, net).store.ledger, initialReset, now) == Reported(s.ledger, initialReset, now)
    ensures Call(s, initialReset, req, cost, now, net) == Call(s, initialReset, req, cost, now, other)
  {
    ReadIsIdempotent(s.ledger, initialReset, now);
  }

  /** A live success charges exactly `cost` and caches the body under the request's key. */
  lemma LiveSuccessChargesAndCaches(s: Store, initialReset: int, req: Request, cost: int, now: int,
                                    net: Request -> RemoteOutcome)
    requires Lookup(CacheOf(s.cache), CacheKey(req), now).None?
    requires Available(s.ledger, initialReset, cost, now)
    requires net(req).Delivered?
    ensures var after := Call(s, initialReset, req, cost, now, net);
      && after.result == Ok(Fetched(net(req).data, false))
      && after.store.ledger == Some(Charged(s.ledger, initialReset, cost, now))
      && after.store.ledger.value.used == Reported(s.ledger, initialReset, now).used + cost
      && after.store.ledger.value.resetTime == Reported(s.ledger, initialReset, now).resetTime
      && Lookup(CacheOf(after.store.cache), CacheKey(req), now) == Some(net(req).data)
      && CacheOf(after.store.cache)[CacheKey(req)].ttl == CacheTtl
  {
    ReadIsIdempotent(s.ledger, initialReset, now);
  }

  /** A live failure charges nothing and caches nothing for the key; its message is the classified one. */
  lemma LiveFailureChargesNothing(s: Store, initialReset: int, req: Request, cost: int, now: int,
                                  net: Request -> RemoteOutcome)
    requires Lookup(CacheOf(s.cache), CacheKey(req), now).None?
    requires Available(s.ledger, initialReset, cost, now)
    requires net(req).Failed?
    ensures var after := Call(s, initialReset, req, cost, now, net);
      && after.result == Err(HandleApiError(net(req).failure))
      && Reported(after.store.ledger, initialReset, now) == Reported(s.ledger, initialReset, now)
      && Lookup(CacheOf(after.store.cache), CacheKey(req), now).None?
  {
    ReadIsIdempotent(s.ledger, initialReset, now);
  }

  /** Usage never passes the daily limit through makeApiCall, whatever the network answers. */
  lemma CallKeepsUsageWithinLimit(s: Store, initialReset: int, req: Request, cost: int, now: int,
                                  net: Request -> RemoteOutcome)
    requires s.ledger.Some? ==> s.ledger.value.limit == DailyLimit
    requires Reported(s.ledger, initialReset, now).used <= DailyLimit
    ensures var after := Call(s, initialReset, req, cost, now, net);
      && (after.store.ledger.Some? ==> after.store.ledger.value.limit == DailyLimit)
      && Reported(after.store.ledger, initialReset, now).used <= DailyLimit
  {
    ReadIsIdempotent(s.ledger, initialReset, now);
    var after := Call(s, initialReset, req, cost, now, net);
    if Lookup(CacheOf(s.cache), CacheKey(req), now).None? && Available(s.ledger, initialReset, cost, now) && net(req).Delivered? {
      LiveSuccessChargesAndCaches(s, initialReset, req, cost, now, net);
    }
  }

  /** Repeating a successful call within the TTL is answered from the cache, free of charge. */
  lemma RepeatWithinTtlHitsCache(s: Store, initialReset: int, req: Request, cost: int, now: int, later: int,
                                 net: Request -> RemoteOutcome)
    requires Lookup(CacheOf(s.cache), CacheKey(req), now).None?
    requires Available(s.ledger, initialReset, cost, now)
    requires net(req).Delivered?
    requires now <= later <= now + CacheTtl
    ensures var first := Call(s, initialReset, req, cost, now, net);
      Call(first.store, initialReset, req, cost, later, net) == Step(first.store, Ok(Fetched(net(req).data, true)))
  {
    var first := Call(s, initialReset, req, cost, now, net);
    SetThenLookup(StoreAfterLookup(s.cache, CacheKey(req), now), CacheKey(req), net(req).data, CacheTtl, now, CacheKey(req) + "x", later);
  }

  // ---------------------------------------------------------------- mock responses

  /** generateMockChannelResponse(identifier): the mock channel as a one-item response flagged quotaExceeded. */
  function MockChannelResponse(identifier: string): (r: Response)
    ensures |r.items| == 1 && r.quotaExceeded
    ensures r.items[0].id == identifier && r.items[0].snippet.customUrl == "@" + identifier
  {
    var m := MockChannelData(identifier);
    Response([Item(
      m.id,
      Snippet(m.title, m.description, m.thumbnail, m.thumbnail, m.createdAt, m.country, "@" + identifier, None),
      Statistics(NatToString(m.subscriberCount), NatToString(m.videoCount), NatToString(m.totalViews), "", ""),
      ContentDetails("", "", ""),
      Some(Join(m.keywords, ' ')))], true)
  }

  /** Reading the mock channel's counts and keywords back, as the analytics do, gives the generated values. */
  lemma MockChannelResponseReadsBack(identifier: string)
    ensures var item := MockChannelResponse(identifier).items[0];
      var m := MockChannelData(identifier);
      && CountText(item.statistics.subscriberCount) && ParseCount(item.statistics.subscriberCount) == m.subscriberCount
      && CountText(item.statistics.videoCount) && ParseCount(item.statistics.videoCount) == m.videoCount
      && CountText(item.statistics.viewCount) && ParseCount(item.statistics.viewCount) == m.totalViews
      && item.keywords.Some? && Split(item.keywords.value, ' ') == m.keywords
  {
    var m := MockChannelData(identifier);
    ParseCountOfNatToString(m.subscriberCount);
    ParseCountOfNatToString(m.videoCount);
    ParseCountOfNatToString(m.totalViews);
    forall i | 0 <= i < |MockKeywords| ensures ' ' !in MockKeywords[i] {
      assert forall j :: 0 <= j < |MockKeywords[i]| ==> 'a' <= MockKeywords[i][j] <= 'z' || MockKeywords[i][j] == '-';
    }
    SplitJoin(MockKeywords, ' ');
  }

  /** The ISO 8601 form of an "m:ss" duration: the first ':' becomes 'M', wrapped in "PT" and "S". */
  function IsoDuration(duration: string): string
  {
    "PT" + ReplaceFirst(duration, ':', 'M') + "S"
  }

  /**
   * The minutes and seconds of an ISO 8601 duration of the form PT{minutes}M{seconds}S, both
   * components present (ISO 8601:2004, section 4.4.3.2, time designators only).
   */
  function ParseMinutesSeconds(s: string): Option<(nat, nat)>
  {
    if |s| >= 3 && s[..2] == "PT" && s[|s| - 1] == 'S' then
      var parts := Split(s[2..|s| - 1], 'M');
      if |parts| == 2 && parts[0] != "" && parts[1] != "" && AllDigits(parts[0]) && AllDigits(parts[1])
      then Some((DigitsValue(parts[0]), DigitsValue(parts[1])))
      else None
    else None
  }

  /** "PT{m}M{p}S" with two non-empty digit runs reads back as their values. */
  lemma ParseIsoParts(m: string, p: string)
    requires m != "" && p != "" && AllDigits(m) && AllDigits(p)
    ensures ParseMinutesSeconds("PT" + m + ['M'] + p + "S") == Some((DigitsValue(m), DigitsValue(p)))
  {
    assert 'M' !in m && 'M' !in p by {
      assert forall i :: 0 <= i < |m| ==> IsDigit(m[i]);
      assert forall i :: 0 <= i < |p| ==> IsDigit(p[i]);
    }
    var s := "PT" + m + ['M'] + p + "S";
    assert s[..2] == "PT" && s[|s| - 1] == 'S';
    assert s[2..|s| - 1] == m + ['M'] + p;
    SplitAtFirstSeparator(m, 'M', p);
    SplitOfPlainWord(p, 'M');
  }

  /** The mock duration "m:ss" becomes "PT{m}M{ss}S". */
  lemma IsoOfDurationText(minutes: nat, seconds: nat)
    ensures IsoDuration(DurationText(minutes, seconds)) == "PT" + NatToString(minutes) + ['M'] + Pad2(NatToString(seconds)) + "S"
  {
    var m := NatToString(minutes);
    var p := Pad2(NatToString(seconds));
    assert ':' !in m by {
      assert forall i :: 0 <= i < |m| ==> IsDigit(m[i]);
    }
    assert DurationText(minutes, seconds) == m + [':'] + p;
    ReplaceFirstAfterPlain(m, ':', 'M', p);
  }

  /** Every mock duration becomes a well-formed ISO 8601 duration naming the same minutes and seconds. */
  lemma MockDurationIsIso(minutes: nat, seconds: nat)
    requires seconds < 60
    ensures ParseMinutesSeconds(IsoDuration(DurationText(minutes, seconds))) == Some((minutes, seconds))
  {
    var p := Pad2(NatToString(seconds));
    Pad2KeepsValue(NatToString(seconds));
    assert p != "";
    DigitsValueOfNatToString(minutes);
    DigitsValueOfNatToString(seconds);
    IsoOfDurationText(minutes, seconds);
    ParseIsoParts(NatToString(minutes), p);
  }

  /** Math.floor(likes * 0.1) is the whole number of tens in `likes`. */
  lemma TenthFloor(likes: nat)
    ensures Floor(likes as real * 0.1) == likes / 10
  {
    var q := likes / 10;
    var x := likes as real * 0.1;
    assert likes == 10 * q + likes % 10;
    assert x == q as real + (likes % 10) as real / 10.0;
    assert q as real <= x < (q + 1) as real;
    var f := Floor(x);
    assert f as real <= x < (f + 1) as real;
  }

  /** One mock video as an API resource. */
  function MockVideoItem(v: MockVideo): Item
  {
    Item(
      v.id,
      Snippet(v.title, "Mock description for " + v.title, v.thumbnail, v.thumbnail, v.uploadDate, "", "",
              Some(["youtube", "tutorial", "guide"])),
      Statistics("", "", NatToString(v.views), NatToString(v.likes), NatToString(Floor(v.likes as real * 0.1))),
      ContentDetails("", "", IsoDuration(v.duration)),
      None)
  }

  /** generateMockVideosResponse(count): the mock videos as resources, flagged quotaExceeded. */
  function MockVideosResponse(count: nat, draws: seq<VideoDraw>, now: int): (r: Response)
    requires |draws| == count && forall i :: 0 <= i < count ==> ValidDraw(draws[i])
    ensures |r.items| == count && r.quotaExceeded
  {
    var videos := MockVideoData(count, draws, now);
    Response(seq(count, i requires 0 <= i < count => MockVideoItem(videos[i])), true)
  }

  /**
   * Item i of the mock videos response is video i of the generator: its likes read back, its
   * comment count is a tenth of the likes rounded down, and its duration is the ISO 8601 form of
   * the drawn minutes and seconds.
   */
  lemma MockVideosResponseItem(count: nat, draws: seq<VideoDraw>, now: int, i: nat)
    requires |draws| == count && forall k :: 0 <= k < count ==> ValidDraw(draws[k])
    requires i < count
    ensures var item := MockVideosResponse(count, draws, now).items[i];
      var v := MockVideoAt(i, draws[i], now);
      && item.id == v.id
      && ParseCount(item.statistics.viewCount) == v.views
      && ParseCount(item.statistics.likeCount) == v.likes
      && ParseCount(item.statistics.commentCount) == v.likes / 10
      && ParseMinutesSeconds(item.contentDetails.duration) == Some((DrawnMinutes(draws[i]), DrawnSeconds(draws[i])))
  {
    var v := MockVideoAt(i, draws[i], now);
    ParseCountOfNatToString(v.views);
    ParseCountOfNatToString(v.likes);
    TenthFloor(v.likes);
    ParseCountOfNatToString(v.likes / 10);
    MockDurationIsIso(DrawnMinutes(draws[i]), DrawnSeconds(draws[i]));
  }

  // ---------------------------------------------------------------- endpoints with fallback

  /** The forHandle parameter: '@' is prepended only when the handle does not already start with it. */
  function ForHandle(handle: string): string
  {
    if |handle| >= 1 && handle[0] == '@' then handle else "@" + handle
  }

  /** forHandle always starts with '@', adds at most that one character, and is idempotent. */
  lemma ForHandleAddsOneAt(handle: string)
    ensures |ForHandle(handle)| >= 1 && ForHandle(handle)[0] == '@'
    ensures ForHandle(handle) == handle || ForHandle(handle) == "@" + handle
    ensures ForHandle(handle) == handle <==> |handle| >= 1 && handle[0] == '@'
    ensures ForHandle(ForHandle(handle)) == ForHandle(handle)
  {
    if !(|handle| >= 1 && handle[0] == '@') {
      assert |ForHandle(handle)| == |handle| + 1;
    }
  }

  function ChannelByHandleRequest(cfg: Config, handle: string): Request
  {
    Request(cfg.channelsEndpoint, [Param("part", StrValue(cfg.channelParts)), Param("forHandle", StrValue(ForHandle(handle)))])
  }

  function ChannelByIdRequest(cfg: Config, channelId: string): Request
  {
    Request(cfg.channelsEndpoint, [Param("part", StrValue(cfg.channelParts)), Param("id", StrValue(channelId))])
  }

  function UploadsRequest(cfg: Config, channelId: string): Request
  {
    Request(cfg.channelsEndpoint, [Param("part", StrValue("contentDetails")), Param("id", StrValue(channelId))])
  }

  function PlaylistRequest(cfg: Config, playlistId: string, maxResults: nat): Request
  {
    Request(cfg.playlistItemsEndpoint,
      [Param("part", StrValue("snippet,contentDetails")), Param("playlistId", StrValue(playlistId)), Param("maxResults", NumValue(maxResults))])
  }

  function VideosRequest(cfg: Config, videoIds: string): Request
  {
    Request(cfg.videosEndpoint, [Param("part", StrValue(cfg.videoParts)), Param("id", StrValue(videoIds))])
  }

  function SearchRequest(cfg: Config, query: string, maxResults: nat): Request
  {
    Request(cfg.searchEndpoint,
      [Param("part", StrValue("snippet")), Param("q", StrValue(query)), Param("type", StrValue("channel")), Param("maxResults", NumValue(maxResults))])
  }

  /** The catch blocks of the endpoint methods: QUOTA_EXCEEDED becomes the fallback body, other errors pass. */
  function QuotaFallback(r: Result<Fetched, string>, fallback: Response): (out: Result<Response, string>)
    ensures out.Ok? <==> r.Ok? || r.error == QuotaExceeded
    ensures out != Err(QuotaExceeded)
    ensures r.Ok? ==> out == Ok(r.value.data)
    ensures r == Err(QuotaExceeded) ==> out == Ok(fallback)
    ensures r.Err? && r.error != QuotaExceeded ==> out == Err(r.error)
  {
    match r
    case Ok(f) => Ok(f.data)
    case Err(e) => if e == QuotaExceeded then Ok(fallback) else Err(e)
  }

  /** getChannelByHandle: the channel looked up by handle, or the mock channel for the handle as given. */
  function ChannelByHandle(s: Store, initialReset: int, cfg: Config, handle: string, now: int, net: Request -> RemoteOutcome): (out: Step<Response>)
    ensures ValidLedger(s.ledger) ==> ValidLedger(out.store.ledger)
  {
    var call := Call(s, initialReset, ChannelByHandleRequest(cfg, handle), cfg.channelsCost, now, net);
    Step(call.store, QuotaFallback(call.result, MockChannelResponse(handle)))
  }

  /** getChannelById: the channel looked up by id, or the mock channel for the id. */
  function ChannelById(s: Store, initialReset: int, cfg: Config, channelId: string, now: int, net: Request -> RemoteOutcome): (out: Step<Response>)
    ensures ValidLedger(s.ledger) ==> ValidLedger(out.store.ledger)
  {
    var call := Call(s, initialReset, ChannelByIdRequest(cfg, channelId), cfg.channelsCost, now, net);
    Step(call.store, QuotaFallback(call.result, MockChannelResponse(channelId)))
  }

  /** searchChannels: the search results, or an empty result flagged quotaExceeded. */
  function ChannelSearch(s: Store, initialReset: int, cfg: Config, query: string, maxResults: nat, now: int, net: Request -> RemoteOutcome): (out: Step<Response>)
    ensures ValidLedger(s.ledger) ==> ValidLedger(out.store.ledger)
  {
    var call := Call(s, initialReset, SearchRequest(cfg, query, maxResults), cfg.searchCost, now, net);
    Step(call.store, QuotaFallback(call.result, Response([], true)))
  }

  /** The playlist items' video ids, in order. */
  function VideoIds(items: seq<Item>): (ids: seq<string>)
    ensures |ids| == |items| && forall i :: 0 <= i < |items| ==> ids[i] == items[i].contentDetails.videoId
  {
    seq(|items|, i requires 0 <= i < |items| => items[i].contentDetails.videoId)
  }

  /**
   * The joined id list the videos call sends splits back into the playlist's video ids, as long as
   * there is at least one and none of them holds a comma.
   */
  lemma VideoIdsReadBack(items: seq<Item>)
    requires |items| >= 1
    requires forall i :: 0 <= i < |items| ==> ',' !in items[i].contentDetails.videoId
    ensures Split(Join(VideoIds(items), ','), ',') == VideoIds(items)
  {
    SplitJoin(VideoIds(items), ',');
  }

  /**
   * getChannelVideos: the uploads playlist of the channel, its items, then the videos' details; a
   * QUOTA_EXCEEDED at any of the three calls replaces the whole result by the mock videos.
   */
  function ChannelVideos(s: Store, initialReset: int, cfg: Config, channelId: string, maxResults: nat,
                         draws: seq<VideoDraw>, now: int, net: Request -> RemoteOutcome): (out: Step<Response>)
    requires |draws| == maxResults && forall i :: 0 <= i < maxResults ==> ValidDraw(draws[i])
    ensures ValidLedger(s.ledger) ==> ValidLedger(out.store.ledger)
  {
    var mock := MockVideosResponse(maxResults, draws, now);
    var channel := Call(s, initialReset, UploadsRequest(cfg, channelId), cfg.channelsCost, now, net);
    if channel.result.Err? then Step(channel.store, QuotaFallback(channel.result, mock))
    else if channel.result.value.data.items == [] then Step(channel.store, Err(NoUploadsChannelMessage))
    else
      var uploads := channel.result.value.data.items[0].contentDetails.uploads;
      var playlist := Call(channel.store, initialReset, PlaylistRequest(cfg, uploads, maxResults), cfg.playlistItemsCost, now, net);
      if playlist.result.Err? then Step(playlist.store, QuotaFallback(playlist.result, mock))
      else
        var videoIds := Join(VideoIds(playlist.result.value.data.items), ',');
        var videos := Call(playlist.store, initialReset, VideosRequest(cfg, videoIds), cfg.videosCost, now, net);
        Step(videos.store, QuotaFallback(videos.result, mock))
  }

  /**
   * The video listing never throws QUOTA_EXCEEDED, and what it returns is either the whole mock
   * response or the body of the third call: real and mock records are never mixed.
   */
  lemma ChannelVideosIsWholeOrMock(s: Store, initialReset: int, cfg: Config, channelId: string, maxResults: nat,
                                   draws: seq<VideoDraw>, now: int, net: Request -> RemoteOutcome)
    requires |draws| == maxResults && forall i :: 0 <= i < maxResults ==> ValidDraw(draws[i])
    ensures var out := ChannelVideos(s, initialReset, cfg, channelId, maxResults, draws, now, net);
      && out.result != Err(QuotaExceeded)
      && (out.result.Ok? ==> out.result.value == MockVideosResponse(maxResults, draws, now) || out.result.value == LastCallBody(s, initialReset, cfg, channelId, maxResults, now, net))
  {
  }

  /** The body the third call of getChannelVideos returns, when the flow gets that far and it succeeds. */
  function LastCallBody(s: Store, initialReset: int, cfg: Config, channelId: string, maxResults: nat,
                        now: int, net: Request -> RemoteOutcome): Response
  {
    var channel := Call(s, initialReset, UploadsRequest(cfg, channelId), cfg.channelsCost, now, net);
    if channel.result.Err? || channel.result.value.data.items == [] then Response([], false)
    else
      var uploads := channel.result.value.data.items[0].contentDetails.uploads;
      var playlist := Call(channel.store, initialReset, PlaylistRequest(cfg, uploads, maxResults), cfg.playlistItemsCost, now, net);
      if playlist.result.Err? then Response([], false)
      else
        var videoIds := Join(VideoIds(playlist.result.value.data.items), ',');
        var videos := Call(playlist.store, initialReset, VideosRequest(cfg, videoIds), cfg.videosCost, now, net);
        if videos.result.Err? then Response([], false) else videos.result.value.data
  }

  /** Out of quota before the first call: the mock videos come back, nothing is charged, and the network is not used. */
  lemma ChannelVideosOutOfQuota(s: Store, initialReset: int, cfg: Config, channelId: string, maxResults: nat,
                                draws: seq<VideoDraw>, now: int, net: Request -> RemoteOutcome)
    requires |draws| == maxResults && forall i :: 0 <= i < maxResults ==> ValidDraw(draws[i])
    requires Lookup(CacheOf(s.cache), CacheKey(UploadsRequest(cfg, channelId)), now).None?
    requires !Available(s.ledger, initialReset, cfg.channelsCost, now)
    ensures var out := ChannelVideos(s, initialReset, cfg, channelId, maxResults, draws, now, net);
      && out.result == Ok(MockVideosResponse(maxResults, draws, now))
      && Reported(out.store.ledger, initialReset, now) == Reported(s.ledger, initialReset, now)
  {
    RefusalIsLocal(s, initialReset, UploadsRequest(cfg, channelId), cfg.channelsCost, now, net, net);
  }

  /**
   * A QUOTA_EXCEEDED at any of the three calls of getChannelVideos, whether refused locally or
   * reported by the remote side, replaces the whole result by the mock videos.
   */
  lemma ChannelVideosQuotaAtEveryStep(s: Store, initialReset: int, cfg: Config, channelId: string, maxResults: nat,
                                      draws: seq<VideoDraw>, now: int, net: Request -> RemoteOutcome)
    requires |draws| == maxResults && forall i :: 0 <= i < maxResults ==> ValidDraw(draws[i])
    ensures var out := ChannelVideos(s, initialReset, cfg, channelId, maxResults, draws, now, net);
      var mock := MockVideosResponse(maxResults, draws, now);
      var channel := Call(s, initialReset, UploadsRequest(cfg, channelId), cfg.channelsCost, now, net);
      && (channel.result == Err(QuotaExceeded) ==> out == Step(channel.store, Ok(mock)))
      && (channel.result.Ok? && channel.result.value.data.items != [] ==>
            var playlist := Call(channel.store, initialReset, PlaylistRequest(cfg, channel.result.value.data.items[0].contentDetails.uploads, maxResults),
                                 cfg.playlistItemsCost, now, net);
            && (playlist.result == Err(QuotaExceeded) ==> out == Step(playlist.store, Ok(mock)))
            && (playlist.result.Ok? ==>
                  var videos := Call(playlist.store, initialReset, VideosRequest(cfg, Join(VideoIds(playlist.result.value.data.items), ',')),
                                     cfg.videosCost, now, net);
                  videos.result == Err(QuotaExceeded) ==> out == Step(videos.store, Ok(mock))))
  {
  }

  /** Whatever the handle lookup's call throws or returns, the endpoint answers as its catch block does. */
  lemma ChannelByHandleFallback(s: Store, initialReset: int, cfg: Config, handle: string, now: int, net: Request -> RemoteOutcome)
    ensures var call := Call(s, initialReset, ChannelByHandleRequest(cfg, handle), cfg.channelsCost, now, net);
      var out := ChannelByHandle(s, initialReset, cfg, handle, now, net);
      && out.store == call.store
      && (call.result == Err(QuotaExceeded) ==> out.result == Ok(MockChannelResponse(handle)))
      && (call.result.Ok? ==> out.result == Ok(call.result.value.data))
      && (call.result.Err? && call.result.error != QuotaExceeded ==> out.result == Err(call.result.error))
  {
  }

  /** Whatever the id lookup's call throws or returns, the endpoint answers as its catch block does. */
  lemma ChannelByIdFallback(s: Store, initialReset: int, cfg: Config, channelId: string, now: int, net: Request -> RemoteOutcome)
    ensures var call := Call(s, initialReset, ChannelByIdRequest(cfg, channelId), cfg.channelsCost, now, net);
      var out := ChannelById(s, initialReset, cfg, channelId, now, net);
      && out.store == call.store
      && (call.result == Err(QuotaExceeded) ==> out.result == Ok(MockChannelResponse(channelId)))
      && (call.result.Ok? ==> out.result == Ok(call.result.value.data))
      && (call.result.Err? && call.result.error != QuotaExceeded ==> out.result == Err(call.result.error))
  {
  }

  /** Whatever the search's call throws or returns, the endpoint answers as its catch block does. */
  lemma ChannelSearchFallback(s: Store, initialReset: int, cfg: Config, query: string, maxResults: nat, now: int, net: Request -> RemoteOutcome)
    ensures var call := Call(s, initialReset, SearchRequest(cfg, query, maxResults), cfg.searchCost, now, net);
      var out := ChannelSearch(s, initialReset, cfg, query, maxResults, now, net);
      && out.store == call.store
      && (call.result == Err(QuotaExceeded) ==> out.result == Ok(Response([], true)))
      && (call.result.Ok? ==> out.result == Ok(call.result.value.data))
      && (call.result.Err? && call.result.error != QuotaExceeded ==> out.result == Err(call.result.error))
  {
  }

  /**
   * A remote 403 with reason quotaExceeded reaches the same fallback as a local refusal: the handle
   * lookup answers with the mock channel, and nothing is charged or cached for the request.
   */
  lemma RemoteQuotaErrorGivesMockChannel(s: Store, initialReset: int, cfg: Config, handle: string, now: int,
                                         net: Request -> RemoteOutcome, message: string)
    requires Lookup(CacheOf(s.cache), CacheKey(ChannelByHandleRequest(cfg, handle)), now).None?
    requires Available(s.ledger, initialReset, cfg.channelsCost, now)
    requires net(ChannelByHandleRequest(cfg, handle)) == Failed(Some(HttpFailure(403, Some("quotaExceeded"), message)))
    ensures var out := ChannelByHandle(s, initialReset, cfg, handle, now, net);
      && out.result == Ok(MockChannelResponse(handle))
      && Reported(out.store.ledger, initialReset, now) == Reported(s.ledger, initialReset, now)
      && Lookup(CacheOf(out.store.cache), CacheKey(ChannelByHandleRequest(cfg, handle)), now).None?
  {
    var req := ChannelByHandleRequest(cfg, handle);
    LiveFailureChargesNothing(s, initialReset, req, cfg.channelsCost, now, net);
    QuotaSignal(net(req).failure);
  }

  /** The same for a lookup by id. */
  lemma RemoteQuotaErrorGivesMockChannelById(s: Store, initialReset: int, cfg: Config, channelId: string, now: int,
                                             net: Request -> RemoteOutcome, message: string)
    requires Lookup(CacheOf(s.cache), CacheKey(ChannelByIdRequest(cfg, channelId)), now).None?
    requires Available(s.ledger, initialReset, cfg.channelsCost, now)
    requires net(ChannelByIdRequest(cfg, channelId)) == Failed(Some(HttpFailure(403, Some("quotaExceeded"), message)))
    ensures var out := ChannelById(s, initialReset, cfg, channelId, now, net);
      && out.result == Ok(MockChannelResponse(channelId))
      && Reported(out.store.ledger, initialReset, now) == Reported(s.ledger, initialReset, now)
  {
    var req := ChannelByIdRequest(cfg, channelId);
    LiveFailureChargesNothing(s, initialReset, req, cfg.channelsCost, now, net);
    QuotaSignal(net(req).failure);
  }

  /** A lookup by id out of quota answers with the mock channel for the id and charges nothing. */
  lemma ChannelByIdOutOfQuota(s: Store, initialReset: int, cfg: Config, channelId: string, now: int, net: Request -> RemoteOutcome)
    requires Lookup(CacheOf(s.cache), CacheKey(ChannelByIdRequest(cfg, channelId)), now).None?
    requires !Available(s.ledger, initialReset, cfg.channelsCost, now)
    ensures var out := ChannelById(s, initialReset, cfg, channelId, now, net);
      && out.result == Ok(MockChannelResponse(channelId))
      && Reported(out.store.ledger, initialReset, now) == Reported(s.ledger, initialReset, now)
  {
    RefusalIsLocal(s, initialReset, ChannelByIdRequest(cfg, channelId), cfg.channelsCost, now, net, net);
  }

  /** A handle lookup out of quota answers with the mock channel and charges nothing. */
  lemma ChannelByHandleOutOfQuota(s: Store, initialReset: int, cfg: Config, handle: string, now: int, net: Request -> RemoteOutcome)
    requires Lookup(CacheOf(s.cache), CacheKey(ChannelByHandleRequest(cfg, handle)), now).None?
    requires !Available(s.ledger, initialReset, cfg.channelsCost, now)
    ensures var out := ChannelByHandle(s, initialReset, cfg, handle, now, net);
      && out.result == Ok(MockChannelResponse(handle))
      && out.result.value.quotaExceeded && |out.result.value.items| == 1
      && Reported(out.store.ledger, initialReset, now) == Reported(s.ledger, initialReset, now)
  {
    RefusalIsLocal(s, initialReset, ChannelByHandleRequest(cfg, handle), cfg.channelsCost, now, net, net);
  }

  /** A search out of quota answers with no items, flagged quotaExceeded. */
  lemma SearchOutOfQuota(s: Store, initialReset: int, cfg: Config, query: string, maxResults: nat, now: int, net: Request -> RemoteOutcome)
    requires Lookup(CacheOf(s.cache), CacheKey(SearchRequest(cfg, query, maxResults)), now).None?
    requires !Available(s.ledger, initialReset, cfg.searchCost, now)
    ensures ChannelSearch(s, initialReset, cfg, query, maxResults, now, net).result == Ok(Response([], true))
  {
    RefusalIsLocal(s, initialReset, SearchRequest(cfg, query, maxResults), cfg.searchCost, now, net, net);
  }

  // ---------------------------------------------------------------- quota report

  /** getQuotaUsage of the service: usage, limit, percentage used, time left as text, reset time. */
  datatype QuotaReport = QuotaReport(used: int, limit: int, percentage: real, timeUntilReset: string, resetTime: int)

  function QuotaReportOf(ledger: Option<Usage>, initialReset: int, now: int): QuotaReport
    requires ValidLedger(ledger)
  {
    var usage := Reported(ledger, initialReset, now);
    QuotaReport(usage.used, usage.limit, usage.used as real / usage.limit as real * 100.0,
                FormatDuration(TimeUntilReset(ledger, initialReset, now)), usage.resetTime)
  }

  /** Against the 10000-unit limit the percentage is used/100, between 0 and 100 while usage is within the limit. */
  lemma QuotaReportPercentage(ledger: Option<Usage>, initialReset: int, now: int)
    requires ValidLedger(ledger)
    ensures QuotaReportOf(ledger, initialReset, now).percentage == Reported(ledger, initialReset, now).used as real / 100.0
    ensures 0 <= Reported(ledger, initialReset, now).used <= DailyLimit ==> 0.0 <= QuotaReportOf(ledger, initialReset, now).percentage <= 100.0
  {
  }

  // ---------------------------------------------------------------- the service object

  class ApiService {
    const config: Config
    /** The shared quota manager over the stored ledger and cache. */
    const quota: QuotaManager<Response>

    constructor (config: Config, quota: QuotaManager<Response>)
      ensures this.config == config && this.quota == quota
    {
      this.config := config;
      this.quota := quota;
    }

    /** The two stored records, as the specification functions see them. */
    ghost function Records(): Store
      reads quota
    {
      Store(quota.ledger, quota.cacheStore)
    }

    method MakeApiCall(req: Request, cost: int, now: int, net: Request -> RemoteOutcome) returns (r: Result<Fetched, string>)
      requires quota.Valid()
      modifies quota
      ensures quota.Valid()
      ensures Step(Records(), r) == Call(old(Records()), quota.initialReset, req, cost, now, net)
    {
      var key := CacheKey(req);
      var cached := quota.GetCache(key, now);
      if cached.Some? {
        return Ok(Fetched(cached.value, true));
      }
      var available := quota.HasQuotaAvailable(now, cost);
      if !available {
        return Err(QuotaExceeded);
      }
      match net(req)
      case Delivered(data) =>
        var _ := quota.AddQuotaUsage(cost, now);
        quota.SetCache(key, data, now, CacheTtl);
        return Ok(Fetched(data, false));
      case Failed(failure) =>
        return Err(HandleApiError(failure));
    }

    method GetChannelByHandle(handle: string, now: int, net: Request -> RemoteOutcome) returns (r: Result<Response, string>)
      requires quota.Valid()
      modifies quota
      ensures quota.Valid()
      ensures Step(Records(), r) == ChannelByHandle(old(Records()), quota.initialReset, config, handle, now, net)
    {
      var call := MakeApiCall(ChannelByHandleRequest(config, handle), config.channelsCost, now, net);
      r := QuotaFallback(call, MockChannelResponse(handle));
    }

    method GetChannelById(channelId: string, now: int, net: Request -> RemoteOutcome) returns (r: Result<Response, string>)
      requires quota.Valid()
      modifies quota
      ensures quota.Valid()
      ensures Step(Records(), r) == ChannelById(old(Records()), quota.initialReset, config, channelId, now, net)
    {
      var call := MakeApiCall(ChannelByIdRequest(config, channelId), config.channelsCost, now, net);
      r := QuotaFallback(call, MockChannelResponse(channelId));
    }

    method GetChannelVideos(channelId: string, maxResults: nat, draws: seq<VideoDraw>, now: int, net: Request -> RemoteOutcome)
      returns (r: Result<Response, string>)
      requires |draws| == maxResults && forall i :: 0 <= i < maxResults ==> ValidDraw(draws[i])
      requires quota.Valid()
      modifies quota
      ensures quota.Valid()
      ensures Step(Records(), r) == ChannelVideos(old(Records()), quota.initialReset, config, channelId, maxResults, draws, now, net)
    {
      var mock := MockVideosResponse(maxResults, draws, now);
      var channel := MakeApiCall(UploadsRequest(config, channelId), config.channelsCost, now, net);
      if channel.Err? {
        return QuotaFallback(channel, mock);
      }
      if channel.value.data.items == [] {
        return Err(NoUploadsChannelMessage);
      }
      var uploads := channel.value.data.items[0].contentDetails.uploads;
      var playlist := MakeApiCall(PlaylistRequest(config, uploads, maxResults), config.playlistItemsCost, now, net);
      if playlist.Err? {
        return QuotaFallback(playlist, mock);
      }
      var videoIds := Join(VideoIds(playlist.value.data.items), ',');
      var videos := MakeApiCall(VideosRequest(config, videoIds), config.videosCost, now, net);
      r := QuotaFallback(videos, mock);
    }

    method SearchChannels(query: string, maxResults: nat, now: int, net: Request -> RemoteOutcome) returns (r: Result<Response, string>)
      requires quota.Valid()
      modifies quota
      ensures quota.Valid()
      ensures Step(Records(), r) == ChannelSearch(old(Records()), quota.initialReset, config, query, maxResults, now, net)
    {
      var call := MakeApiCall(SearchRequest(config, query, maxResults), config.searchCost, now, net);
      r := QuotaFallback(call, Response([], true));
    }

    method GetQuotaUsage(now: int) returns (report: QuotaReport)
      requires quota.Valid()
      modifies quota`ledger
      ensures quota.Valid()
      ensures report == QuotaReportOf(old(quota.ledger), quota.initialReset, now)
      ensures quota.ledger == StoredAfterRead(old(quota.ledger), now)
    {
      ghost var before := quota.ledger;
      var usage := quota.GetQuotaUsage(now);
      var timeText := quota.FormatTimeUntilReset(now);
      ReadIsIdempotent(before, quota.initialReset, now);
      report := QuotaReport(usage.used, usage.limit, usage.used as real / usage.limit as real * 100.0, timeText, usage.resetTime);
    }

    method ResetQuota(now: int)
      modifies quota`ledger
      ensures quota.Valid()
      ensures quota.ledger == Some(FreshUsage(now))
    {
      var _ := quota.ResetQuota(now);
    }
  }
}
