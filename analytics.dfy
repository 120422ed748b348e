/**
 * The analytics of src/services/youtubeService.js: resources turned into the application's channel
 * and video records, the metrics derived from them, the five-band health score, and the
 * two-channel comparison. JavaScript numbers are exact reals here; rounding is written out.
 */
module Analytics {
  import opened Wrappers
  import opened Text
  import opened JsMath
  import opened YouTubeApi
  import MockData

  // ---------------------------------------------------------------- processChannelData / processVideoData

  /** The count fields parseInt can read: absent, or starting with a digit. */
  predicate ReadableChannel(channel: Item)
  {
    CountText(channel.statistics.subscriberCount) && CountText(channel.statistics.videoCount) && CountText(channel.statistics.viewCount)
  }

  predicate ReadableVideo(video: Item)
  {
    CountText(video.statistics.viewCount) && CountText(video.statistics.likeCount) && CountText(video.statistics.commentCount)
  }

  predicate ReadableVideos(videos: seq<Item>)
  {
    forall i :: 0 <= i < |videos| ==> ReadableVideo(videos[i])
  }

  /** thumbnails.medium.url || thumbnails.default.url. */
  function ThumbnailOf(snippet: Snippet): string
  {
    if snippet.mediumThumbnail != "" then snippet.mediumThumbnail else snippet.defaultThumbnail
  }

  /** A processed video; `publishedAt` is kept as a time. */
  datatype Video = Video(
    id: string, title: string, description: string, thumbnail: string, publishedAt: int,
    views: nat, likes: nat, comments: nat, duration: string, tags: seq<string>)

  /** A processed channel; `createdAt` is the publication time (its locale date text is not modelled). */
  datatype Profile = Profile(
    id: string, title: string, description: string, thumbnail: string, customUrl: string,
    subscriberCount: nat, videoCount: nat, totalViews: nat, createdAt: int, country: string,
    keywords: seq<string>, videos: seq<Video>)

  function ProcessVideo(video: Item): (v: Video)
    requires ReadableVideo(video)
    ensures v.id == video.id && v.duration == video.contentDetails.duration
    ensures AllDigits(video.statistics.viewCount) ==> v.views == DigitsValue(video.statistics.viewCount)
    ensures AllDigits(video.statistics.likeCount) ==> v.likes == DigitsValue(video.statistics.likeCount)
    ensures AllDigits(video.statistics.commentCount) ==> v.comments == DigitsValue(video.statistics.commentCount)
  {
    ParseCountOfDigits(video.statistics.viewCount);
    ParseCountOfDigits(video.statistics.likeCount);
    ParseCountOfDigits(video.statistics.commentCount);
    var s := video.snippet;
    Video(video.id, s.title, s.description, ThumbnailOf(s), s.publishedAt,
          ParseCount(video.statistics.viewCount), ParseCount(video.statistics.likeCount),
          ParseCount(video.statistics.commentCount), video.contentDetails.duration,
          if s.tags.Some? then s.tags.value else [])
  }

  function ProcessChannel(channel: Item, videos: seq<Item>): (p: Profile)
    requires ReadableChannel(channel) && ReadableVideos(videos)
    ensures |p.videos| == |videos|
  {
    var s := channel.snippet;
    Profile(channel.id, s.title, s.description, ThumbnailOf(s), s.customUrl,
            ParseCount(channel.statistics.subscriberCount), ParseCount(channel.statistics.videoCount),
            ParseCount(channel.statistics.viewCount), s.publishedAt,
            if s.country != "" then s.country else "Unknown",
            if channel.keywords.Some? then Split(channel.keywords.value, ' ') else [],
            seq(|videos|, i requires 0 <= i < |videos| && ReadableVideo(videos[i]) => ProcessVideo(videos[i])))
  }

  /** Processing the mock channel response gives back the generated channel. */
  lemma ProcessMockChannel(identifier: string)
    ensures ReadableChannel(MockChannelResponse(identifier).items[0])
    ensures var p := ProcessChannel(MockChannelResponse(identifier).items[0], []);
      var m := MockData.MockChannelData(identifier);
      && p.id == m.id && p.title == m.title && p.description == m.description && p.thumbnail == m.thumbnail
      && p.subscriberCount == m.subscriberCount && p.videoCount == m.videoCount && p.totalViews == m.totalViews
      && p.createdAt == m.createdAt && p.country == m.country && p.keywords == m.keywords
      && p.customUrl == "@" + identifier
  {
    MockChannelResponseReadsBack(identifier);
  }

  /** Processing a mock videos response gives back each generated video's counts, duration and tags. */
  lemma ProcessMockVideo(count: nat, draws: seq<MockData.VideoDraw>, now: int, i: nat)
    requires |draws| == count && forall k :: 0 <= k < count ==> MockData.ValidDraw(draws[k])
    requires i < count
    ensures ReadableVideo(MockVideosResponse(count, draws, now).items[i])
    ensures var p := ProcessVideo(MockVideosResponse(count, draws, now).items[i]);
      var v := MockData.MockVideoAt(i, draws[i], now);
      && p.id == v.id && p.title == v.title && p.thumbnail == v.thumbnail && p.publishedAt == v.uploadDate
      && p.views == v.views && p.likes == v.likes && p.comments == v.likes / 10
      && p.tags == ["youtube", "tutorial", "guide"]
      && ParseMinutesSeconds(p.duration) == Some((MockData.DrawnMinutes(draws[i]), MockData.DrawnSeconds(draws[i])))
  {
    MockVideosResponseItem(count, draws, now, i);
    var v := MockData.MockVideoAt(i, draws[i], now);
    ParseCountOfNatToString(v.views);
    ParseCountOfNatToString(v.likes);
    ParseCountOfNatToString(v.likes / 10);
  }

  // ---------------------------------------------------------------- the health score

  /** The inputs calculateHealthScore reads. */
  datatype HealthInputs = HealthInputs(
    subscriberCount: int, engagementRate: real, uploadConsistency: real, viewGrowth: real, videoCount: int)

  function SubscriberPoints(subscribers: int): (p: int)
    ensures 5 <= p <= 20
  {
    if subscribers >= 100000 then 20 else if subscribers >= 50000 then 18
    else if subscribers >= 10000 then 15 else if subscribers >= 1000 then 10 else 5
  }

  function EngagementPoints(rate: real): (p: int)
    ensures 5 <= p <= 25
  {
    if rate >= 5.0 then 25 else if rate >= 3.0 then 20 else if rate >= 2.0 then 15 else if rate >= 1.0 then 10 else 5
  }

  function ConsistencyPoints(consistency: real): (p: real)
    ensures p <= 20.0 && (consistency >= 0.0 ==> p >= 0.0)
  {
    MinReal(consistency * 0.2, 20.0)
  }

  function GrowthPoints(growth: real): (p: int)
    ensures 0 <= p <= 20 && (growth >= 0.0 ==> p >= 5)
  {
    if growth >= 20.0 then 20 else if growth >= 10.0 then 15 else if growth >= 5.0 then 10 else if growth >= 0.0 then 5 else 0
  }

  function VideoCountPoints(videos: int): (p: int)
    ensures 2 <= p <= 15
  {
    if videos >= 100 then 15 else if videos >= 50 then 12 else if videos >= 20 then 8 else if videos >= 10 then 5 else 2
  }

  /** The five bands added up and capped at 100. */
  function HealthScoreOf(m: HealthInputs): real
  {
    MinReal((SubscriberPoints(m.subscriberCount) + EngagementPoints(m.engagementRate)) as real
            + ConsistencyPoints(m.uploadConsistency)
            + (GrowthPoints(m.viewGrowth) + VideoCountPoints(m.videoCount)) as real, 100.0)
  }

  /** calculateHealthScore: the score accumulated band by band. */
  method CalculateHealthScore(m: HealthInputs) returns (score: real)
    ensures score == HealthScoreOf(m)
  {
    score := 0.0;
    if m.subscriberCount >= 100000 { score := score + 20.0; }
    else if m.subscriberCount >= 50000 { score := score + 18.0; }
    else if m.subscriberCount >= 10000 { score := score + 15.0; }
    else if m.subscriberCount >= 1000 { score := score + 10.0; }
    else { score := score + 5.0; }
    assert score == SubscriberPoints(m.subscriberCount) as real;

    if m.engagementRate >= 5.0 { score := score + 25.0; }
    else if m.engagementRate >= 3.0 { score := score + 20.0; }
    else if m.engagementRate >= 2.0 { score := score + 15.0; }
    else if m.engagementRate >= 1.0 { score := score + 10.0; }
    else { score := score + 5.0; }
    assert score == (SubscriberPoints(m.subscriberCount) + EngagementPoints(m.engagementRate)) as real;

    score := score + MinReal(m.uploadConsistency * 0.2, 20.0);

    if m.viewGrowth >= 20.0 { score := score + 20.0; }
    else if m.viewGrowth >= 10.0 { score := score + 15.0; }
    else if m.viewGrowth >= 5.0 { score := score + 10.0; }
    else if m.viewGrowth >= 0.0 { score := score + 5.0; }
    assert score == (SubscriberPoints(m.subscriberCount) + EngagementPoints(m.engagementRate)) as real
                    + ConsistencyPoints(m.uploadConsistency) + GrowthPoints(m.viewGrowth) as real;

    if m.videoCount >= 100 { score := score + 15.0; }
    else if m.videoCount >= 50 { score := score + 12.0; }
    else if m.videoCount >= 20 { score := score + 8.0; }
    else if m.videoCount >= 10 { score := score + 5.0; }
    else { score := score + 2.0; }

    score := MinReal(score, 100.0);
  }

  /** With a non-negative consistency the score lies in [12, 100], and in [17, 100] when growth is not negative. */
  lemma HealthScoreBounds(m: HealthInputs)
    requires m.uploadConsistency >= 0.0
    ensures 12.0 <= HealthScoreOf(m) <= 100.0
    ensures m.viewGrowth >= 0.0 ==> 17.0 <= HealthScoreOf(m)
  {
  }

  /** Raising any input never lowers the score. */
  lemma HealthScoreMonotone(a: HealthInputs, b: HealthInputs)
    requires a.subscriberCount <= b.subscriberCount && a.engagementRate <= b.engagementRate
    requires a.uploadConsistency <= b.uploadConsistency && a.viewGrowth <= b.viewGrowth && a.videoCount <= b.videoCount
    ensures HealthScoreOf(a) <= HealthScoreOf(b)
  {
    assert SubscriberPoints(a.subscriberCount) <= SubscriberPoints(b.subscriberCount);
    assert EngagementPoints(a.engagementRate) <= EngagementPoints(b.engagementRate);
    assert ConsistencyPoints(a.uploadConsistency) <= ConsistencyPoints(b.uploadConsistency);
    assert GrowthPoints(a.viewGrowth) <= GrowthPoints(b.viewGrowth);
    assert VideoCountPoints(a.videoCount) <= VideoCountPoints(b.videoCount);
  }

  lemma HealthScoreExample()
    ensures HealthScoreOf(HealthInputs(120000, 6.0, 100.0, 25.0, 150)) == 100.0
  {
  }

  // ---------------------------------------------------------------- channel metrics

  function ViewsOf(video: Item): nat
    requires ReadableVideo(video)
  {
    ParseCount(video.statistics.viewCount)
  }

  /** videos.slice(0, 10). */
  function Window(videos: seq<Item>): (w: seq<Item>)
    ensures |w| == if |videos| < 10 then |videos| else 10
    ensures w <= videos
  {
    if |videos| <= 10 then videos else videos[..10]
  }

  function SumViews(videos: seq<Item>): nat
    requires ReadableVideos(videos)
  {
    if videos == [] then 0 else SumViews(videos[..|videos| - 1]) + ViewsOf(videos[|videos| - 1])
  }

  /** One video's (likes + comments) / views * 100, or 0 for a video without views. */
  function Engagement(views: nat, likes: nat, comments: nat): (e: real)
    ensures e >= 0.0
  {
    if views > 0 then (likes + comments) as real / views as real * 100.0 else 0.0
  }

  function VideoEngagement(video: Item): (e: real)
    requires ReadableVideo(video)
    ensures e >= 0.0
  {
    Engagement(ViewsOf(video), ParseCount(video.statistics.likeCount), ParseCount(video.statistics.commentCount))
  }

  function SumEngagement(videos: seq<Item>): (total: real)
    requires ReadableVideos(videos)
    ensures total >= 0.0
  {
    if videos == [] then 0.0 else SumEngagement(videos[..|videos| - 1]) + VideoEngagement(videos[|videos| - 1])
  }

  /** total / n, or 0 for an empty window. */
  function Mean(total: real, n: nat): real
  {
    if n > 0 then total / n as real else 0.0
  }

  /** The videos published strictly after the cutoff (six months before now). */
  function UploadsAfter(videos: seq<Item>, cutoff: int): (n: nat)
    ensures n <= |videos|
  {
    if videos == [] then 0
    else UploadsAfter(videos[..|videos| - 1], cutoff) + (if videos[|videos| - 1].snippet.publishedAt > cutoff then 1 else 0)
  }

  /** The indices of the videos published strictly after the cutoff. */
  function RecentIndices(videos: seq<Item>, cutoff: int): set<int>
  {
    set i | 0 <= i < |videos| && videos[i].snippet.publishedAt > cutoff
  }

  /** The count of uploads after the cutoff is the number of videos the filter keeps. */
  lemma {:induction false} UploadsAfterCountsFiltered(videos: seq<Item>, cutoff: int)
    ensures UploadsAfter(videos, cutoff) == |RecentIndices(videos, cutoff)|
  {
    if videos != [] {
      var n := |videos| - 1;
      var prefix := videos[..n];
      UploadsAfterCountsFiltered(prefix, cutoff);
      var tail: set<int> := if videos[n].snippet.publishedAt > cutoff then {n} else {};
      assert RecentIndices(videos, cutoff) == RecentIndices(prefix, cutoff) + tail by {
        forall i | 0 <= i < n ensures prefix[i] == videos[i] { }
      }
      assert n !in RecentIndices(prefix, cutoff);
    }
  }

  /** Milliseconds in a 365-day year. */
  const MsPerYear: real := 31536000000.0

  function AccountAge(publishedAt: int, now: int): real
  {
    (now - publishedAt) as real / MsPerYear
  }

  /** ((subscribers / age) / subscribers) * 100, or 0 for a channel not older than now. */
  function SubscriberGrowth(subscribers: nat, age: real): real
    requires age > 0.0 ==> subscribers > 0
  {
    if age > 0.0 then ((subscribers as real / age) / subscribers as real) * 100.0 else 0.0
  }

  /** The growth estimate does not depend on the subscriber count: it is 100 / age. */
  lemma SubscriberGrowthIsInverseAge(subscribers: nat, age: real)
    requires subscribers > 0 && age > 0.0
    ensures SubscriberGrowth(subscribers, age) == 100.0 / age
  {
    var s := subscribers as real;
    assert (s / age) / s == 1.0 / age;
  }

  /** Math.round(totalViews / videoCount), or 0 without videos. */
  function AvgViewsPerVideo(totalViews: nat, videoCount: nat): (avg: int)
    ensures avg >= 0
  {
    if videoCount > 0 then Round(totalViews as real / videoCount as real) else 0
  }

  lemma AvgViewsExample()
    ensures AvgViewsPerVideo(1000000, 100) == 10000
  {
    assert 1000000 as real / 100 as real == 10000.0;
  }

  /** (recent - average) / average * 100 when the recent average is higher, else 0. */
  function ViewGrowth(recentAvg: real, avg: int): real
    requires recentAvg > avg as real ==> avg != 0
  {
    if recentAvg > avg as real then (recentAvg - avg as real) / avg as real * 100.0 else 0.0
  }

  /** The unrounded metrics of calculateChannelAnalytics. */
  datatype Metrics = Metrics(
    subscriberCount: nat, totalViews: nat, videoCount: nat, avgViewsPerVideo: int,
    recentAvgViews: real, engagementRate: real, uploadsPerMonth: real, uploadConsistency: real,
    subscriberGrowth: real, viewGrowth: real)

  function RecentAvgViews(videos: seq<Item>): real
    requires ReadableVideos(videos)
  {
    var w := Window(videos);
    Mean(SumViews(w) as real, |w|)
  }

  function ChannelAvgViews(channel: Item): int
    requires ReadableChannel(channel)
  {
    AvgViewsPerVideo(ParseCount(channel.statistics.viewCount), ParseCount(channel.statistics.videoCount))
  }

  /**
   * The inputs calculateChannelAnalytics handles without dividing zero by zero: readable counts,
   * subscribers when the channel has an age, and a non-zero average when recent views exceed it.
   */
  predicate Analyzable(channel: Item, videos: seq<Item>, now: int)
  {
    && ReadableChannel(channel) && ReadableVideos(videos)
    && (AccountAge(channel.snippet.publishedAt, now) > 0.0 ==> ParseCount(channel.statistics.subscriberCount) > 0)
    && (RecentAvgViews(videos) > ChannelAvgViews(channel) as real ==> ChannelAvgViews(channel) != 0)
  }

  function MetricsOf(channel: Item, videos: seq<Item>, now: int, cutoff: int): Metrics
    requires Analyzable(channel, videos, now)
  {
    var subscribers := ParseCount(channel.statistics.subscriberCount);
    var w := Window(videos);
    var avg := ChannelAvgViews(channel);
    var recentAvg := RecentAvgViews(videos);
    var perMonth := UploadsAfter(videos, cutoff) as real / 6.0;
    Metrics(
      subscribers, ParseCount(channel.statistics.viewCount), ParseCount(channel.statistics.videoCount), avg,
      recentAvg, Mean(SumEngagement(w), |w|), perMonth, MinReal(perMonth * 25.0, 100.0),
      SubscriberGrowth(subscribers, AccountAge(channel.snippet.publishedAt, now)),
      ViewGrowth(recentAvg, avg))
  }

  /** A window whose views are all at most `bound` has at most `bound` views on average. */
  lemma {:induction false} SumViewsBound(videos: seq<Item>, bound: nat)
    requires ReadableVideos(videos)
    requires forall i :: 0 <= i < |videos| ==> ViewsOf(videos[i]) <= bound
    ensures SumViews(videos) <= |videos| * bound
  {
    if videos != [] {
      var prefix := videos[..|videos| - 1];
      assert forall i :: 0 <= i < |prefix| ==> prefix[i] == videos[i];
      SumViewsBound(prefix, bound);
      MulSucc(|prefix|, bound);
    }
  }

  lemma MulSucc(n: nat, b: nat)
    ensures (n + 1) * b == n * b + b
  {
  }

  lemma MeanBound(total: nat, n: nat, bound: nat)
    requires total <= n * bound
    ensures 0.0 <= Mean(total as real, n) <= bound as real
  {
    if n > 0 {
      var t, k, b := total as real, n as real, bound as real;
      assert (n * bound) as real == k * b;
      assert t / k * k == t;
    }
  }

  /** recentAvgViews lies between 0 and the largest view count of the first ten videos. */
  lemma RecentAverageWithinWindow(videos: seq<Item>, bound: nat)
    requires ReadableVideos(videos)
    requires forall i :: 0 <= i < |Window(videos)| ==> ViewsOf(Window(videos)[i]) <= bound
    ensures 0.0 <= RecentAvgViews(videos) <= bound as real
  {
    var w := Window(videos);
    SumViewsBound(w, bound);
    MeanBound(SumViews(w), |w|, bound);
  }

  /** uploadConsistency lies in [0, 100]; twelve recent uploads give 2 per month and a consistency of 50. */
  lemma ConsistencyRange(channel: Item, videos: seq<Item>, now: int, cutoff: int)
    requires Analyzable(channel, videos, now)
    ensures var m := MetricsOf(channel, videos, now, cutoff);
      && 0.0 <= m.uploadConsistency <= 100.0
      && m.uploadsPerMonth == UploadsAfter(videos, cutoff) as real / 6.0
      && (UploadsAfter(videos, cutoff) == 12 ==> m.uploadsPerMonth == 2.0 && m.uploadConsistency == 50.0)
  {
  }

  /** viewGrowth is 0 unless the recent average beats the channel average, and positive when it does. */
  lemma ViewGrowthOnlyWhenAhead(recentAvg: real, avg: int)
    requires recentAvg > avg as real ==> avg != 0
    requires avg >= 0
    ensures ViewGrowth(recentAvg, avg) != 0.0 <==> recentAvg > avg as real
    ensures ViewGrowth(recentAvg, avg) >= 0.0
  {
    if recentAvg > avg as real {
      assert recentAvg - avg as real > 0.0;
    }
  }

  /** A video without views contributes nothing; 1000 views with 50 likes and 10 comments is 6%. */
  lemma EngagementExamples(likes: nat, comments: nat)
    ensures Engagement(0, likes, comments) == 0.0
    ensures Engagement(1000, 50, 10) == 6.0
  {
  }

  // ---------------------------------------------------------------- topPerformingVideo

  function TopViews(top: Option<Item>): nat
    requires top.Some? ==> ReadableVideo(top.value)
  {
    if top.Some? then ViewsOf(top.value) else 0
  }

  /** The reduce over the window: a later video replaces the current top only with strictly more views. */
  function TopOf(videos: seq<Item>): (top: Option<Item>)
    requires ReadableVideos(videos)
    ensures top.Some? ==> top.value in videos
  {
    if videos == [] then None
    else
      var top := TopOf(videos[..|videos| - 1]);
      var last := videos[|videos| - 1];
      if ViewsOf(last) > TopViews(top) then Some(last) else top
  }

  /** There is no top video exactly when every video has 0 views. */
  lemma {:induction false} TopOfNoneIffSilent(videos: seq<Item>)
    requires ReadableVideos(videos)
    ensures TopOf(videos).None? <==> forall i :: 0 <= i < |videos| ==> ViewsOf(videos[i]) == 0
  {
    if videos != [] {
      var prefix := videos[..|videos| - 1];
      assert forall i :: 0 <= i < |prefix| ==> prefix[i] == videos[i];
      TopOfNoneIffSilent(prefix);
    }
  }

  /** No video has more views than the top video (0 when there is none). */
  lemma {:induction false} TopViewsIsMax(videos: seq<Item>)
    requires ReadableVideos(videos)
    ensures forall i :: 0 <= i < |videos| ==> ViewsOf(videos[i]) <= TopViews(TopOf(videos))
  {
    if videos != [] {
      var prefix := videos[..|videos| - 1];
      assert forall i :: 0 <= i < |prefix| ==> prefix[i] == videos[i];
      TopViewsIsMax(prefix);
    }
  }

  /** The top video is the earliest one with the strictly largest, positive view count. */
  lemma {:induction false} TopOfIsEarliestMax(videos: seq<Item>) returns (j: nat)
    requires ReadableVideos(videos)
    requires TopOf(videos).Some?
    ensures j < |videos| && TopOf(videos) == Some(videos[j]) && ViewsOf(videos[j]) > 0
    ensures forall i :: 0 <= i < |videos| ==> ViewsOf(videos[i]) <= ViewsOf(videos[j])
    ensures forall i :: 0 <= i < j ==> ViewsOf(videos[i]) < ViewsOf(videos[j])
  {
    var n := |videos|;
    var prefix := videos[..n - 1];
    var top := TopOf(prefix);
    if ViewsOf(videos[n - 1]) > TopViews(top) {
      j := n - 1;
      TopViewsIsMax(prefix);
      forall i | 0 <= i < j ensures ViewsOf(videos[i]) < ViewsOf(videos[j]) {
        assert videos[i] == prefix[i];
      }
    } else {
      j := TopOfIsEarliestMax(prefix);
      assert prefix[j] == videos[j];
      forall i | 0 <= i < j ensures ViewsOf(videos[i]) < ViewsOf(videos[j]) {
        assert videos[i] == prefix[i];
      }
    }
    TopViewsIsMax(videos);
  }

  // ---------------------------------------------------------------- calculateChannelAnalytics

  /** The analytics record, rounded as the application shows it. */
  datatype ChannelAnalytics = ChannelAnalytics(
    healthScore: int, subscriberGrowth: real, viewGrowth: real, avgViewsPerVideo: int, recentAvgViews: int,
    uploadConsistency: int, engagementRate: real, uploadsPerMonth: real, topPerformingVideo: Option<Item>)

  /** Math.round(x * 100) / 100. */
  function Hundredths(x: real): real { Round(x * 100.0) as real / 100.0 }

  /** Math.round(x * 10) / 10. */
  function Tenths(x: real): real { Round(x * 10.0) as real / 10.0 }

  /** The health-score inputs, growth clipped at 0 as the caller does. */
  function HealthInputsOf(m: Metrics): HealthInputs
  {
    HealthInputs(m.subscriberCount, m.engagementRate, m.uploadConsistency, MaxReal(m.viewGrowth, 0.0), m.videoCount)
  }

  function CalculateChannelAnalytics(channel: Item, videos: seq<Item>, now: int, cutoff: int): (a: ChannelAnalytics)
    requires Analyzable(channel, videos, now)
    ensures 17 <= a.healthScore <= 100 && 0 <= a.uploadConsistency <= 100 && a.avgViewsPerVideo >= 0
    ensures a.topPerformingVideo.Some? ==> a.topPerformingVideo.value in Window(videos)
  {
    var m := MetricsOf(channel, videos, now, cutoff);
    ConsistencyRange(channel, videos, now, cutoff);
    HealthScoreBounds(HealthInputsOf(m));
    ChannelAnalytics(
      Round(HealthScoreOf(HealthInputsOf(m))), Hundredths(m.subscriberGrowth), Hundredths(m.viewGrowth),
      m.avgViewsPerVideo, Round(m.recentAvgViews), Round(m.uploadConsistency), Hundredths(m.engagementRate),
      Tenths(m.uploadsPerMonth), TopOf(Window(videos)))
  }

  // ---------------------------------------------------------------- calculateMockAnalytics

  /** The mock channel's canned analytics; recentAvgViews repeats avgViewsPerVideo, uploadsPerMonth defaults to 4 when 0. */
  function MockChannelAnalytics(mock: MockData.MockChannel): (a: ChannelAnalytics)
    ensures a.healthScore == mock.analytics.healthScore && a.uploadConsistency == mock.analytics.uploadConsistency
    ensures a.recentAvgViews == a.avgViewsPerVideo == mock.analytics.avgViewsPerVideo
    ensures a.uploadsPerMonth != 0.0 && a.topPerformingVideo.None?
  {
    var g := mock.analytics;
    ChannelAnalytics(
      g.healthScore, g.subscriberGrowth as real, g.viewGrowth as real, g.avgViewsPerVideo, g.avgViewsPerVideo,
      g.uploadConsistency, g.engagementRate, (if g.uploadsPerMonth != 0 then g.uploadsPerMonth else 4) as real, None)
  }

  /** For every generated channel the canned values pass through unchanged: the default of 4 is never used. */
  lemma MockAnalyticsCarryOver(identifier: string)
    ensures var g := MockData.MockChannelData(identifier).analytics;
      var a := MockChannelAnalytics(MockData.MockChannelData(identifier));
      && a.uploadsPerMonth == g.uploadsPerMonth as real
      && a.recentAvgViews == a.avgViewsPerVideo == g.avgViewsPerVideo
      && a.topPerformingVideo.None?
      && 50 <= a.healthScore <= 99 && 60 <= a.uploadConsistency <= 99
  {
    MockData.MockAnalyticsRanges(identifier);
  }

  // ---------------------------------------------------------------- generateComparison

  /** What generateComparison reads of an analysed channel. */
  datatype Contender = Contender(title: string, subscriberCount: nat, engagementRate: real, healthScore: int)

  /** An insight; the display text with toFixed(1) is not modelled, its numbers are. */
  datatype Insight =
    | SubscriberLead(leader: string, percentMore: real)
    | EngagementLead(leader: string, leaderRate: real, otherRate: real)

  datatype Winner = Channel1 | Channel2

  datatype Comparison = Comparison(winner: Winner, insights: seq<Insight>, recommendations: seq<string>)

  /** The subscriber counts can be compared without dividing by zero. */
  predicate Comparable(c1: Contender, c2: Contender)
  {
    c1.subscriberCount != c2.subscriberCount ==> c1.subscriberCount > 0 && c2.subscriberCount > 0
  }

  function SubscriberInsights(c1: Contender, c2: Contender): seq<Insight>
    requires Comparable(c1, c2)
  {
    if c1.subscriberCount > c2.subscriberCount then
      [SubscriberLead(c1.title, (c1.subscriberCount - c2.subscriberCount) as real / c2.subscriberCount as real * 100.0)]
    else if c2.subscriberCount > c1.subscriberCount then
      [SubscriberLead(c2.title, (c2.subscriberCount - c1.subscriberCount) as real / c1.subscriberCount as real * 100.0)]
    else []
  }

  function EngagementInsights(c1: Contender, c2: Contender): seq<Insight>
  {
    if c1.engagementRate > c2.engagementRate then [EngagementLead(c1.title, c1.engagementRate, c2.engagementRate)]
    else if c2.engagementRate > c1.engagementRate then [EngagementLead(c2.title, c2.engagementRate, c1.engagementRate)]
    else []
  }

  function ComparisonOf(c1: Contender, c2: Contender): Comparison
    requires Comparable(c1, c2)
  {
    Comparison(if c1.healthScore > c2.healthScore then Channel1 else Channel2,
               SubscriberInsights(c1, c2) + EngagementInsights(c1, c2), [])
  }

  /** generateComparison: insights pushed one comparison at a time. */
  method GenerateComparison(c1: Contender, c2: Contender) returns (cmp: Comparison)
    requires Comparable(c1, c2)
    ensures cmp == ComparisonOf(c1, c2)
  {
    var insights: seq<Insight> := [];
    var recommendations: seq<string> := [];
    if c1.subscriberCount > c2.subscriberCount {
      insights := insights + [SubscriberLead(c1.title, (c1.subscriberCount - c2.subscriberCount) as real / c2.subscriberCount as real * 100.0)];
    } else if c2.subscriberCount > c1.subscriberCount {
      insights := insights + [SubscriberLead(c2.title, (c2.subscriberCount - c1.subscriberCount) as real / c1.subscriberCount as real * 100.0)];
    }
    assert insights == SubscriberInsights(c1, c2);
    if c1.engagementRate > c2.engagementRate {
      insights := insights + [EngagementLead(c1.title, c1.engagementRate, c2.engagementRate)];
    } else if c2.engagementRate > c1.engagementRate {
      insights := insights + [EngagementLead(c2.title, c2.engagementRate, c1.engagementRate)];
    }
    cmp := Comparison(if c1.healthScore > c2.healthScore then Channel1 else Channel2, insights, recommendations);
  }

  /**
   * The first channel wins exactly when its health score is higher (ties go to the second); there
   * are at most two insights, none recommendations; the subscriber insight appears exactly when the
   * counts differ, names the larger channel and measures the gap against the smaller count.
   */
  lemma ComparisonShape(c1: Contender, c2: Contender)
    requires Comparable(c1, c2)
    ensures var cmp := ComparisonOf(c1, c2);
      && (cmp.winner == Channel1 <==> c1.healthScore > c2.healthScore)
      && |cmp.insights| <= 2 && cmp.recommendations == []
      && (c1.subscriberCount != c2.subscriberCount <==> |cmp.insights| >= 1 && cmp.insights[0].SubscriberLead?)
      && (c1.subscriberCount > c2.subscriberCount ==>
            cmp.insights[0] == SubscriberLead(c1.title, (c1.subscriberCount - c2.subscriberCount) as real / c2.subscriberCount as real * 100.0)
            && cmp.insights[0].percentMore > 0.0)
      && (c1.engagementRate != c2.engagementRate <==> |cmp.insights| >= 1 && cmp.insights[|cmp.insights| - 1].EngagementLead?)
  {
    if c1.subscriberCount > c2.subscriberCount {
      assert (c1.subscriberCount - c2.subscriberCount) as real > 0.0;
    }
  }

  /** Swapping the channels keeps the insights and, unless the scores tie, hands the win to the other side. */
  lemma ComparisonSwap(c1: Contender, c2: Contender)
    requires Comparable(c1, c2)
    ensures ComparisonOf(c2, c1).insights == ComparisonOf(c1, c2).insights
    ensures c1.healthScore != c2.healthScore ==> ComparisonOf(c2, c1).winner != ComparisonOf(c1, c2).winner
  {
  }
}
