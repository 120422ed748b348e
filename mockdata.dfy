/**
 * Deterministic mock channels and randomised mock videos (src/utils/mockData.js).
 *
 * A channel is a function of its identifier alone, through a 32-bit rolling string hash.
 * Video records draw from Math.random(); each draw is a parameter in [0, 1).
 */
module MockData {
  import opened Text
  import opened JsMath

  const Two31: int := 0x8000_0000
  const Two32: int := 0x1_0000_0000
  const MsPerDay: int := 86400000
  /** Date.parse("2020-06-15"): midnight UTC of that day. */
  const MockCreatedAt: int := 1592179200000

  const ChannelNames: seq<string> := [
    "Tech Insights Pro", "Creative Studio Hub", "Gaming Masters", "Lifestyle Guru", "Educational Content",
    "DIY Workshop", "Fitness Journey", "Cooking Adventures", "Photography Tips", "Music Production"]

  const ChannelDescriptions: seq<string> := [
    "Latest technology reviews and tutorials for creators and tech enthusiasts",
    "Creative content and design inspiration for digital artists",
    "Gaming content, reviews, and live streams for hardcore gamers",
    "Lifestyle tips, wellness advice, and daily vlogs for modern living",
    "Educational content and learning resources for curious minds",
    "DIY projects, home improvement, and crafting tutorials",
    "Fitness tips, workout routines, and health transformation journeys",
    "Cooking recipes, food reviews, and culinary adventures",
    "Photography techniques, camera reviews, and visual storytelling",
    "Music production tutorials, beat making, and audio engineering"]

  const ChannelThumbnails: seq<string> := [
    "https://images.unsplash.com/photo-1560472354-b33ff0c44a43?w=150&h=150&fit=crop&crop=face",
    "https://images.unsplash.com/photo-1494790108755-2616b612b786?w=150&h=150&fit=crop&crop=face",
    "https://images.unsplash.com/photo-1507003211169-0a1dd7228f2d?w=150&h=150&fit=crop&crop=face",
    "https://images.unsplash.com/photo-1438761681033-6461ffad8d80?w=150&h=150&fit=crop&crop=face",
    "https://images.unsplash.com/photo-1472099645785-5658abf4ff4e?w=150&h=150&fit=crop&crop=face"]

  const MockKeywords: seq<string> := ["tutorial", "guide", "tips", "review", "how-to"]

  const VideoTitles: seq<string> := [
    "How to Optimize YouTube Thumbnails for More Clicks",
    "YouTube Algorithm Secrets Revealed",
    "Content Strategy That Actually Works",
    "Growing Your Channel from 0 to 100K Subscribers",
    "Best Video Editing Software for Beginners",
    "YouTube SEO Tips That Work in 2024",
    "Creating Viral Content: A Step-by-Step Guide",
    "Monetizing Your YouTube Channel Effectively",
    "Camera Setup for Professional YouTube Videos",
    "Building a Community Around Your Content",
    "Advanced Analytics: Understanding Your Audience",
    "Thumbnail Design Psychology and Best Practices",
    "Live Streaming Setup and Engagement Tips",
    "Collaboration Strategies for Channel Growth",
    "Copyright and Fair Use Guidelines for Creators"]

  const VideoThumbnails: seq<string> := [
    "https://images.unsplash.com/photo-1611162617474-5b21e879e113?w=300&h=200&fit=crop",
    "https://images.unsplash.com/photo-1611224923853-80b023f02d71?w=300&h=200&fit=crop",
    "https://images.unsplash.com/photo-1560472354-b33ff0c44a43?w=300&h=200&fit=crop",
    "https://images.unsplash.com/photo-1598300042247-d088f8ab3a91?w=300&h=200&fit=crop",
    "https://images.unsplash.com/photo-1516321318423-f06f85e504b3?w=300&h=200&fit=crop"]

  // ---------------------------------------------------------------- the hash

  /** ToInt32: the wrap-around of `a & a` and `<<`, into [-2^31, 2^31). */
  function ToInt32(x: int): (r: int)
    ensures -Two31 <= r < Two31
    ensures (x - r) % Two32 == 0
  {
    (x + Two31) % Two32 - Two31
  }

  /** The hash of generateMockChannelData: h := int32(31 * h + charCode) for each character, from 0. */
  function Hash(s: string): (h: int)
    ensures -Two31 <= h < Two31
    decreases |s|
  {
    if s == [] then 0 else ToInt32(31 * Hash(s[..|s| - 1]) + s[|s| - 1] as int)
  }

  /** The unreduced polynomial: the sum of code(s[i]) * 31^(|s|-1-i). */
  function Poly(s: string): int
    decreases |s|
  {
    if s == [] then 0 else 31 * Poly(s[..|s| - 1]) + s[|s| - 1] as int
  }

  /** One step of the hash keeps it congruent to the polynomial modulo 2^32. */
  lemma StepKeepsCongruence(h: int, q: int, c: int)
    requires (h - q) % Two32 == 0
    ensures (ToInt32(31 * h + c) - (31 * q + c)) % Two32 == 0
  {
    var k := (h - q) / Two32;
    assert h - q == k * Two32;
    var y := 31 * h + c;
    var j := (y - ToInt32(y)) / Two32;
    assert y - ToInt32(y) == j * Two32;
    assert ToInt32(y) - (31 * q + c) == (31 * k - j) * Two32;
  }

  /** The hash is the polynomial string hash reduced modulo 2^32 into the signed 32-bit range. */
  lemma {:induction false} HashIsPolyModulo(s: string)
    ensures (Hash(s) - Poly(s)) % Two32 == 0
    decreases |s|
  {
    if s != [] {
      var p, c := s[..|s| - 1], s[|s| - 1] as int;
      HashIsPolyModulo(p);
      assert Hash(s) == ToInt32(31 * Hash(p) + c);
      assert Poly(s) == 31 * Poly(p) + c;
      StepKeepsCongruence(Hash(p), Poly(p), c);
    }
  }

  /** Math.abs(hash). */
  function AbsHash(s: string): (a: nat)
    ensures a <= Two31
  {
    var h := Hash(s);
    if h < 0 then -h else h
  }

  lemma EmptyIdHashesToZero()
    ensures Hash("") == 0 && AbsHash("") == 0
  {
  }

  // ---------------------------------------------------------------- mock channel

  datatype MockAnalytics = MockAnalytics(
    healthScore: int, subscriberGrowth: int, viewGrowth: int, avgViewsPerVideo: int,
    uploadConsistency: int, engagementRate: real, uploadsPerMonth: int)

  datatype MockChannel = MockChannel(
    id: string, title: string, description: string, thumbnail: string,
    subscriberCount: nat, videoCount: nat, totalViews: nat, createdAt: int,
    country: string, keywords: seq<string>, analytics: MockAnalytics)

  /** generateMockChannelData(channelId, url): the url argument is never read, so it is not a parameter. */
  function MockChannelData(channelId: string): (m: MockChannel)
    ensures m.id == channelId && m.subscriberCount > 0 && m.videoCount > 0
  {
    var h := AbsHash(channelId);
    var index := h % |ChannelNames|;
    var thumbIndex := h % |ChannelThumbnails|;
    var subscriberBase := 5000 + h % 95000;
    var videoBase := 20 + h % 180;
    var viewsMultiplier := 15 + h % 35;
    MockChannel(
      channelId, ChannelNames[index], ChannelDescriptions[index], ChannelThumbnails[thumbIndex],
      subscriberBase, videoBase, subscriberBase * viewsMultiplier, MockCreatedAt,
      "United States", MockKeywords,
      MockAnalytics(
        50 + h % 50, -10 + h % 30, -5 + h % 25, RoundDiv(subscriberBase * viewsMultiplier, videoBase),
        60 + h % 40, 1.0 + (h % 50) as real / 10.0, 2 + h % 6))
  }

  /** The mock channel keeps the id, and its title and description share one index into the name lists. */
  lemma MockChannelIdentity(channelId: string)
    ensures var m := MockChannelData(channelId);
      && m.id == channelId
      && m.title == ChannelNames[AbsHash(channelId) % 10]
      && m.description == ChannelDescriptions[AbsHash(channelId) % 10]
      && m.thumbnail == ChannelThumbnails[AbsHash(channelId) % 5]
  {
  }

  /** Subscriber, video and view counts stay in the generator's ranges; views are a whole multiple of subscribers. */
  lemma MockChannelCounts(channelId: string)
    ensures var m := MockChannelData(channelId);
      && 5000 <= m.subscriberCount <= 99999
      && 20 <= m.videoCount <= 199
      && m.totalViews % m.subscriberCount == 0 && 15 <= m.totalViews / m.subscriberCount <= 49
      && m.analytics.avgViewsPerVideo == RoundDiv(m.totalViews, m.videoCount)
  {
    var h := AbsHash(channelId);
    ExactQuotient(5000 + h % 95000, 15 + h % 35);
  }

  lemma ExactQuotient(a: nat, b: nat)
    requires a > 0
    ensures (a * b) % a == 0 && (a * b) / a == b
  {
    var q, r := (a * b) / a, (a * b) % a;
    assert a * b == a * q + r && 0 <= r < a;
    assert a * (b - q) == r;
    assert b - q >= 1 ==> a * (b - q) >= a;
    assert b - q <= -1 ==> a * (b - q) <= -(a as int);
  }

  /** The canned analytics stay in their ranges; uploadsPerMonth is never 0, so the `|| 4` default is never taken. */
  lemma MockAnalyticsRanges(channelId: string)
    ensures var a := MockChannelData(channelId).analytics;
      && 50 <= a.healthScore <= 99
      && -10 <= a.subscriberGrowth <= 19
      && -5 <= a.viewGrowth <= 19
      && 60 <= a.uploadConsistency <= 99
      && 2 <= a.uploadsPerMonth <= 7
      && a.engagementRate == 1.0 + ((AbsHash(channelId) % 50) as real) / 10.0
      && 1.0 <= a.engagementRate <= 5.9
  {
  }

  /** Two identifiers with the same hash get the same channel apart from the id. */
  lemma MockChannelDependsOnlyOnHash(a: string, b: string)
    requires AbsHash(a) == AbsHash(b)
    ensures MockChannelData(a).(id := b) == MockChannelData(b)
  {
  }

  // ---------------------------------------------------------------- mock videos

  /** The Math.random() results one video consumes, in the order they are drawn. */
  datatype VideoDraw = VideoDraw(views: real, rate: real, minutes: real, seconds: real, age: real)

  predicate UnitInterval(x: real) { 0.0 <= x < 1.0 }

  predicate ValidDraw(d: VideoDraw)
  {
    UnitInterval(d.views) && UnitInterval(d.rate) && UnitInterval(d.minutes) && UnitInterval(d.seconds) && UnitInterval(d.age)
  }

  /** A mock video; `engagementRate` is the drawn rate (its toFixed(1) display string is not modelled). */
  datatype MockVideo = MockVideo(
    id: string, title: string, thumbnail: string, views: nat, likes: nat, comments: nat,
    duration: string, uploadDate: int, engagementRate: real)

  /** The "M:SS" duration text. */
  function DurationText(minutes: nat, seconds: nat): string
  {
    NatToString(minutes) + ":" + Pad2(NatToString(seconds))
  }

  function DrawnMinutes(d: VideoDraw): (m: nat)
    requires ValidDraw(d)
    ensures 5 <= m <= 19
  {
    Floor(d.minutes * 15.0) + 5
  }

  function DrawnSeconds(d: VideoDraw): (s: nat)
    requires ValidDraw(d)
    ensures s <= 59
  {
    Floor(d.seconds * 60.0)
  }

  /** Midnight UTC of the day a time falls in: what survives toISOString().split('T')[0]. */
  function DayStart(t: int): int
  {
    (t / MsPerDay) * MsPerDay
  }

  /** 5000 + Math.random() * 45000. */
  function BaseViews(d: VideoDraw): real { 5000.0 + d.views * 45000.0 }

  /** 0.02 + Math.random() * 0.08. */
  function DrawnRate(d: VideoDraw): real { 0.02 + d.rate * 0.08 }

  /** Math.floor(baseViews * rate * share): the likes (share 0.8) or comments (share 0.2) of a mock video. */
  function SharedFloor(baseViews: real, rate: real, share: real): int
  {
    Floor(baseViews * rate * share)
  }

  /** The record at position `index` of generateMockVideoData. */
  function MockVideoAt(index: nat, d: VideoDraw, now: int): MockVideo
    requires ValidDraw(d)
  {
    var baseViews := BaseViews(d);
    var rate := DrawnRate(d);
    MockVideo(
      "video-" + NatToString(index + 1),
      VideoTitles[index % |VideoTitles|],
      VideoThumbnails[index % |VideoThumbnails|],
      Floor(baseViews),
      SharedFloor(baseViews, rate, 0.8),
      SharedFloor(baseViews, rate, 0.2),
      DurationText(DrawnMinutes(d), DrawnSeconds(d)),
      DayStart(Trunc(now as real - d.age * 90.0 * 24.0 * 60.0 * 60.0 * 1000.0)),
      rate)
  }

  /** generateMockVideoData(count): one record per draw. */
  function MockVideoData(count: nat, draws: seq<VideoDraw>, now: int): (videos: seq<MockVideo>)
    requires |draws| == count && forall i :: 0 <= i < count ==> ValidDraw(draws[i])
    ensures |videos| == count
    ensures forall i :: 0 <= i < count ==> videos[i] == MockVideoAt(i, draws[i], now)
  {
    seq(count, i requires 0 <= i < count && ValidDraw(draws[i]) => MockVideoAt(i, draws[i], now))
  }

  lemma ProductBelow(x: real, y: real, xBound: real, yBound: real)
    requires 0.0 <= x < xBound && 0.0 <= y < yBound
    ensures x * y < xBound * yBound
  {
    assert x * y <= xBound * y;
  }

  /** Views lie in [5000, 49999] and the drawn engagement rate in [0.02, 0.10). */
  lemma MockVideoViews(index: nat, d: VideoDraw, now: int)
    requires ValidDraw(d)
    ensures var v := MockVideoAt(index, d, now);
      && 5000 <= v.views <= 49999
      && 0.02 <= v.engagementRate < 0.10
  {
  }

  /** Likes and comments split the drawn engagement 80/20, so comments never exceed likes and likes stay below 4000. */
  lemma MockVideoEngagement(index: nat, d: VideoDraw, now: int)
    requires ValidDraw(d)
    ensures var v := MockVideoAt(index, d, now);
      && v.likes == SharedFloor(BaseViews(d), DrawnRate(d), 0.8)
      && v.comments == SharedFloor(BaseViews(d), DrawnRate(d), 0.2)
      && v.comments <= v.likes < 4000
  {
    var baseViews, rate := BaseViews(d), DrawnRate(d);
    ProductBelow(baseViews, rate, 50000.0, 0.1);
    SplitFloors(baseViews, rate);
  }

  lemma SplitFloors(baseViews: real, rate: real)
    requires 0.0 <= baseViews * rate < 5000.0
    ensures SharedFloor(baseViews, rate, 0.2) <= SharedFloor(baseViews, rate, 0.8) < 4000
  {
    var product := baseViews * rate;
    assert baseViews * rate * 0.2 == product * 0.2;
    assert baseViews * rate * 0.8 == product * 0.8;
  }

  /** Titles and thumbnails cycle through their lists; the duration is "M:SS"; the upload day is a midnight within the last 90 days. */
  lemma MockVideoShape(index: nat, d: VideoDraw, now: int)
    requires ValidDraw(d)
    ensures var v := MockVideoAt(index, d, now);
      && v.id == "video-" + NatToString(index + 1)
      && v.title == VideoTitles[index % 15] && v.thumbnail == VideoThumbnails[index % 5]
      && v.duration == DurationText(DrawnMinutes(d), DrawnSeconds(d))
      && v.uploadDate % MsPerDay == 0
      && now - 91 * MsPerDay < v.uploadDate <= now
  {
    UploadDayBounds(now, d.age * 90.0 * 24.0 * 60.0 * 60.0 * 1000.0);
  }

  lemma UploadDayBounds(now: int, back: real)
    requires 0.0 <= back < 90.0 * MsPerDay as real
    ensures DayStart(Trunc(now as real - back)) % MsPerDay == 0
    ensures now - 91 * MsPerDay < DayStart(Trunc(now as real - back)) <= now
  {
    var t := Trunc(now as real - back);
    assert now - 90 * MsPerDay - 1 < t <= now;
    var q := t / MsPerDay;
    assert q * MsPerDay <= t < q * MsPerDay + MsPerDay;
  }

  /** NatToString is injective, so the generated ids are pairwise distinct. */
  lemma NatToStringInjective(a: nat, b: nat)
    requires NatToString(a) == NatToString(b)
    ensures a == b
  {
    DigitsValueOfNatToString(a);
    DigitsValueOfNatToString(b);
  }

  lemma MockVideoIdsDistinct(count: nat, draws: seq<VideoDraw>, now: int, i: nat, j: nat)
    requires |draws| == count && forall k :: 0 <= k < count ==> ValidDraw(draws[k])
    requires i < j < count
    ensures MockVideoData(count, draws, now)[i].id != MockVideoData(count, draws, now)[j].id
  {
    var vs := MockVideoData(count, draws, now);
    if vs[i].id == vs[j].id {
      var prefix := "video-";
      assert vs[i].id[|prefix|..] == NatToString(i + 1);
      assert vs[j].id[|prefix|..] == NatToString(j + 1);
      NatToStringInjective(i + 1, j + 1);
    }
  }
}
