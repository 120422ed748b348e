# Chanlyze data layer in Dafny

This project models the quota-aware data layer of the Chanlyze YouTube channel analyser in Dafny and
proves properties of the model. It also models the analytics and the generated stand-in data that the
data layer feeds. The modules are:

- `Quota` (quota.dfy) covers the `QuotaManager` class.
  - It holds a daily ledger of API units (limit 10000). The ledger rolls over lazily after the next
    UTC midnight.
  - It holds a response cache with a time to live per entry.
  - Both records are fields of the class, and its methods reassign them. Specification functions
    (`Reported`, `Charged`, `Lookup`, `Purge`, …) say what each method reads, returns and stores.
- `YouTubeApi` (api.dfy) covers the API service.
  - `makeApiCall` picks one of three outcomes: a cache hit, a refusal with `QUOTA_EXCEEDED` when
    quota is short, or a live call that charges quota and caches the body.
  - HTTP failures are classified by status (400, 403 and 404 as in sections 15.5.1, 15.5.4 and
    15.5.5 of RFC 9110).
  - The endpoint methods fall back to generated data when quota runs out.
  - The mock responses carry ISO 8601 durations (section 4.4.3.2 of ISO 8601:2004, time
    designators only).
  - `ApiService` is a class over the shared `QuotaManager`. Each of its methods is proved equal to a
    specification function over the two stored records (`Call`, `ChannelByHandle`,
    `ChannelVideos`, …).
- `ChannelUrl` (channelurl.dfy) covers `extractChannelId`. The five regular expressions become
  hand-written scanners, tried in order; each finds the leftmost match with a greedy character run.
- `Analytics` (analytics.dfy) covers the channel and video processing, the derived metrics and the
  five-band health score. It also covers the canned analytics of generated channels and the
  two-channel comparison.
- `ChannelService` (service.dfy) covers `analyzeChannel` and `compareChannels`: the order of the
  calls, the "Channel not found" check, the quota flag, and the outer fallback to generated data.
- `MockData` (mockdata.dfy) covers the deterministic generated channel, built from a 32-bit rolling
  hash of the id, and the generated videos.
- `UsageTracker` (usage.dfy) covers the daily analysis allowance per subscription plan.
- `Text` and `JsMath` (text.dfy) model the JavaScript built-ins the code relies on: `parseInt`,
  `toString`, `split`, `join`, `includes`, `padStart`, `replace`, `Math.round`, `Math.floor` and
  truncation to whole milliseconds. `Wrappers` holds `Option` and `Result`.

The system's environment becomes parameters:
- The clock `Date.now()` is a parameter `now` (milliseconds).
- Every `Math.random()` draw is a real number in [0, 1).
- The remote API is a function `net` from a request to its outcome: a delivered body, or a failure
  with status, reason and message.
- The API configuration is a `Config` value.
- The outcome of the API-key check is an optional message.
- The six-month cutoff of the upload count is a timestamp parameter `cutoff`.

Three details of the code that are easy to miss:
- `setCache` defaults to a one-hour TTL (3600000 ms). Only `makeApiCall` passes 30 minutes.
- A cache entry is still served exactly `ttl` ms after it was stored. It is stale only when strictly
  more time has passed (`TtlExample` uses 999 and 1001 ms).
- With no stored ledger, `getQuotaUsage` writes nothing. It reports the reset time fixed when the
  manager was constructed. If that time has already passed, the first charge stores a ledger that
  the next read rolls over, so that charge is lost (`StaleInitialResetDropsCharge`).

## Model

| member | source | states |
|---|---|---|
| Text.NatToString | src/services/youtubeApiService.js:224-226 | `toString` of a count is a non-empty string of decimal digits, one digit below 10 and two below 100 |
| Text.DigitsValueOfNatToString | src/services/youtubeApiService.js:224-226 | reading the decimal text of n back gives n |
| Text.LeadingDigits | src/services/youtubeService.js:136-138 | `parseInt` reads the longest prefix of digits, stopping at the first non-digit |
| Text.LeadingDigitsOfDigits | src/services/youtubeService.js:136-138 | on a text made only of digits, `parseInt` reads the whole text |
| Text.ParseCountOfDigits | src/services/youtubeService.js:136-138 | `parseInt(x \|\| 0)` of a count written only in digits is its decimal value |
| Text.ParseCountOfNatToString | src/services/youtubeService.js:136-138 | a count written by `toString` is parsed back by `parseInt(x \|\| 0)` to the same number (round trip) |
| Text.Pad2 | src/utils/mockData.js:111 | `padStart(2, '0')` keeps texts of length ≥ 2 and left-fills shorter ones with '0' to length 2 |
| Text.Pad2KeepsValue | src/utils/mockData.js:111 | padding a digit text keeps it all digits and keeps its value |
| Text.Split | src/services/youtubeService.js:141 | `split(sep)` yields at least one part and no part contains the separator |
| Text.SplitOfPlainWord | src/services/youtubeService.js:141 | a text without the separator splits into itself |
| Text.SplitAtFirstSeparator | src/services/youtubeService.js:141 | splitting `p + sep + rest` gives `p` followed by the split of `rest` |
| Text.SplitJoin | src/services/youtubeApiService.js:230 | `join(' ')` followed by `split(' ')` gives the parts back when none contains a space |
| Text.ReplaceFirst | src/services/youtubeApiService.js:261 | `replace(c, d)` keeps the length and changes nothing when `c` is absent |
| Text.ReplaceFirstAfterPlain | src/services/youtubeApiService.js:261 | only the first occurrence of `c` is replaced |
| JsMath.RoundDiv | src/utils/mockData.js:65 | `Math.round(a / b)` is the nearest whole number to a/b, halves rounding up |
| JsMath.Round | src/services/youtubeService.js:215-222 | `Math.round(x)` lies within half a unit of x, halves rounding up |
| JsMath.Floor | src/utils/mockData.js:108-110 | `Math.floor(x)` is the greatest whole number not above x |
| JsMath.Trunc | src/utils/mockData.js:112 | a fractional time becomes whole milliseconds by truncation toward zero: for x ≥ 0 the result is ≥ 0 and r ≤ x < r + 1, for x < 0 it is ≤ 0 and x ≤ r < x + 1 |
| Quota.NextResetTime | src/services/quotaManager.js:11-17 | the next reset is strictly after now, at most one day later, and a multiple of 86400000 (a UTC midnight) |
| Quota.NextResetIsFirstMidnightAfter | src/services/quotaManager.js:11-17 | no UTC midnight lies strictly between now and the next reset |
| Quota.TimeUntilReset | src/services/quotaManager.js:68-72 | the time left is max(0, reported reset time − now): it is 0 or exactly the difference, and now plus it never falls short of the reset time |
| Quota.FormatDurationParts | src/services/quotaManager.js:75-80 | the text is "{hours}h {minutes}m", with t = hours·3600000 + minutes·60000 + rest, minutes < 60 and rest < 60000 |
| Quota.ReadIsIdempotent | src/services/quotaManager.js:20-35 | reading the ledger twice at one instant stores and reports what one read does |
| Quota.RolloverIsStrict | src/services/quotaManager.js:29-32 | at the reset instant the ledger is kept; one millisecond later it reads as used 0 with the next midnight, and that is stored |
| Quota.ChargesAccumulate | src/services/quotaManager.js:38-48 | successive charges before the reset time add up: used = reported used + sum of costs, and limit and reset time are unchanged |
| Quota.StaleInitialResetDropsCharge | src/services/quotaManager.js:22-24 | with no stored ledger and a constructor-time reset already past, the stored charge is read back as used 0 |
| Quota.CapacityBoundaryExample | src/services/quotaManager.js:51-54 | with 9999 of 10000 units used, a cost of 1 is available and a cost of 2 is not |
| Quota.Purge | src/services/quotaManager.js:114-129 | exactly the entries that are not stale remain, each unchanged |
| Quota.SetThenLookup | src/services/quotaManager.js:83-112 | after setCache(k, d, ttl) at t, getCache(k) returns d exactly while now − t ≤ ttl, and lookups of other keys are unchanged |
| Quota.SetOverwrites | src/services/quotaManager.js:83-93 | a second setCache on the same key replaces the first |
| Quota.ExpiryIsPermanent | src/services/quotaManager.js:105 | an entry that is stale stays stale later |
| Quota.TtlExample | src/services/quotaManager.js:83-112 | with a 1000 ms TTL the entry is served 999 ms after storing and gone 1001 ms after |
| Quota.LookupEvictsOnlyStaleKey | src/services/quotaManager.js:104-109 | getCache(k) deletes only key k, only when k is stale, and lookups of other keys are unaffected |
| Quota.PurgeKeepsLookups | src/services/quotaManager.js:114-129 | after clearExpiredCache every lookup at that instant answers as before, and nothing stale remains |
| Quota.PurgeIsIdempotent | src/services/quotaManager.js:114-129 | clearing twice at one instant is clearing once |
| Quota.QuotaManager.constructor | src/services/quotaManager.js:3-8 | the manager fixes its reset time to the next midnight after construction, over the stored records |
| Quota.QuotaManager.GetQuotaUsage | src/services/quotaManager.js:20-35 | returns the reported ledger (limit 10000) and stores the rolled-over ledger when past reset; an absent ledger is not created |
| Quota.QuotaManager.AddQuotaUsage | src/services/quotaManager.js:38-48 | stores and returns used = reported used + cost, with the reported limit and reset time |
| Quota.QuotaManager.HasQuotaAvailable | src/services/quotaManager.js:51-54 | true exactly when reported used + cost ≤ 10000; the cost defaults to 1 |
| Quota.QuotaManager.ResetQuota | src/services/quotaManager.js:57-65 | stores and returns used 0, limit 10000, reset at the next midnight |
| Quota.QuotaManager.GetTimeUntilReset | src/services/quotaManager.js:68-72 | returns max(0, reported reset time − now) |
| Quota.QuotaManager.FormatTimeUntilReset | src/services/quotaManager.js:75-80 | returns the hours-and-minutes text of the time left |
| Quota.QuotaManager.SetCache | src/services/quotaManager.js:83-93 | stores (data, now, ttl) under the key, and the key set is otherwise unchanged; the TTL defaults to one hour |
| Quota.QuotaManager.GetCache | src/services/quotaManager.js:95-112 | returns the entry's data while fresh; a stale entry is deleted and null is returned |
| Quota.QuotaManager.ClearExpiredCache | src/services/quotaManager.js:114-129 | removes exactly the stale entries, and writes only when one was removed |
| MockData.ToInt32 | src/utils/mockData.js:38-39 | `a & a` maps a number to the signed 32-bit value congruent to it modulo 2^32 |
| MockData.Hash | src/utils/mockData.js:37-40 | the hash is a signed 32-bit value |
| MockData.HashIsPolyModulo | src/utils/mockData.js:37-40 | the hash agrees modulo 2^32 with the unbounded polynomial Σ 31^k·code |
| MockData.AbsHash | src/utils/mockData.js:42 | `Math.abs(hash)` is at most 2^31 |
| MockData.EmptyIdHashesToZero | src/utils/mockData.js:37-40 | the empty id hashes to 0 |
| MockData.MockChannelData | src/utils/mockData.js:1-70 | the generated channel keeps the id and has positive subscriber and video counts (so no analytics step divides by zero) |
| MockData.MockChannelIdentity | src/utils/mockData.js:42-54 | the generated channel keeps the id; title and description share index \|h\| mod 10; the thumbnail uses \|h\| mod 5 |
| MockData.MockChannelCounts | src/utils/mockData.js:46-57 | subscribers in [5000, 99999], videos in [20, 199], views a whole multiple in [15, 49] of subscribers; the average is round(views/videos) |
| MockData.MockAnalyticsRanges | src/utils/mockData.js:61-69 | health in [50, 99], subscriber growth in [−10, 19], view growth in [−5, 19], consistency in [60, 99], uploads per month in [2, 7], engagement 1 + k/10 with k < 50 |
| MockData.MockChannelDependsOnlyOnHash | src/utils/mockData.js:1-70 | two ids whose hashes have the same absolute value get the same channel apart from the id |
| MockData.DrawnMinutes | src/utils/mockData.js:111 | the drawn minutes lie in [5, 19] |
| MockData.DrawnSeconds | src/utils/mockData.js:111 | the drawn seconds lie in [0, 59] |
| MockData.MockVideoData | src/utils/mockData.js:100-115 | exactly `count` videos, video i built from draw i |
| MockData.MockVideoViews | src/utils/mockData.js:101-108 | views lie in [5000, 49999] and the engagement rate in [0.02, 0.10) |
| MockData.MockVideoEngagement | src/utils/mockData.js:109-110 | likes and comments are the 80/20 floors of the drawn engagement; comments ≤ likes < 4000 |
| MockData.SplitFloors | src/utils/mockData.js:109-110 | the 20% floor never exceeds the 80% floor, and that stays below 4000 |
| MockData.MockVideoShape | src/utils/mockData.js:105-112 | id "video-(i+1)", title index i mod 15, thumbnail index i mod 5, duration "M:SS", upload date a midnight within the last 91 days |
| MockData.UploadDayBounds | src/utils/mockData.js:112 | a time up to 90 days back, cut to its day, is a midnight after now − 91 days and not after now |
| MockData.NatToStringInjective | src/utils/mockData.js:105 | different indices give different id texts |
| MockData.MockVideoIdsDistinct | src/utils/mockData.js:105 | the generated video ids are pairwise distinct |
| ChannelUrl.Run | src/services/youtubeApiService.js:100-108 | a greedy character-class run is the longest prefix within the class |
| ChannelUrl.ExtractChannelId | src/services/youtubeApiService.js:97-122 | the loop over the five patterns returns what the specification `Extract` does |
| ChannelUrl.SearchIsLeftmost | src/services/youtubeApiService.js:112 | a match is found at the leftmost position where the pattern matches |
| ChannelUrl.SearchNoneMeansNoMatch | src/services/youtubeApiService.js:112 | when the search fails, no later position matches |
| ChannelUrl.CaptureIsWellFormed | src/services/youtubeApiService.js:100-108 | every capture is non-empty and drawn from [A-Za-z0-9_.-] |
| ChannelUrl.FirstMatchIsSomeCapture | src/services/youtubeApiService.js:111-119 | the first match found is a capture of one of the patterns at some position |
| ChannelUrl.ExtractedIdIsWellFormed | src/services/youtubeApiService.js:111-119 | a returned id is non-empty, drawn from [A-Za-z0-9_.-], and its type is handle exactly when '@' occurs anywhere in the URL |
| ChannelUrl.NoPatternMatches | src/services/youtubeApiService.js:111-121 | when no pattern matches, the scan of the list finds nothing |
| ChannelUrl.RunStopsAtBoundary | src/services/youtubeApiService.js:100-108 | a run stops at the first character outside the class |
| ChannelUrl.MatchAfterPrefix | src/services/youtubeApiService.js:100-106 | the leftmost marker followed by a class run yields that run |
| ChannelUrl.CaptureAfterMarker | src/services/youtubeApiService.js:100-106 | at a marker's position the capture is the maximal run after it |
| ChannelUrl.NoSlashNoAtIsInvalid | src/services/youtubeApiService.js:99-121 | a URL with neither '/' nor '@' is rejected with "Invalid YouTube channel URL format" |
| ChannelUrl.HandleUrl | src/services/youtubeApiService.js:100 | the handle after the first '@' is extracted, as type handle |
| ChannelUrl.ChannelIdUrl | src/services/youtubeApiService.js:102 | the id after "/channel/" is extracted as type id when the URL has no '@' and no earlier "/c" |
| ChannelUrl.HandleUrlExample | src/services/youtubeApiService.js:97-119 | "https://youtube.com/@mkbhd" gives ("mkbhd", handle) |
| ChannelUrl.ChannelUrlExample | src/services/youtubeApiService.js:97-119 | "https://youtube.com/channel/UCabc123" gives ("UCabc123", id) |
| ChannelUrl.AtElsewhereStillHandle | src/services/youtubeApiService.js:108-116 | "x/@/abc" matches only the trailing segment, yet its type is handle because '@' occurs |
| YouTubeApi.HandleApiError | src/services/youtubeApiService.js:37-58 | every failure is classified into a non-empty message |
| YouTubeApi.QuotaSignal | src/services/youtubeApiService.js:37-58 | QUOTA_EXCEEDED results exactly for a 403 with reason quotaExceeded, or another status than 400/403/404 whose remote message is that text |
| YouTubeApi.CacheKey | src/services/youtubeApiService.js:62 | the cache key starts with "{endpoint}_" |
| YouTubeApi.Call | src/services/youtubeApiService.js:61-94 | makeApiCall keeps every stored ledger at the 10000 limit |
| YouTubeApi.CacheHitIsLocal | src/services/youtubeApiService.js:64-69 | a hit returns the cached body with fromCache true, changes no record, and does not depend on the network |
| YouTubeApi.RefusalIsLocal | src/services/youtubeApiService.js:71-75 | without quota the call throws QUOTA_EXCEEDED without the network; the reported usage is unchanged |
| YouTubeApi.LiveSuccessChargesAndCaches | src/services/youtubeApiService.js:77-87 | a delivered body is returned and cached for 1800000 ms, and the stored ledger is the reported one plus the cost |
| YouTubeApi.LiveFailureChargesNothing | src/services/youtubeApiService.js:88-93 | a failed call throws the classified message; usage and cache are unchanged for the key |
| YouTubeApi.CallKeepsUsageWithinLimit | src/services/youtubeApiService.js:71-87 | whatever the network answers, usage stays within the 10000 limit |
| YouTubeApi.RepeatWithinTtlHitsCache | src/services/youtubeApiService.js:62-85 | repeating a successful call within 30 minutes is answered from the cache |
| YouTubeApi.MockChannelResponse | src/services/youtubeApiService.js:206-236 | one item, flagged quotaExceeded, with the identifier as id and "@identifier" as custom URL |
| YouTubeApi.MockChannelResponseReadsBack | src/services/youtubeApiService.js:224-231 | the count texts parse back to the generated counts, and the keywords split back to the generated list |
| YouTubeApi.MockDurationIsIso | src/services/youtubeApiService.js:261 | "M:SS" becomes "PT{M}M{SS}S", which reads back as the same minutes and seconds |
| YouTubeApi.TenthFloor | src/services/youtubeApiService.js:258 | `Math.floor(likes * 0.1)` equals likes div 10 |
| YouTubeApi.MockVideosResponse | src/services/youtubeApiService.js:239-266 | exactly `count` items, flagged quotaExceeded |
| YouTubeApi.MockVideosResponseItem | src/services/youtubeApiService.js:243-263 | item i carries video i's id, views and likes, comments = likes div 10, and the ISO form of its duration |
| YouTubeApi.ForHandleAddsOneAt | src/services/youtubeApiService.js:129 | forHandle starts with exactly the one added '@', is added only when missing, and is idempotent |
| YouTubeApi.QuotaFallback | src/services/youtubeApiService.js:133-139 | the call's data when it succeeded, the fallback body when it threw QUOTA_EXCEEDED, and any other message rethrown unchanged; QUOTA_EXCEEDED is never rethrown |
| YouTubeApi.ChannelByHandle | src/services/youtubeApiService.js:125-141 | the handle lookup keeps the stored ledger at the 10000 limit; its answers are stated by ChannelByHandleFallback, RemoteQuotaErrorGivesMockChannel and ChannelByHandleOutOfQuota |
| YouTubeApi.ChannelById | src/services/youtubeApiService.js:144-160 | the id lookup keeps the stored ledger at the 10000 limit; its answers are stated by ChannelByIdFallback, RemoteQuotaErrorGivesMockChannelById and ChannelByIdOutOfQuota |
| YouTubeApi.ChannelSearch | src/services/youtubeApiService.js:269-286 | the search keeps the stored ledger at the 10000 limit; its answers are stated by ChannelSearchFallback and SearchOutOfQuota |
| YouTubeApi.VideoIdsReadBack | src/services/youtubeApiService.js:184-189 | the comma-joined id list sent to the videos endpoint splits back into the playlist's video ids, when there is at least one and none holds a comma |
| YouTubeApi.ChannelVideos | src/services/youtubeApiService.js:163-203 | the three-step listing keeps the stored ledger at the 10000 limit; its answers are stated by ChannelVideosQuotaAtEveryStep, ChannelVideosIsWholeOrMock and ChannelVideosOutOfQuota |
| YouTubeApi.ChannelVideosIsWholeOrMock | src/services/youtubeApiService.js:163-203 | the listing never throws QUOTA_EXCEEDED, and its result is either the whole mock response or the third call's body |
| YouTubeApi.ChannelVideosQuotaAtEveryStep | src/services/youtubeApiService.js:163-200 | a QUOTA_EXCEEDED from the uploads call, the playlist call or the videos call, local or remote, makes the whole result the mock videos, over the records that call left |
| YouTubeApi.ChannelByHandleFallback | src/services/youtubeApiService.js:125-141 | the handle lookup returns the call's data, the mock channel for the handle on QUOTA_EXCEEDED, or rethrows any other message; storage is what the call left |
| YouTubeApi.ChannelByIdFallback | src/services/youtubeApiService.js:144-160 | the id lookup returns the call's data, the mock channel for the id on QUOTA_EXCEEDED, or rethrows any other message; storage is what the call left |
| YouTubeApi.ChannelSearchFallback | src/services/youtubeApiService.js:269-286 | the search returns the call's data, an empty flagged result on QUOTA_EXCEEDED, or rethrows any other message; storage is what the call left |
| YouTubeApi.RemoteQuotaErrorGivesMockChannel | src/services/youtubeApiService.js:40-41 | a remote 403 with reason quotaExceeded on the handle lookup gives the mock channel, charges nothing and caches nothing |
| YouTubeApi.RemoteQuotaErrorGivesMockChannelById | src/services/youtubeApiService.js:40-41 | a remote 403 with reason quotaExceeded on the id lookup gives the mock channel for the id and charges nothing |
| YouTubeApi.ChannelByIdOutOfQuota | src/services/youtubeApiService.js:144-160 | out of quota: the mock channel for the id, nothing charged |
| YouTubeApi.ChannelVideosOutOfQuota | src/services/youtubeApiService.js:163-200 | out of quota at the first step: the mock videos, nothing charged |
| YouTubeApi.ChannelByHandleOutOfQuota | src/services/youtubeApiService.js:125-141 | out of quota: the one-item mock channel response flagged quotaExceeded, nothing charged |
| YouTubeApi.SearchOutOfQuota | src/services/youtubeApiService.js:269-286 | out of quota: no items, flagged quotaExceeded |
| YouTubeApi.QuotaReportPercentage | src/services/youtubeApiService.js:289-298 | the percentage is used/100, between 0 and 100 while usage is within the limit |
| YouTubeApi.ApiService.constructor | src/services/youtubeApiService.js:6-9 | the service runs over the given configuration and the shared quota manager |
| YouTubeApi.ApiService.MakeApiCall | src/services/youtubeApiService.js:61-94 | the result and both new records are those of `Call` on the old records |
| YouTubeApi.ApiService.GetChannelByHandle | src/services/youtubeApiService.js:125-141 | result and records are those of `ChannelByHandle` |
| YouTubeApi.ApiService.GetChannelById | src/services/youtubeApiService.js:144-160 | result and records are those of `ChannelById` |
| YouTubeApi.ApiService.GetChannelVideos | src/services/youtubeApiService.js:163-203 | result and records are those of `ChannelVideos` |
| YouTubeApi.ApiService.SearchChannels | src/services/youtubeApiService.js:269-286 | result and records are those of `ChannelSearch` |
| YouTubeApi.ApiService.GetQuotaUsage | src/services/youtubeApiService.js:289-298 | the report of the old ledger, and the ledger rolled over when past reset |
| YouTubeApi.ApiService.ResetQuota | src/services/youtubeApiService.js:301-303 | the stored ledger becomes the fresh one |
| Analytics.ProcessVideo | src/services/youtubeService.js:147-164 | a processed video keeps the id and duration, and each count written only in digits is read as its decimal value |
| Analytics.ProcessChannel | src/services/youtubeService.js:126-144 | one processed video per raw video |
| Analytics.ProcessMockChannel | src/services/youtubeService.js:126-144 | processing the mock channel response gives back the generated channel's fields and counts |
| Analytics.ProcessMockVideo | src/services/youtubeService.js:147-164 | processing mock video i gives back its id, counts, tags and duration |
| Analytics.SubscriberPoints | src/services/youtubeService.js:249-254 | the subscriber band gives 5 to 20 points |
| Analytics.EngagementPoints | src/services/youtubeService.js:256-261 | the engagement band gives 5 to 25 points |
| Analytics.ConsistencyPoints | src/services/youtubeService.js:263-264 | the consistency band gives at most 20 points, and at least 0 for non-negative consistency |
| Analytics.GrowthPoints | src/services/youtubeService.js:266-270 | the growth band gives 0 to 20 points, and at least 5 for non-negative growth |
| Analytics.VideoCountPoints | src/services/youtubeService.js:272-277 | the video-count band gives 2 to 15 points |
| Analytics.CalculateHealthScore | src/services/youtubeService.js:245-280 | the step-by-step score equals the capped sum of the five bands |
| Analytics.HealthScoreBounds | src/services/youtubeService.js:245-280 | with non-negative consistency the score lies in [12, 100], and is at least 17 when view growth is also non-negative |
| Analytics.HealthScoreMonotone | src/services/youtubeService.js:249-279 | the score does not decrease when any input grows |
| Analytics.HealthScoreExample | src/services/youtubeService.js:245-280 | 120000 subscribers, 6% engagement, consistency 100, growth 25 and 150 videos score exactly 100 |
| Analytics.Window | src/services/youtubeService.js:177 | the recent window is the first min(10, n) videos |
| Analytics.Engagement | src/services/youtubeService.js:182-187 | a video's engagement, (likes + comments)/views·100 or 0 without views, is never negative |
| Analytics.VideoEngagement | src/services/youtubeService.js:182-187 | engagement of a raw video is never negative |
| Analytics.SumEngagement | src/services/youtubeService.js:182-187 | the summed engagement is never negative |
| Analytics.UploadsAfter | src/services/youtubeService.js:194-196 | at most all the videos were uploaded after the cutoff |
| Analytics.UploadsAfterCountsFiltered | src/services/youtubeService.js:194-196 | the upload count equals the number of indices whose video was published strictly after the cutoff |
| Analytics.SubscriberGrowthIsInverseAge | src/services/youtubeService.js:201-202 | with subscribers and a positive age, subscriber growth is 100/age |
| Analytics.AvgViewsPerVideo | src/services/youtubeService.js:174 | the average views per video is never negative |
| Analytics.AvgViewsExample | src/services/youtubeService.js:174 | 1000000 views over 100 videos average 10000 |
| Analytics.SumViewsBound | src/services/youtubeService.js:178 | summed views are at most n times a bound on each |
| Analytics.MeanBound | src/services/youtubeService.js:179 | a mean of values bounded by b lies in [0, b] |
| Analytics.RecentAverageWithinWindow | src/services/youtubeService.js:177-179 | the recent average lies between 0 and the largest views in the window |
| Analytics.ConsistencyRange | src/services/youtubeService.js:194-198 | uploads per month is uploads/6 and consistency lies in [0, 100]; 12 uploads give 2.0 and 50 |
| Analytics.ViewGrowthOnlyWhenAhead | src/services/youtubeService.js:203 | view growth is non-zero exactly when the recent average beats the channel average, and never negative |
| Analytics.EngagementExamples | src/services/youtubeService.js:186 | a video without views contributes 0; 50 likes and 10 comments on 1000 views give 6 |
| Analytics.TopOf | src/services/youtubeService.js:223-225 | the top video, when there is one, is one of the videos |
| Analytics.TopOfNoneIffSilent | src/services/youtubeService.js:223-225 | there is no top video exactly when every video has 0 views |
| Analytics.TopViewsIsMax | src/services/youtubeService.js:223-225 | no video has more views than the top video, or more than 0 when there is none |
| Analytics.TopOfIsEarliestMax | src/services/youtubeService.js:223-225 | the top video has the largest views, positive, and is the earliest with them |
| Analytics.CalculateChannelAnalytics | src/services/youtubeService.js:167-227 | the shown health score is in [17, 100], consistency in [0, 100], the average is non-negative, and the top video is one of the first ten |
| Analytics.MockChannelAnalytics | src/services/youtubeService.js:230-242 | health score, consistency and average come from the generated analytics, recentAvgViews repeats the average, uploads per month is never 0, and there is no top video |
| Analytics.MockAnalyticsCarryOver | src/services/youtubeService.js:230-242 | the generated channel's uploads per month and average pass through (so the default of 4 is never used); recentAvgViews repeats the average; no top video; health in [50, 99] and consistency in [60, 99] |
| Analytics.GenerateComparison | src/services/youtubeService.js:283-306 | the insights pushed one by one equal the specification `ComparisonOf` |
| Analytics.ComparisonShape | src/services/youtubeService.js:283-306 | channel 1 wins exactly on a higher health score (ties go to channel 2); at most two insights; no recommendations; the subscriber insight appears exactly when the counts differ and is measured against the smaller count |
| Analytics.ComparisonSwap | src/services/youtubeService.js:283-306 | swapping the channels keeps the insights and, unless the scores tie, swaps the winner |
| ChannelService.RecoveryId | src/services/youtubeService.js:87 | the fallback id is non-empty and contains no '/' |
| ChannelService.RecoveryIdIsLastSegment | src/services/youtubeService.js:87 | the fallback id is the URL's last '/'-segment when that is non-empty |
| ChannelService.TrailingSlashRecovery | src/services/youtubeService.js:87 | a URL ending in '/' falls back to "mock-channel" |
| ChannelService.Recover | src/services/youtubeService.js:82-101 | the outer catch returns generated data exactly for messages containing "quota" or equal to QUOTA_EXCEEDED; other errors are rethrown non-empty and storage is left alone |
| ChannelService.Gather | src/services/youtubeService.js:18-48 | the inner try never throws QUOTA_EXCEEDED, so its mock branches are unreachable; the ledger stays at the limit |
| ChannelService.Analysis | src/services/youtubeService.js:7-104 | analyzeChannel never throws an empty message or one that mentions quota |
| ChannelService.InvalidUrlIsRejected | src/services/youtubeService.js:13 | a URL with neither '/' nor '@' throws the URL-format message, and storage is untouched |
| ChannelService.QuotaKeyMessageGivesMock | src/services/youtubeService.js:84-98 | a key check that throws a quota message gives the generated channel for the URL, flagged, with the quota report |
| ChannelService.ExhaustedQuotaAnalysesMockResponse | src/services/youtubeService.js:20-30 | after a refused handle lookup, a live report is the flagged analysis of the generated channel response |
| ChannelService.RefusedLookupGathersMock | src/services/youtubeService.js:20-27 | after a refused handle lookup, what the inner try gathers is the generated channel, flagged |
| ChannelService.LiveFlagCombinesResponses | src/services/youtubeService.js:27-38 | a live report's flag is the OR of the channel response's and the videos response's flags, over the raw channel and videos |
| ChannelService.Combine | src/services/youtubeService.js:106-123 | the comparison succeeds exactly when both analyses do; its flag is the OR of theirs; an error carries an analysis's message |
| ChannelService.Comparing | src/services/youtubeService.js:106-123 | comparing keeps the stored ledger at the limit |
| ChannelService.ComparisonFlagsFallbacks | src/services/youtubeService.js:117 | a comparison never throws an empty or quota message, and a generated channel on either side sets the flag |
| ChannelService.RecoverFromError | src/services/youtubeService.js:82-101 | result and records are those of `Recover` |
| ChannelService.AnalyzeChannel | src/services/youtubeService.js:7-104 | result and records are those of `Analysis` |
| ChannelService.GatherChannel | src/services/youtubeService.js:18-48 | result and records are those of `Gather`, with the quota flag kept in a local |
| ChannelService.CompareChannels | src/services/youtubeService.js:106-123 | result and records are those of `Comparing` |
| UsageTracker.PlanLimit | src/utils/usageTracker.js:2-5 | free allows 3, pro 20, and other plan names have no limit |
| UsageTracker.UserPlan | src/utils/usageTracker.js:7-9 | never empty; the stored plan when there is one, and "free" when there is no user or the user has no plan |
| UsageTracker.UsageToday | src/utils/usageTracker.js:11-22 | the stored count exactly when it was recorded for today; any other case reads as 0 |
| UsageTracker.CanAnalyze | src/utils/usageTracker.js:24-30 | a plan without a limit may never analyse, and a visitor without a user may |
| UsageTracker.Remaining | src/utils/usageTracker.js:32-38 | a remaining count exists exactly for plans with a limit and never exceeds it |
| UsageTracker.IncrementPayload | src/utils/usageTracker.js:40-53 | nothing is written exactly when there is no user |
| UsageTracker.CanAnalyzeIffRemaining | src/utils/usageTracker.js:24-38 | an analysis is allowed exactly when the remaining count is positive |
| UsageTracker.RemainingIsDifference | src/utils/usageTracker.js:32-38 | remaining = max(0, limit − today's count) |
| UsageTracker.NewDayStartsAtZero | src/utils/usageTracker.js:11-22 | a count recorded for another day reads as 0, so the whole allowance remains |
| UsageTracker.AnonymousIsFree | src/utils/usageTracker.js:7-9 | without a user: plan free, count 0, three remaining, nothing written |
| UsageTracker.IncrementCountsOne | src/utils/usageTracker.js:40-53 | the written metadata keeps plan and other fields, records today, counts one more, and the remaining count drops by one down to 0 |
| UsageTracker.IncrementTimes | src/utils/usageTracker.js:40-53 | repeated increments always leave a user record |
| UsageTracker.IncrementTimesCounts | src/utils/usageTracker.js:40-53 | n increments today raise the count by n and keep the plan |
| UsageTracker.AllowanceIsExhausted | src/utils/usageTracker.js:24-30 | after n more analyses, another is allowed exactly when count + n < limit |
| UsageTracker.FreeUserGetsThree | src/utils/usageTracker.js:2-30 | a new free user may run a third analysis on a day but not a fourth |

## Left out

- Network I/O is not modelled: the axios client and its interceptors (src/services/youtubeApiService.js:12-34), the API key they add, and the 30-second timeout. The remote API is the `net` parameter.
- Console logging is not modelled.
- `clearCache` (src/services/youtubeApiService.js:305-308) removes the whole cache record directly from storage. It is not modelled.
- The unused `quotaUsed` counter of the service is not modelled.
- src/config/youtube.js is not part of this model. Endpoints, quota costs and part lists are the `Config` parameter, and the outcome of `validateApiKey` is the `keyCheck` parameter.
- Storage holds JSON text. The model stores the records as values, so JSON parsing and its failures are not modelled.
- JSON escaping inside the cache key is not modelled. Strings are quoted as they are.
- `parseInt` skipping whitespace and reading a sign is not modelled. Count texts must be empty or start with a digit, which is the `CountText` precondition.
- Dates are kept as millisecond timestamps. `toISOString`, `toLocaleDateString` and `toDateString` texts are not produced.
  - The mock upload date is the midnight timestamp, not its "YYYY-MM-DD" text.
  - `today` in the usage tracker is an opaque day string.
- The six-month window uses `setMonth` calendar arithmetic in the source. It becomes the `cutoff` parameter.
- `toFixed` display strings are not modelled. That covers the comparison's insight texts and the mock video's `engagement` field; their numbers are kept.
- Each operation uses one `now`. The source reads `Date.now()` afresh at each step.
- A 403 response without an error body makes the source throw a TypeError. The model treats it as a 403 with no reason.
- Numbers are exact reals in the model, so the IEEE-754 rounding after each `/`, `*` and `Math.round(x * 100) / 100` of the source is not modelled. A result at a rounding half or at a health-score band threshold may therefore differ from the program's: in doubles `1.005 * 100` is 100.49999999999999, so the source rounds 1.005 to 1 where `Hundredths(1.005)` gives 1.01.
- Floating-point NaN and Infinity are not modelled. The inputs that would produce them are excluded by preconditions:
  - `Analyzable`: a zero subscriber count with a positive account age, or a zero channel average beaten by the recent average.
  - `Comparable`: a zero subscriber count in a comparison.
  - `FlowAnalyzable` and `PairAnalyzable` carry those conditions through the two entry points.
  - `UsageTracker.Remaining` returns None where the source computes NaN for a plan without a limit.
- `Promise.all` concurrency in `compareChannels` is not modelled. The two analyses run one after the other.
- ChannelService.Combine: when both analyses fail, the source reports whichever rejects first in time. The model reports the first channel's message.
- `incrementUsage` calls `user.update`, a foreign call whose failure makes it return false. Only the metadata it writes is modelled.
- MockData.Hash folds over Unicode scalar values, where the source folds over UTF-16 code units (`split('')` and `charCodeAt`). An id with a character outside the Basic Multilingual Plane therefore hashes differently in the model. Dafny strings carry no UTF-16 encoding.
- Quota.QuotaManager.GetCache: `getCache()` with no key returns the whole cache. That case is the `CacheOf` function, not a call of the method, and the method requires a non-empty key.
- ChannelService.ExhaustedQuotaAnalysesMockResponse states what a live report looks like after a refused lookup. It does not rule out the error a cached empty uploads response can cause.
