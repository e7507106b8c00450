/**
 * The data hook: normalizes the activity feed into videos and the
 * subscription list into channels, substitutes three sample videos when the
 * feed yields none, and computes the summary analytics. `DataHook` holds the
 * hook's four pieces of state and runs the fetch sequence over them.
 */
module DataAggregator {
  import opened Js
  import opened Decimal
  import opened YouTubeTypes

  /**
   * One item of the activity feed. Each field is the value at the end of the
   * optional chain the hook reads (`item.snippet?.title` and so on): a
   * missing intermediate object makes the field absent.
   */
  datatype ActivityItem = ActivityItem(
    id: Option<string>,                  // item.id
    uploadVideoId: Option<string>,       // item.contentDetails.upload.videoId
    title: Option<string>,               // item.snippet.title
    channelTitle: Option<string>,        // item.snippet.channelTitle
    publishedAt: Option<string>,         // item.snippet.publishedAt
    viewCount: Option<Count>,            // item.statistics.viewCount
    likeCount: Option<Count>,            // item.statistics.likeCount
    highThumbnailUrl: Option<string>,    // item.snippet.thumbnails.high.url
    mediumThumbnailUrl: Option<string>,  // item.snippet.thumbnails.medium.url
    description: Option<string>)         // item.snippet.description

  /** The decoded activity-feed body; `items` may be missing (an error body has none). */
  datatype ActivityList = ActivityList(items: Option<seq<ActivityItem>>)

  /** One item of the subscription list, flattened the same way. */
  datatype SubscriptionItem = SubscriptionItem(
    id: Option<string>,                  // item.id
    resourceChannelId: Option<string>,   // item.snippet.resourceId.channelId
    title: Option<string>,               // item.snippet.title
    defaultThumbnailUrl: Option<string>, // item.snippet.thumbnails.default.url
    subscriberCount: Option<Count>)      // item.statistics.subscriberCount

  datatype SubscriptionList = SubscriptionList(items: Option<seq<SubscriptionItem>>)

  const UNKNOWN_TITLE := "Unknown Title"
  const UNKNOWN_CHANNEL := "Unknown Channel"
  /** Placeholder watch time per video: not a measured figure. */
  const WATCH_TIME_PER_VIDEO := 10

  function CountOrZero(c: Option<Count>): Count {
    if CountTruthy(c) then c.value else Number(0)
  }

  /** One activity item as a `Video`, each field with its fallback. */
  function NormalizeVideo(item: ActivityItem): (v: Video)
    ensures Truthy(item.id) ==> v.id == item.id
    ensures !Truthy(item.id) ==> v.id == item.uploadVideoId
    ensures Truthy(item.title) ==> v.title == item.title.value
    ensures !Truthy(item.title) ==> v.title == UNKNOWN_TITLE
    ensures Truthy(item.channelTitle) ==> v.channelTitle == item.channelTitle.value
    ensures !Truthy(item.channelTitle) ==> v.channelTitle == UNKNOWN_CHANNEL
    ensures Truthy(item.publishedAt) ==> v.publishedAt == item.publishedAt.value
    ensures !Truthy(item.publishedAt) ==> v.publishedAt == ""
    ensures CountTruthy(item.viewCount) ==> v.viewCount == item.viewCount.value
    ensures !CountTruthy(item.viewCount) ==> v.viewCount == Number(0)
    ensures CountTruthy(item.likeCount) ==> v.likeCount == item.likeCount.value
    ensures !CountTruthy(item.likeCount) ==> v.likeCount == Number(0)
    ensures Truthy(item.highThumbnailUrl) ==> v.thumbnailUrl == item.highThumbnailUrl
    ensures !Truthy(item.highThumbnailUrl) ==> v.thumbnailUrl == item.mediumThumbnailUrl
    ensures v.description == item.description
    ensures v.title != "" && v.channelTitle != ""
  {
    Video(
      id := Or(item.id, item.uploadVideoId),
      title := OrElse(item.title, UNKNOWN_TITLE),
      channelTitle := OrElse(item.channelTitle, UNKNOWN_CHANNEL),
      publishedAt := OrElse(item.publishedAt, ""),
      viewCount := CountOrZero(item.viewCount),
      likeCount := CountOrZero(item.likeCount),
      thumbnailUrl := Or(item.highThumbnailUrl, item.mediumThumbnailUrl),
      description := item.description)
  }

  /** `items.map(...)`: one video per item, in the same order. */
  function NormalizeVideos(items: seq<ActivityItem>): (vs: seq<Video>)
    ensures |vs| == |items|
    ensures forall i :: 0 <= i < |items| ==> vs[i] == NormalizeVideo(items[i])
  {
    if items == [] then [] else [NormalizeVideo(items[0])] + NormalizeVideos(items[1..])
  }

  /** `videosData.items?.map(...) || []`. */
  function FormattedVideos(list: ActivityList): (vs: seq<Video>)
    ensures list.items.None? ==> vs == []
    ensures list.items.Some? ==> |vs| == |list.items.value|
    ensures list.items.Some? ==>
      forall i :: 0 <= i < |vs| ==> vs[i] == NormalizeVideo(list.items.value[i])
  {
    match list.items
    case None => []
    case Some(items) => NormalizeVideos(items)
  }

  const SAMPLE1_THUMBNAIL := "https://via.placeholder.com/320x180/ff0000/ffffff?text=Sample+Video"
  const SAMPLE1_DESCRIPTION := "This is a sample video description to demonstrate the layout and design of the video cards."
  const SAMPLE2_THUMBNAIL := "https://via.placeholder.com/320x180/ff0000/ffffff?text=Demo+Video"
  const SAMPLE2_DESCRIPTION := "Here is another sample video with a longer description to show how the text truncation works in the card layout."
  const SAMPLE3_THUMBNAIL := "https://via.placeholder.com/320x180/ff0000/ffffff?text=Amazing+Video"
  const SAMPLE3_DESCRIPTION := "This demonstrates the full video card design with thumbnail, title, description, and view statistics."

  /** The three built-in sample videos; `now` is the ISO time stamp they are given. */
  function SampleVideos(now: string): (vs: seq<Video>)
    ensures |vs| == 3
  {
    [ Video(Some("sample1"), "Sample YouTube Video Title", "Sample Channel", now,
            Number(1500000), Number(45000), Some(SAMPLE1_THUMBNAIL), Some(SAMPLE1_DESCRIPTION)),
      Video(Some("sample2"), "Another Great Video Example", "Demo Channel", now,
            Number(890000), Number(23000), Some(SAMPLE2_THUMBNAIL), Some(SAMPLE2_DESCRIPTION)),
      Video(Some("sample3"), "Amazing Content You Should Watch", "Awesome Creator", now,
            Number(2500000), Number(67000), Some(SAMPLE3_THUMBNAIL), Some(SAMPLE3_DESCRIPTION)) ]
  }

  /** The videos the hook shows: the normalized feed, or the samples when it is empty. */
  function FinalVideos(list: ActivityList, now: string): (vs: seq<Video>)
    ensures |vs| >= 1
    ensures FormattedVideos(list) != [] ==> vs == FormattedVideos(list)
    ensures FormattedVideos(list) == [] <==> (list.items.None? || list.items.value == [])
    ensures FormattedVideos(list) == [] ==> vs == SampleVideos(now)
  {
    var formatted := FormattedVideos(list);
    if |formatted| > 0 then formatted else SampleVideos(now)
  }

  /** One subscription item as a `Channel`. */
  function NormalizeChannel(item: SubscriptionItem): (c: Channel)
    ensures Truthy(item.resourceChannelId) ==> c.id == item.resourceChannelId
    ensures !Truthy(item.resourceChannelId) ==> c.id == item.id
    ensures Truthy(item.title) ==> c.title == item.title.value
    ensures !Truthy(item.title) ==> c.title == UNKNOWN_CHANNEL
    ensures c.thumbnailUrl == item.defaultThumbnailUrl
    ensures c.subscriberCount == item.subscriberCount
    ensures c.title != ""
  {
    Channel(
      id := Or(item.resourceChannelId, item.id),
      title := OrElse(item.title, UNKNOWN_CHANNEL),
      thumbnailUrl := item.defaultThumbnailUrl,
      subscriberCount := item.subscriberCount)
  }

  function NormalizeChannels(items: seq<SubscriptionItem>): (cs: seq<Channel>)
    ensures |cs| == |items|
    ensures forall i :: 0 <= i < |items| ==> cs[i] == NormalizeChannel(items[i])
  {
    if items == [] then [] else [NormalizeChannel(items[0])] + NormalizeChannels(items[1..])
  }

  /** `channelsData.items?.map(...) || []`: one channel per item, in order. */
  function FormattedChannels(list: SubscriptionList): (cs: seq<Channel>)
    ensures list.items.None? ==> cs == []
    ensures list.items.Some? ==> |cs| == |list.items.value|
    ensures list.items.Some? ==>
      forall i :: 0 <= i < |cs| ==> cs[i] == NormalizeChannel(list.items.value[i])
  {
    match list.items
    case None => []
    case Some(items) => NormalizeChannels(items)
  }

  /** `vs.reduce((sum, v) => sum + f(v), 0)`, accumulating from the left. */
  function SumBy(vs: seq<Video>, f: Video -> nat): (s: nat)
    // a sum of naturals is zero exactly when every term is
    ensures s == 0 <==> forall i :: 0 <= i < |vs| ==> f(vs[i]) == 0
  {
    if vs == [] then 0 else SumBy(vs[..|vs| - 1], f) + f(vs[|vs| - 1])
  }

  function Likes(v: Video): nat {
    CountValue(v.likeCount)
  }

  function Views(v: Video): nat {
    CountValue(v.viewCount)
  }

  /** The sum over a concatenation is the sum of the sums. */
  lemma {:induction false} SumByAppend(a: seq<Video>, b: seq<Video>, f: Video -> nat)
    ensures SumBy(a + b, f) == SumBy(a, f) + SumBy(b, f)
  {
    if b != [] {
      assert (a + b)[..|a + b| - 1] == a + b[..|b| - 1];
      SumByAppend(a, b[..|b| - 1], f);
    } else {
      assert a + b == a;
    }
  }

  /** Every term of a sum is at most the sum. */
  lemma SumByBoundsEach(vs: seq<Video>, f: Video -> nat, i: nat)
    requires i < |vs|
    ensures f(vs[i]) <= SumBy(vs, f)
  {
    assert vs == vs[..i] + ([vs[i]] + vs[i + 1..]);
    SumByAppend(vs[..i], [vs[i]] + vs[i + 1..], f);
    SumByAppend([vs[i]], vs[i + 1..], f);
    assert SumBy([vs[i]], f) == SumBy([], f) + f(vs[i]);
  }

  /**
   * A video whose like count does not start with a digit parses to NaN,
   * so it adds nothing to the likes total wherever it stands in the list.
   */
  lemma UnparseableLikesAddNothing(a: seq<Video>, v: Video, b: seq<Video>, cs: seq<Channel>)
    requires v.likeCount.Text? && (v.likeCount.s == [] || !IsDigit(v.likeCount.s[0]))
    ensures ComputeAnalytics(a + [v] + b, cs).totalLikes == ComputeAnalytics(a + b, cs).totalLikes
  {
    SumByAppend(a + [v], b, Likes);
    SumByAppend(a, [v], Likes);
    SumByAppend(a, b, Likes);
    assert [v][..0] == [];
  }

  /**
   * `Math.round(p / q)` for naturals: the integer nearest to `p / q`,
   * a tie going up.
   */
  function RoundDiv(p: nat, q: nat): (r: nat)
    requires q > 0
    ensures 2 * q * r <= 2 * p + q < 2 * q * r + 2 * q
  {
    (2 * p + q) / (2 * q)
  }

  /** The analytics record computed from the final videos and the channels. */
  function ComputeAnalytics(vs: seq<Video>, cs: seq<Channel>): (a: Analytics)
    ensures a.totalVideos == |vs| && a.totalChannels == |cs|
    ensures a.totalWatchTime == WATCH_TIME_PER_VIDEO * a.totalVideos
    ensures a.totalLikes == SumBy(vs, Likes)
    ensures forall i :: 0 <= i < |vs| ==> Likes(vs[i]) <= a.totalLikes
    ensures var n := if |vs| > 1 then |vs| else 1;
      2 * n * a.averageViews <= 2 * SumBy(vs, Views) + n < 2 * n * a.averageViews + 2 * n
  {
    forall i | 0 <= i < |vs| ensures Likes(vs[i]) <= SumBy(vs, Likes) {
      SumByBoundsEach(vs, Likes, i);
    }
    Analytics(
      totalVideos := |vs|,
      totalChannels := |cs|,
      totalWatchTime := WATCH_TIME_PER_VIDEO * |vs|,
      averageViews := RoundDiv(SumBy(vs, Views), if |vs| > 1 then |vs| else 1),
      totalLikes := SumBy(vs, Likes))
  }

  /** Analytics of the hook's final videos always count at least one video. */
  lemma AnalyticsCountsSomeVideo(list: ActivityList, now: string, cs: seq<Channel>)
    ensures ComputeAnalytics(FinalVideos(list, now), cs).totalVideos >= 1
    ensures ComputeAnalytics(FinalVideos(list, now), cs).totalWatchTime >= WATCH_TIME_PER_VIDEO
  {
  }

  /** The likes of the three samples add up to 135000. */
  lemma SampleLikes(now: string)
    ensures SumBy(SampleVideos(now), Likes) == 135000
  {
    var vs := SampleVideos(now);
    assert vs[..2] == vs[..|vs| - 1] && vs[..2][..1] == vs[..1] && vs[..1][..0] == [];
    assert Likes(vs[0]) == 45000 && Likes(vs[1]) == 23000 && Likes(vs[2]) == 67000;
    assert SumBy(vs[..1], Likes) == 45000;
    assert SumBy(vs[..2], Likes) == 68000;
  }

  /** The views of the three samples add up to 4890000. */
  lemma SampleViews(now: string)
    ensures SumBy(SampleVideos(now), Views) == 4890000
  {
    var vs := SampleVideos(now);
    assert vs[..2] == vs[..|vs| - 1] && vs[..2][..1] == vs[..1] && vs[..1][..0] == [];
    assert Views(vs[0]) == 1500000 && Views(vs[1]) == 890000 && Views(vs[2]) == 2500000;
    assert SumBy(vs[..1], Views) == 1500000;
    assert SumBy(vs[..2], Views) == 2390000;
  }

  /** When the feed yields no videos, the analytics are those of the three samples. */
  lemma SampleAnalytics(list: ActivityList, now: string, cs: seq<Channel>)
    requires list.items.None? || list.items.value == []
    ensures ComputeAnalytics(FinalVideos(list, now), cs)
         == Analytics(3, |cs|, 30, 1630000, 135000)
  {
    var vs := SampleVideos(now);
    assert FinalVideos(list, now) == vs;
    SampleLikes(now);
    SampleAverageViews(now, cs);
  }

  /** The samples' average views: 4890000 / 3, exactly 1630000. */
  lemma SampleAverageViews(now: string, cs: seq<Channel>)
    ensures ComputeAnalytics(SampleVideos(now), cs).averageViews == 1630000
  {
    var vs := SampleVideos(now);
    assert ComputeAnalytics(vs, cs).averageViews == RoundDiv(SumBy(vs, Views), 3);
    SampleViews(now);
    assert RoundDiv(4890000, 3) == (2 * 4890000 + 3) / 6;
  }

  /**
   * The hook's state: the videos and channels on show, the last analytics
   * (absent until the first complete fetch) and the loading flag.
   */
  class DataHook {
    var recentVideos: seq<Video>
    var topChannels: seq<Channel>
    var analytics: Option<Analytics>
    var isLoading: bool

    /**
     * Analytics, once present, were computed from a non-empty video list:
     * they count at least one video, their watch time is the placeholder
     * ten per video, and the videos on show are never empty again.
     */
    ghost predicate Valid()
      reads this
    {
      analytics.Some? ==>
        recentVideos != [] &&
        analytics.value.totalVideos >= 1 &&
        analytics.value.totalWatchTime == WATCH_TIME_PER_VIDEO * analytics.value.totalVideos
    }

    constructor ()
      ensures Valid()
      ensures recentVideos == [] && topChannels == [] && analytics == None && !isLoading
    {
      recentVideos, topChannels, analytics, isLoading := [], [], None, false;
    }

    /**
     * `fetchUserData`: fetch the profile, then the activity feed (and show
     * its videos), then the subscriptions (and show the channels and the
     * analytics). A fetch that throws skips everything after it; the
     * loading flag is cleared whatever happens.
     */
    method FetchUserData(profile: Reply<UserProfile>, videos: Reply<ActivityList>,
                         channels: Reply<SubscriptionList>, now: string)
      requires Valid()
      modifies this
      ensures Valid()
      ensures !isLoading
      ensures profile.Threw? || videos.Threw? ==>
        recentVideos == old(recentVideos) && topChannels == old(topChannels) &&
        analytics == old(analytics)
      ensures profile.Replied? && videos.Replied? ==>
        recentVideos == FinalVideos(videos.body, now)
      ensures profile.Replied? && videos.Replied? && channels.Threw? ==>
        topChannels == old(topChannels) && analytics == old(analytics)
      ensures profile.Replied? && videos.Replied? && channels.Replied? ==>
        topChannels == FormattedChannels(channels.body) &&
        analytics == Some(ComputeAnalytics(recentVideos, topChannels))
    {
      isLoading := true;
      if profile.Replied? {
        if videos.Replied? {
          var finalVideos := FinalVideos(videos.body, now);
          recentVideos := finalVideos;
          if channels.Replied? {
            var formattedChannels := FormattedChannels(channels.body);
            topChannels := formattedChannels;
            analytics := Some(ComputeAnalytics(finalVideos, formattedChannels));
          }
        }
      }
      isLoading := false;
    }

    /** The effect on a new access token: a fetch runs only for a non-empty token. */
    method OnAccessToken(accessToken: Option<string>, profile: Reply<UserProfile>,
                         videos: Reply<ActivityList>, channels: Reply<SubscriptionList>, now: string)
      requires Valid()
      modifies this
      ensures Valid()
      ensures !Truthy(accessToken) ==>
        recentVideos == old(recentVideos) && topChannels == old(topChannels) &&
        analytics == old(analytics) && isLoading == old(isLoading)
      ensures Truthy(accessToken) ==> !isLoading
      ensures Truthy(accessToken) && (profile.Threw? || videos.Threw?) ==>
        recentVideos == old(recentVideos) && topChannels == old(topChannels) &&
        analytics == old(analytics)
      ensures Truthy(accessToken) && profile.Replied? && videos.Replied? ==>
        recentVideos == FinalVideos(videos.body, now)
      ensures Truthy(accessToken) && profile.Replied? && videos.Replied? && channels.Threw? ==>
        topChannels == old(topChannels) && analytics == old(analytics)
      ensures Truthy(accessToken) && profile.Replied? && videos.Replied? && channels.Replied? ==>
        topChannels == FormattedChannels(channels.body) &&
        analytics == Some(ComputeAnalytics(recentVideos, topChannels))
    {
      if Truthy(accessToken) {
        FetchUserData(profile, videos, channels, now);
      }
    }
  }
}
