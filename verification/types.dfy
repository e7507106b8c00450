/**
 * The dashboard's records: the `Video`, `Channel`, `Analytics` and
 * `UserProfile` shapes the hooks produce, plus the counts and token bundle
 * the upstream JSON carries.
 */
module YouTubeTypes {
  import opened Js
  import opened Decimal

  /**
   * A like, view or subscriber count as the upstream JSON carries it: the
   * provider sends decimal strings, the built-in sample data holds numbers.
   */
  datatype Count = Number(n: nat) | Text(s: string)

  /** `if (count)`: present, and neither `0` nor `""`. */
  predicate CountTruthy(c: Option<Count>) {
    match c
    case None => false
    case Some(Number(n)) => n != 0
    case Some(Text(s)) => s != ""
  }

  /** `parseInt(count.toString()) || 0`. */
  function CountValue(c: Count): (v: nat)
    ensures c.Number? ==> v == c.n
    ensures c.Text? ==> v == DigitsValue(c.s[..DigitPrefixLength(c.s)])
    ensures c.Text? && (c.s == [] || !IsDigit(c.s[0])) ==> v == 0
  {
    match c
    case Number(n) => ParseIntOfNatToString(n); ParseIntOrZero(NatToString(n))
    case Text(s) => ParseIntOrZero(s)
  }

  datatype Video = Video(
    id: Option<string>,
    title: string,
    channelTitle: string,
    publishedAt: string,
    viewCount: Count,
    likeCount: Count,
    thumbnailUrl: Option<string>,
    description: Option<string>)

  datatype Channel = Channel(
    id: Option<string>,
    title: string,
    thumbnailUrl: Option<string>,
    subscriberCount: Option<Count>)

  datatype Analytics = Analytics(
    totalVideos: nat,
    totalChannels: nat,
    totalWatchTime: nat,
    averageViews: nat,
    totalLikes: nat)

  datatype UserProfile = UserProfile(name: string, email: string, picture: string)

  /** The token bundle as JSON: each member may be missing. */
  datatype TokenJson = TokenJson(
    access_token: Option<string>,
    refresh_token: Option<string>,
    expires_in: Option<nat>,
    error: Option<string>)
}
