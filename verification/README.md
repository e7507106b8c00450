# YouTube analytics dashboard — a Dafny model of its logic

The dashboard signs a user in with the video platform's OAuth
authorization-code grant, fetches the user's activity feed and
subscriptions through its own API route, normalizes them into `Video` and
`Channel` records, and shows summary analytics. This project models the
parts of it that decide something:

- **Data aggregator** (`src/hooks/useYouTubeData.ts`, module `DataAggregator`).
  It normalizes feed items into videos and subscription items into channels, with per-field fallbacks.
  When the feed yields no video, it substitutes three sample videos.
  It then computes the analytics record.
  The class `DataHook` holds the hook's four state fields and runs the `fetchUserData` sequence over them.
- **OAuth callback** (`src/app/api/youtube/callback/route.ts`, module `OAuthCallback`).
  It maps the redirect parameters and the outcome of the code exchange to one of four redirects.
  Those are the authorization response and the error response of section 4.1.2 of RFC 6749.
- **Session state** (`src/hooks/useYouTubeAuth.ts`, module `AuthSession`).
  The class `Session` holds the four state fields and the browser location.
  Its methods are the URL effect, login, logout and the setters the hook exposes.
  Every method preserves "authenticated exactly when a non-empty token is held".
  Module `SignInFlow` composes the callback's redirect with this effect.
- **API route** (`src/app/api/spotify/route.ts`, module `ApiDispatch`).
  It is a function from the query, the configuration and the upstream answers to a response and the upstream request made.
  It covers the parameter guards, the consent URL (section 4.1.1 of RFC 6749), the form-encoded token request (section 4.1.3 of RFC 6749), proxying, and the generic 500.
- **`formatDuration`** (`src/components/TrackCard.tsx`, module `TrackCard`). This is the `m:ss` formatter.

Supporting modules:

- `Js`: absent values, the truthiness of strings, `${undefined}` coercion, and the outcome of `fetch` plus `.json()`.
- `Strings`: split and join.
- `Decimal`: `toString` of naturals and `parseInt(...) || 0`.
- `QueryString`: `URLSearchParams.get`, plus rendering and parsing `k=v&k=v`.
- `YouTubeTypes`: the records of `src/types/youtube.ts`.

Network answers are parameters (`Reply<T>`: it threw, or it replied with an `ok` flag and a body).
Each handler returns the upstream request it would make, so "rejected before any upstream call" is a statement about its result.
`encodeURIComponent` is a parameter `encode`, the ISO clock reading for the sample videos is a parameter `now`, and `process.env` is a `Config` value.

In JavaScript, `||` treats `""`, `0` and absent values alike.
So `Option<string>` values go through `Truthy`, which is false for `None` and for `Some("")`.
Counts go through `CountTruthy`, which is also false for the number `0`.

Three behaviours of the code are worth stating plainly:

- The hook stores the new videos before it fetches the channels. A failed channel fetch therefore leaves the new videos beside the old channels and analytics (`DataHook.FetchUserData`).
- An `error` parameter in the URL only records the error. `isAuthenticated` and the token stay as they were (`Session.ApplySearchParams`).
- When the token endpoint rejects the code, the route answers the generic 500. The provider's message is thrown and never reaches the response (`ApiDispatch.HandleTokenExchange`).
- Logout clears only the auth hook's four fields. The data hook keeps the last videos, channels and analytics, because its effect does nothing when the token becomes absent (`Session.HandleLogout`, `DataHook.OnAccessToken`).
- An exchange that succeeds but whose reply has no `access_token` redirects with `access_token=undefined`. The auth hook then signs the user in with the text `"undefined"` as the token (`OAuthCallback.HandleCallback`, `SignInFlow.LandAfterCallback`).

## Model

| member | source | states |
|---|---|---|
| `DataAggregator.NormalizeVideo` | src/hooks/useYouTubeData.ts:60-69 | id is `item.id` when non-empty, else the upload's video id. Title, channel title, publishedAt and counts fall back to `'Unknown Title'`, `'Unknown Channel'`, `''` and `0`. The thumbnail prefers `high` over `medium`. Titles are never empty. |
| `DataAggregator.NormalizeVideos` | src/hooks/useYouTubeData.ts:60-69 | One video per feed item, in the same order. |
| `DataAggregator.FormattedVideos` | src/hooks/useYouTubeData.ts:60-69 | A missing `items` gives no videos; otherwise one normalized video per item, in order. |
| `DataAggregator.SampleVideos` | src/hooks/useYouTubeData.ts:4-35 | Exactly three sample videos. |
| `DataAggregator.FinalVideos` | src/hooks/useYouTubeData.ts:72 | Never empty. These are the normalized videos when there are any. Otherwise they are the three samples, which happens exactly when `items` is missing or empty. |
| `DataAggregator.NormalizeChannel` | src/hooks/useYouTubeData.ts:79-84 | id is the subscribed channel's id when non-empty, else `item.id`. Title falls back to `'Unknown Channel'` and is never empty. Thumbnail and subscriber count are passed through. |
| `DataAggregator.NormalizeChannels` | src/hooks/useYouTubeData.ts:79-84 | One channel per subscription item, in order. |
| `DataAggregator.FormattedChannels` | src/hooks/useYouTubeData.ts:79-84 | A missing `items` gives no channels; otherwise one normalized channel per item, in order. |
| `YouTubeTypes.CountValue` | src/hooks/useYouTubeData.ts:89 | `parseInt(count.toString()) \|\| 0` of a numeric count is the number itself. A text count gives the value of its leading digits, and 0 when no digit leads. |
| `Decimal.ParseIntOrZero` | src/hooks/useYouTubeData.ts:89 | The lenient parse gives the value of the longest digit prefix, so `"12abc"` gives 12. It gives the whole value on an all-digit string, and 0 (NaN is falsy) when no digit leads. |
| `DataAggregator.UnparseableLikesAddNothing` | src/hooks/useYouTubeData.ts:89 | A video whose like count has no leading digit leaves the likes total unchanged, wherever it stands in the list. |
| `Decimal.DigitsValueOfNatToString` | src/app/api/youtube/callback/route.ts:34 | Reading back the decimal text that `toString` gives a natural number yields that number. |
| `Decimal.ParseIntOfNatToString` | src/hooks/useYouTubeData.ts:89 | `parseInt(n.toString()) \|\| 0` equals `n`. |
| `DataAggregator.SumBy` | src/hooks/useYouTubeData.ts:89 | The left-to-right `reduce` sum of naturals is zero exactly when every term is zero. |
| `DataAggregator.SumByAppend` | src/hooks/useYouTubeData.ts:89 | The left-to-right `reduce` sum over a concatenation is the sum of the two sums. |
| `DataAggregator.SumByBoundsEach` | src/hooks/useYouTubeData.ts:89 | Each video's term is at most the reduced sum. |
| `DataAggregator.RoundDiv` | src/hooks/useYouTubeData.ts:95 | `Math.round(p / q)` is the integer `r` with `r - 1/2 <= p/q < r + 1/2` (ties round up). |
| `DataAggregator.ComputeAnalytics` | src/hooks/useYouTubeData.ts:88-97 | Counts of videos and channels. Watch time is the placeholder `10 * videos`. totalLikes is the sum of like counts and bounds each one. averageViews is the view sum over `max(n, 1)`, rounded half up. |
| `DataAggregator.AnalyticsCountsSomeVideo` | src/hooks/useYouTubeData.ts:91-94 | Because of the sample fallback, the analytics always count at least one video and at least 10 of watch time. |
| `DataAggregator.SampleLikes` | src/hooks/useYouTubeData.ts:4-35 | The samples' likes add up to 135000. |
| `DataAggregator.SampleViews` | src/hooks/useYouTubeData.ts:4-35 | The samples' views add up to 4890000. |
| `DataAggregator.SampleAnalytics` | src/hooks/useYouTubeData.ts:89-97 | With an empty or missing feed, the analytics are 3 videos, 30 watch time, 1630000 average views and 135000 likes. |
| `DataAggregator.SampleAverageViews` | src/hooks/useYouTubeData.ts:95 | The samples' average views round to 1630000. |
| `DataAggregator.DataHook.constructor` | src/hooks/useYouTubeData.ts:38-41 | Starts with no videos, no channels, no analytics, and not loading. |
| `DataAggregator.DataHook.FetchUserData` | src/hooks/useYouTubeData.ts:49-105 | Loading is off afterwards whatever happens. A throw before the videos arrive changes nothing. Once they arrive, the final videos are shown. A throw at the channel fetch keeps the old channels and analytics. Otherwise channels and analytics are replaced, with the analytics computed from the new lists. The analytics invariant is kept. |
| `DataAggregator.DataHook.OnAccessToken` | src/hooks/useYouTubeData.ts:43-47 | An absent or empty token fetches nothing and changes nothing. A non-empty one runs the fetch, with each of its outcomes: loading is off afterwards. A throw before the videos arrive keeps the old state. A throw at the channel fetch keeps the old channels and analytics beside the new videos. Full success replaces all three. |
| `OAuthCallback.TokenQuery` | src/app/api/youtube/callback/route.ts:29-34 | The success query has `access_token` and `expires_in`. It has `refresh_token` only when that is non-empty, and it never has `error`. There is none (the code throws) when `expires_in` is missing. |
| `OAuthCallback.HandleCallback` | src/app/api/youtube/callback/route.ts:3-41 | An `error` parameter gives `/?error=oauth_error` with no exchange, code or not. No code gives `/?error=no_code` with no exchange. Otherwise the code is exchanged. A throw, a non-ok reply or a missing `expires_in` gives `/?error=auth_failed`. Success gives `/` with the token parameters. Every redirect carries exactly one of `error` and `access_token`. |
| `OAuthCallback.StateIgnored` | src/app/api/youtube/callback/route.ts:6 | The `state` parameter never changes the outcome: not its value, not where it stands, and not whether it is present. |
| `QueryString.Get` | src/app/api/youtube/callback/route.ts:5-7 | `searchParams.get` is absent exactly when no pair has the name. Otherwise it is the value of the first pair with that name. |
| `QueryString.GetIgnoresInserted` | src/app/api/youtube/callback/route.ts:5-7 | Inserting a parameter with another name anywhere never affects `get` for a given name. |
| `QueryString.GetIgnoresOtherName` | src/app/api/youtube/callback/route.ts:5-7 | A parameter with another name never affects `get` for a given name, wherever it is and whatever its value. |
| `AuthSession.Session.constructor` | src/hooks/useYouTubeAuth.ts:7-10 | Starts unauthenticated, with no profile, no token and no error. |
| `AuthSession.Session.ApplySearchParams` | src/hooks/useYouTubeAuth.ts:12-25 | A non-empty `error` parameter sets `error` and leaves the auth fields alone. Otherwise a non-empty `access_token` sets the token and `isAuthenticated`. With neither, nothing changes. The invariant is kept. |
| `AuthSession.Session.HandleLogin` | src/hooks/useYouTubeAuth.ts:27-41 | A throw or a non-ok reply sets `error = 'Failed to start authentication'` and nothing else. Otherwise it navigates to the returned `authUrl` and changes no state. |
| `AuthSession.Session.HandleLogout` | src/hooks/useYouTubeAuth.ts:43-49 | Clears to false/none/none/none and strips the query while staying on the same path. |
| `AuthSession.Session.SetUserProfile` | src/hooks/useYouTubeAuth.ts:8 | Replaces the profile only. The invariant is kept. |
| `AuthSession.Session.SetError` | src/hooks/useYouTubeAuth.ts:10 | Replaces the error only. The invariant is kept. |
| `SignInFlow.LandAfterCallback` | src/hooks/useYouTubeAuth.ts:12-25 | After the callback's redirect, the session is authenticated exactly when the exchange succeeded with a non-empty token, and it holds that token. The refused, code-less and failed cases show `oauth_error`, `no_code` and `auth_failed`. |
| `ApiDispatch.RedirectUri` | src/app/api/spotify/route.ts:6 | The configured redirect URI when non-empty, else `http://localhost:3000/api/spotify/callback`. |
| `ApiDispatch.ScopeParamLists` | src/app/api/spotify/route.ts:15-25 | The scope value is the space-delimited list of the four scopes, in order (section 3.3 of RFC 6749). |
| `Strings.SplitJoin` | src/app/api/spotify/route.ts:25 | `join` followed by `split` on the same separator gives the parts back when none holds the separator. |
| `ApiDispatch.AuthParams` | src/app/api/spotify/route.ts:22-28 | The consent parameters give `client_id`, the encoded `redirect_uri`, the encoded `scope` and `response_type=code`. |
| `ApiDispatch.AuthUrl` | src/app/api/spotify/route.ts:22-28 | The consent URL is the authorization endpoint, `?`, and the consent parameters rendered as `k=v&...`. |
| `ApiDispatch.AuthUrlIsRendered` | src/app/api/spotify/route.ts:22-28 | The concatenated consent URL is the endpoint, `?`, then the six parameters rendered as `k=v&...`. |
| `ApiDispatch.AuthUrlFromCarriesParams` | src/app/api/spotify/route.ts:22-28 | Parsing the query back out of the concatenated URL gives the six parameters in order. |
| `ApiDispatch.AuthUrlCarriesParams` | src/app/api/spotify/route.ts:22-30 | The query of the returned `authUrl` is exactly `client_id`, `redirect_uri`, `scope`, `response_type=code`, `access_type=offline`, `prompt=consent`, in order. This holds when neither the client id nor the encoded values hold `&`. |
| `QueryString.ParseRender` | src/app/api/spotify/route.ts:22-28 | Parsing a rendered query gives back the same pairs in the same order. |
| `ApiDispatch.TokenForm` | src/app/api/spotify/route.ts:44-50 | The form body has exactly five pairs. They are `grant_type=authorization_code`, the code, the redirect URI, the client id and the client secret (the client credentials of section 4.1.3 and 2.3.1 of RFC 6749). |
| `ApiDispatch.HandleTokenExchange` | src/app/api/spotify/route.ts:32-63 | Without a code, the answer is 400 `No authorization code provided` and no request is made. Otherwise it POSTs the form to the token endpoint. A throw or a non-ok reply gives the generic 500. Success gives exactly `{access_token, refresh_token, expires_in}` from the reply. |
| `ApiDispatch.DataUrl` | src/app/api/spotify/route.ts:71-126 | `profile` goes to the user-info endpoint with no API key. `recent-videos`, `top-channels` and `liked-videos` go to the activities, subscriptions and rated-videos list calls, each ending in `key=` and the API key. |
| `ApiDispatch.DataUrlHost` | src/app/api/spotify/route.ts:71-126 | Every data URL is on the provider's API host. Only the profile URL has no query string, so the API key is sent to the three data API calls only. |
| `ApiDispatch.HandleDataAction` | src/app/api/spotify/route.ts:65-135 | Without a token, the answer is 400 `No access token provided` and no request is made. Otherwise it sends a bearer GET to the action's endpoint. The upstream JSON is forwarded unchanged under 200, whatever the upstream status. A throw gives the generic 500. |
| `ApiDispatch.Dispatch` | src/app/api/spotify/route.ts:8-144 | `auth` returns the consent URL with no upstream request. `callback` and the four data actions are routed to their handlers. A missing or unknown action gives 400 `Invalid action`. |
| `ApiDispatch.DispatchRejectsBeforeUpstream` | src/app/api/spotify/route.ts:8-144 | The answer is 400 exactly when no upstream request was made and the action is not `auth`: every rejection comes before any upstream request. |
| `ApiDispatch.DispatchFailsGenerically` | src/app/api/spotify/route.ts:140-143 | After an upstream request the status is 200 or 500, and every 500 has the fixed body `Internal server error`, never upstream text. |
| `TrackCard.PadStart` | src/components/TrackCard.tsx:22 | `padStart` keeps the string as its suffix and fills in front up to the width. |
| `TrackCard.PaddedSeconds` | src/components/TrackCard.tsx:21-22 | The seconds field is exactly two digits and denotes the remaining seconds. |
| `TrackCard.FormatDuration` | src/components/TrackCard.tsx:19-23 | Minutes digits denoting `seconds div 60`, `:`, then two digits denoting `seconds mod 60 < 60`. |
| `TrackCard.FormatDurationRoundTrip` | src/components/TrackCard.tsx:19-23 | Reading `m:ss` back as `60*m + ss` recovers the input. |
| `TrackCard.FormatDurationExample` | src/components/TrackCard.tsx:19-23 | 65 seconds are shown as `1:05`. |

## Left out

- Network I/O, JSON parsing, `console` logging, `window.location`, `window.history` and `process.env` are left out. Their results are parameters or fields, as described above.
- React effect scheduling is left out. So is the window in which `isLoading` is true between awaits: `FetchUserData` states only the state after the sequence. The race where a late response lands after logout is left out too, since the code has no handling for it.
- The profile fetch that `src/app/page.tsx` fires at render time is not part of this model. That file and all JSX rendering are presentational.
- `formatNumber` and `formatDuration` from `src/utils/formatters` are not part of this model.
- `YouTubeTypes.CountValue`: leading white space, signs and radix prefixes in `parseInt` are not modelled. A count is a natural number or a string; a negative or fractional count is not modelled. The model's `toString` always prints plain digits. JavaScript switches to exponent form from 1e21 on, and `parseInt("1e+21")` is 1, so `c.Number? ==> v == c.n` holds in the program only below 1e21.
- `DataAggregator.RoundDiv`: computed exactly over naturals. Double-precision rounding is not modelled. Neither is the loss of exactness of sums beyond 2^53, where a double no longer holds every integer.
- `TrackCard.FormatDuration`: defined on natural numbers only, since fractional seconds would give fractional remainders.
- `OAuthCallback.HandleCallback`: the callback puts the code into the exchange URL unencoded. A code holding `&`, `+`, `#` or `%` would reach the route altered. The model records the code as received, and the URL encoding of the exchange request is not modelled.
- `encodeURIComponent` is an arbitrary function. The URIError it throws on a lone surrogate, which would reach the 500 path, is not modelled.
- `QueryString.Parse` keeps values as written. The percent-decoding and `+`-to-space of `URLSearchParams` are not modelled.
- A JSON `null` and a missing member are both `None`. Where the code coerces it to a string, the model gives `"undefined"`, while a `null` would give `"null"`. Three `null` bodies are not modelled. A `null` feed body makes `.items` throw at useYouTubeData.ts:60. A `null` subscription body makes `.items` throw at useYouTubeData.ts:79, which keeps the old channels and analytics. A `null` token body makes `tokenData.access_token` throw at the route's lines 59-62 and at the callback's line 30.
- `expires_in` is modelled as a natural number; a string value is not modelled.
- The liked-videos answer is proxied by the route but never used by the aggregator, as in the code.
- `DataAggregator.SampleVideos`: the program builds the samples once, at module load, so every fetch shows the same three time stamps. The model takes the clock reading `now` on each call, so it admits two fetches that show different sample time stamps.
- Which route path the clients call is not tied to the route modelled here.
