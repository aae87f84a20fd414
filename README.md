# Nightingale front end: search, feed, API calls and session

This project models the logic inside the single-page front end of Nightingale,
a social network for healthcare workers, and proves properties of it. Four
files hold that logic:

- `src/pages/Search.jsx`: the hospital search page. It covers
  - the table from US state name to postal code;
  - the location read from a reverse-geocoding reply;
  - the choice between a zip, city/state or name search;
  - the rating stars.
- `src/pages/HomePage.jsx`: the feed. It holds the post list and the per-post
  maps of comments, expanded flags and comment drafts, and the handlers that
  update them.
- `src/api/apicalls.js`: the calls to the backend. The model covers how each
  one builds its request and how every failure collapses to `[]`, `null` or
  `false`.
- `src/auth/AuthContext.jsx`: the session. It holds the token, the user and
  the stored token, which login, register, logout and the token effect change.

The modules are:

- `Js` (`js.dfy`): the JavaScript semantics the code relies on:
  - null and truthiness, and `a || b`;
  - `String.prototype.trim` over the ECMAScript white-space set;
  - `length` in UTF-16 code units;
  - `Number.prototype.toString` of integers;
  - `parseInt` (white space, sign, `0x` prefix, longest digit prefix, NaN);
  - `String.prototype.repeat`.
- `Http` (`http.dfy`): requests and responses. The network is a function from
  requests to responses, passed to every operation whose request the model
  builds. The calls defined outside `apicalls.js` appear as the values they
  resolve to.
  `Settle` is the "body on success, fixed value otherwise" shape. A query is an
  ordered list of key/value pairs; `ValueOf` is `URLSearchParams.get`.
- `Api` (`api.dfy`): the calls of `apicalls.js`.
- `Search` (`search.dfy`): `Search.jsx`. The form state is the class
  `SearchPage`, and `HandleSearch` is proved against the decision function
  `Decide`.
- `Feed` (`feed.dfy`): `HomePage.jsx`. The class `HomeFeed` holds the
  sequences and maps, and its handlers are proved against the pure updater
  functions.
- `Auth` (`auth.dfy`): `AuthContext.jsx`. The state machine is stated on
  `Session` values. The class `AuthProvider` keeps the same state in fields,
  and each method is proved equal to its transition function.

Several values the code obtains from outside are parameters of the model:

- every server reply;
- what `searchHospitalsByZipcode`, `likePost`, `unlikePost`, `dislikePost`,
  `undislikePost`, `getCommentsByPostId` and `createComment` resolve to;
- the sample posts `dummyPosts`;
- `Date.now()` and its ISO text;
- the token saved in local storage at start-up.

Three behaviours of the code are easy to misread, and the model follows the
code in each:

- One might expect `logout` to clear the signed-in user at once. It does not:
  it drops the token and removes the stored token, and the user is cleared by
  the token effect that runs next, as `Auth.SignOutThenEffect` shows.
- The comment at `src/pages/Search.jsx:212` and the alert at line 220 speak
  of a valid 5-digit zip code. The zip search is in fact chosen whenever the
  trimmed zip is 5 UTF-16 code units long, whatever those characters are.
- One might expect a location search with only an unusable zip to be refused
  like an empty form. It is not refused up front: it first marks the page as
  searched and then aborts without a request (`Search.BlankZipAborts`,
  `Search.SearchPage.HandleSearch`).

There is one place where the model does not follow the code. The location
taken from a geocoding reply passes the state through the corrected state
lookup of "## Findings", as "## Left out" records under `Search.LocationOf`.

## Model

| member | source | states |
|---|---|---|
| Js.Or | src/pages/Search.jsx:34-43 | the logical OR of a possibly missing string and a default: the string when it is present and non-empty, else the default |
| Js.TrimBy | src/pages/Search.jsx:202 | trimming keeps a slice of the input that starts and ends outside the white-space set, and everything cut off on either side is white space |
| Js.TrimByEmptyIffAll | src/pages/HomePage.jsx:44 | trimming leaves nothing exactly when every character is white space, so `!s.trim()` holds exactly for strings made only of ECMAScript white space |
| Js.TrimByIdempotent | src/pages/Search.jsx:213 | trimming a trimmed string changes nothing |
| Js.Utf16Length | src/pages/Search.jsx:213 | `length` counts UTF-16 units: between the number of code points and twice that, and equal to it when all lie in the Basic Multilingual Plane |
| Js.NatToString | src/api/apicalls.js:17 | `limit.toString()` is a non-empty run of digits with no leading zero |
| Js.DecimalRoundTrip | src/api/apicalls.js:17 | reading back the decimal numeral of a number gives the number |
| Js.DigitPrefix | src/pages/Search.jsx:234 | parseInt reads the longest prefix of digits of its radix |
| Js.ParseInt | src/pages/Search.jsx:234 | `parseInt` yields a number only when a decimal digit follows the leading white space and one optional sign, and always when that digit does not open a `0x` prefix; the number is negative only after a minus sign |
| Js.MagnitudeOfDigits | src/pages/Search.jsx:234 | after the sign, a run of decimal digits is read whole and in decimal, never as a hexadecimal prefix |
| Js.NoLeadingSpace | src/pages/Search.jsx:234 | `parseInt` skips nothing in front of a string that does not start with white space |
| Js.ParseIntOfDigits | src/pages/Search.jsx:234 | `parseInt` of a run of decimal digits is the number they denote |
| Js.ParseIntOfNegativeDigits | src/pages/Search.jsx:234 | `parseInt` of a minus sign and digits is the negated number |
| Js.RepeatLength | src/pages/Search.jsx:234 | `s.repeat(n)` has n times the length of s |
| Http.Settle | src/api/apicalls.js:23-34 | a call yields the parsed body of an ok response, and its fixed fallback on a non-ok status, a rejected fetch or an unreadable body |
| Http.ValueOf | src/api/apicalls.js:14-17 | `URLSearchParams.get`: none exactly when no pair has the key, otherwise the value of the first such pair |
| Api.CityStateRequest | src/api/apicalls.js:14-21 | a GET on the search path with no headers, whose query holds `city` only if non-empty, then `state` only if non-empty, then always `limit`, in that order, so that reading each key back gives the city, the state or the limit |
| Api.NameRequest | src/api/apicalls.js:45-49 | a GET on the search path with no headers, whose query is exactly `name` then `limit` |
| Api.SearchHospitalsByCityState | src/api/apicalls.js:12-35 | the query built pair by pair is the one CityStateRequest describes; the result is the hospitals of a delivered reply, `[]` on any failure |
| Api.SearchHospitalsByName | src/api/apicalls.js:43-63 | the query built pair by pair is the one NameRequest describes; the result is the hospitals of a delivered reply, `[]` on any failure |
| Api.GetAllPosts | src/api/apicalls.js:66-75 | the listed posts of a delivered reply, `[]` on any failure |
| Api.GetPostsByUserId | src/api/apicalls.js:77-86 | that user's posts of a delivered reply, `[]` on any failure |
| Api.CreatePost | src/api/apicalls.js:88-104 | null exactly when the reply is not delivered, the stored post otherwise |
| Api.DeletePost | src/api/apicalls.js:106-120 | true exactly when a response arrives with an ok status; the body is never read |
| Api.GetUserProfile | src/api/apicalls.js:123-132 | null exactly when the reply is not delivered, the profile otherwise |
| Api.UpdateUserProfile | src/api/apicalls.js:134-150 | null exactly when the reply is not delivered, the updated profile otherwise |
| Api.AuthenticatedCallsCarryBearer | src/api/apicalls.js:92-95 | creating a post, deleting one and updating the profile send `Authorization: Bearer <token>`; the unauthenticated calls send no header |
| Search.StateAbbreviation | src/pages/Search.jsx:68-122 | a listed state name gives its code, and any other string comes back unchanged |
| Search.StateCode | src/pages/Search.jsx:69-120 | every value of the `states` table is a postal code of two capital letters |
| Search.StatesAlabamaToGeorgia | src/pages/Search.jsx:70-79 | Alabama to Georgia map to their listed codes |
| Search.StatesHawaiiToMaryland | src/pages/Search.jsx:80-89 | Hawaii to Maryland map to their listed codes |
| Search.StatesMassachusettsToNewJersey | src/pages/Search.jsx:90-99 | Massachusetts to New Jersey map to their listed codes |
| Search.StatesNewMexicoToSouthCarolina | src/pages/Search.jsx:100-109 | New Mexico to South Carolina map to their listed codes |
| Search.StatesSouthDakotaToWyoming | src/pages/Search.jsx:110-119 | South Dakota to Wyoming map to their listed codes |
| Search.ShortNamesPassThrough | src/pages/Search.jsx:121 | the empty state and any name shorter than four characters, such as "NY", come back unchanged |
| Search.StateAbbreviationIdempotent | src/pages/Search.jsx:68-122 | looking up the result of a lookup changes nothing: a listed name gives a code, and a code passes through |
| Search.StateAbbreviationAsWritten | src/pages/Search.jsx:121 | the lookup as written: a name inherited from Object.prototype yields that inherited member, and every other name yields what the corrected lookup gives |
| Search.InheritedKeyEscapesPassThrough | src/pages/Search.jsx:121 | "toString" yields Object.prototype.toString as written, but the string "toString" from the corrected lookup |
| Search.FirstPresent | src/pages/Search.jsx:34-41 | the result is "" exactly when no field is present and non-empty, and otherwise the first field that is |
| Search.LocationOf | src/pages/Search.jsx:42-58 | the state is the address state, or "", passed through the state table; the zipcode is the postcode or "" |
| Search.CityIsFirstPresent | src/pages/Search.jsx:33-41 | the city is the first present, non-empty value among city, town, village, municipality, hamlet and suburb, else "" |
| Search.CountyIgnored | src/pages/Search.jsx:33 | the county never changes the location |
| Search.MissingStateStaysEmpty | src/pages/Search.jsx:42 | an address without a state gives the empty state |
| Search.LocationFromReply | src/pages/Search.jsx:21-66 | null exactly when the request fails or the reply has no address, otherwise the location of that address |
| Search.Decide | src/pages/Search.jsx:193-225 | an empty location form and a blank name are refused; a trimmed zip of length 5 wins with the trimmed zip and the state; otherwise a non-empty city or state searches by city/state; otherwise the search aborts; a non-blank name searches by the untrimmed name |
| Search.FiveDigitZipWins | src/pages/Search.jsx:213-215 | a five-digit zip is searched as typed, together with the state, whatever the city is |
| Search.BlankZipAborts | src/pages/Search.jsx:197-223 | a zip of white space only, with no city and no state, passes the first check and then aborts |
| Search.SearchPage.constructor | src/pages/Search.jsx:10-18 | the page opens on the location tab with every field empty, no results, and not loading, not searched and not locating |
| Search.SearchPage.HandleSearch | src/pages/Search.jsx:193-230 | the branch taken is Decide of the form as it was, the form is unchanged, and results, loading and searched change as SearchEffect says: a refused form changes nothing; an abort sets searched and clears loading without a request; a search sets searched, clears loading and shows the zip results, or sends CityStateRequest with the limit 100 or NameRequest with the limit 50 and shows the settled reply |
| Search.SearchPage.Dispatch | src/pages/Search.jsx:207-229 | for a decision already taken, the form is unchanged and results, loading and searched change as SearchEffect says, with the request sent named exactly |
| Search.SearchPage.ApplyLocation | src/pages/Search.jsx:140-158 | a found location fills city, state and zipcode; the spinner stops either way; the notice is the state-only alert when no postcode was found but a state was, and the failure alert when nothing was found |
| Search.RatingStars | src/pages/Search.jsx:232-235 | "N/A" exactly when the rating is missing, empty or "Not Available" |
| Search.NumeralRatingStars | src/pages/Search.jsx:234 | a rating written as the numeral of n shows n stars, 3n characters |
| Search.NegativeRatingThrows | src/pages/Search.jsx:234 | a negative rating makes `repeat` throw a RangeError |
| Search.NonNumericRatingIsEmpty | src/pages/Search.jsx:234 | a rating that starts with no digit, sign or white space shows no stars |
| Feed.MapMatching | src/pages/HomePage.jsx:71-77 | same length and order; the posts with the matching id are transformed, every other post is unchanged |
| Feed.SetCounts | src/pages/HomePage.jsx:71-77 | the reaction updater keeps the length, the order, every id and every comment count of the list (which posts take the new likes and dislikes is SetCountsTouchesOnlyTarget) |
| Feed.SetCommentCount | src/pages/HomePage.jsx:151-157 | the comment-count updater keeps the length, the order, every id and every like count of the list (which posts take the new count is SetCommentCountTouchesOnlyTarget) |
| Feed.SetCountsTouchesOnlyTarget | src/pages/HomePage.jsx:70-77 | a reaction reply sets likes and dislikes on the matching posts only; every other field and every other post stays |
| Feed.SetCountsAbsentId | src/pages/HomePage.jsx:72-75 | a reply for a post not in the list changes nothing |
| Feed.SetCountsIdempotent | src/pages/HomePage.jsx:71-77 | applying the same reaction reply twice is applying it once |
| Feed.SetCommentCountTouchesOnlyTarget | src/pages/HomePage.jsx:151-157 | only the matching posts take the new comment count |
| Feed.Toggle | src/pages/HomePage.jsx:127-128 | the flag of that post is negated, with a missing flag read as false; every other flag is unchanged |
| Feed.ToggleTwice | src/pages/HomePage.jsx:126-128 | toggling twice restores the flag, and no other post's flag moves |
| Feed.Existing | src/pages/HomePage.jsx:148 | the stored list of the post, or the empty list when none is stored |
| Feed.AppendComment | src/pages/HomePage.jsx:146-149 | the keys gain the post's id, and every other post's entry is unchanged |
| Feed.AppendCommentAtEnd | src/pages/HomePage.jsx:146-149 | the post's list grows by one, keeps what was there in front and ends with the new comment, and is created when absent |
| Feed.LocalPost | src/pages/HomePage.jsx:52-60 | the fallback post has the draft as body, zero likes and comments, no dislike count, the user's id and name, and the given id and time |
| Feed.ShownPosts | src/pages/HomePage.jsx:38 | the fetched posts when there are any, the sample posts otherwise |
| Feed.HomeFeed.constructor | src/pages/HomePage.jsx:18-23 | the feed opens with no posts, an empty draft, empty comment, expanded-flag and draft maps, and loading true |
| Feed.HomeFeed.FetchPosts | src/pages/HomePage.jsx:34-40 | the shown posts are those of ShownPosts for what getAllPosts returns, and loading ends false |
| Feed.HomeFeed.UserChanged | src/pages/HomePage.jsx:26-32 | with a user the posts are fetched; without one only loading stops |
| Feed.HomeFeed.CreatePost | src/pages/HomePage.jsx:42-64 | a blank draft or a missing token changes nothing and sends nothing; otherwise one request goes out, exactly one post is put in front (the server's post, or the local post when the call fails) and the draft is cleared |
| Feed.HomeFeed.HandleReaction | src/pages/HomePage.jsx:66-124 | without a token nothing is called and nothing changes; a failed call leaves the posts; a reply sets the counts of the matching posts |
| Feed.HomeFeed.ToggleComments | src/pages/HomePage.jsx:126-134 | the flag of that post flips, and the comments are fetched and stored only when opening a post with no stored list |
| Feed.HomeFeed.AddComment | src/pages/HomePage.jsx:136-161 | a call is made only with a token and a non-blank draft; on success the comment, under the user's name, is appended to that post's list, that post's count is set and only that draft is cleared |
| Auth.FetchedUser | src/auth/AuthContext.jsx:21-33 | the profile of a delivered reply; any failure keeps the previous user |
| Auth.Effect | src/auth/AuthContext.jsx:11-19 | a truthy token is stored and the profile fetched with it; otherwise the stored token is removed and the user cleared; the token itself never changes |
| Auth.SignIn | src/auth/AuthContext.jsx:35-55 | success exactly on a delivered reply, which sets the token to the body text; a non-ok reply is rejected with the body text; on any failure the session is unchanged; the user and the stored token never change |
| Auth.SignOut | src/auth/AuthContext.jsx:57-60 | the token is dropped and the stored token removed; the user is kept |
| Auth.SignOutThenEffect | src/auth/AuthContext.jsx:15-18 | after logout and the effect, no token, no user and nothing stored |
| Auth.SignInThenEffect | src/auth/AuthContext.jsx:12-14 | after a successful sign-in and the effect, storage holds exactly the new token and the user is fetched with it |
| Auth.EmptyTokenSignsOut | src/auth/AuthContext.jsx:12-17 | an ok reply with an empty body resolves, but the effect then removes the stored token and clears the user |
| Auth.EffectIdempotent | src/auth/AuthContext.jsx:11-19 | running the effect twice against the same server is running it once |
| Auth.EffectSettles | src/auth/AuthContext.jsx:11-19 | after the effect, storage holds the token when it is truthy, and nothing (and no user) otherwise |
| Auth.FailedSignInKeepsSettled | src/auth/AuthContext.jsx:46-53 | a failed login or register leaves a settled session settled |
| Auth.AuthProvider.constructor | src/auth/AuthContext.jsx:8-9 | the token starts as the stored token, with no user |
| Auth.AuthProvider.FetchUser | src/auth/AuthContext.jsx:21-33 | sends the bearer request and replaces the user only with a delivered profile |
| Auth.AuthProvider.TokenEffect | src/auth/AuthContext.jsx:11-19 | the new state is Effect of the old one |
| Auth.AuthProvider.Register | src/auth/AuthContext.jsx:35-44 | the new state and outcome are SignIn of the old state and the register reply |
| Auth.AuthProvider.Login | src/auth/AuthContext.jsx:46-55 | the new state and outcome are SignIn of the old state and the login reply |
| Auth.AuthProvider.Submit | src/auth/AuthContext.jsx:41-43 | the steps login and register share once the reply is in: the new state and outcome are SignIn of the old state and the reply |
| Auth.AuthProvider.Logout | src/auth/AuthContext.jsx:57-60 | the new state is SignOut of the old one |

## Left out

- Rendering, CSS classes and routing of every page, and the files that only
  render or forward to the calls modelled here (App, Navbar, Login, Register,
  Profile, HospitalDetails, HospitalSearch).
- Network I/O: `fetch`, the reverse-geocoding request, `navigator.geolocation`,
  `alert`, `console` and `localStorage` as browser APIs. Replies are
  parameters. Alerts appear only as the `Notice` of `ApplyLocation`. Local
  storage is the field `stored`.
- The geolocation part of `handleUseMyLocation`: the browser check, the
  position request and its error messages, because they only talk to browser
  APIs. Its use of the geocoding result is modelled (`ApplyLocation`).
- `searchHospitalsByZipcode`, `likePost`, `unlikePost`, `dislikePost`,
  `undislikePost`, `getCommentsByPostId` and `createComment` are not defined
  in `apicalls.js`, so they are not part of this model. The values they
  resolve to are parameters. The load-time failure of importing a missing
  export is not modelled. `dummyPosts` is not part of this model either.
- URL encoding by `URLSearchParams` and the configured base URL. A query is an
  ordered list of pairs, and a path is relative to the base.
- JSON encoding of request bodies. A body is its list of fields.
- JSON decoding of replies. A reply body either parses into the expected
  record or fails.
- Async interleaving: stale replies from overlapping calls and React's
  batching of state setters. Each handler is one atomic step. So the loading
  flag is modelled only as it is when a handler has finished.
- `Date.now()`, `toISOString()` and locale formatting. They are parameters.
- JavaScript numbers. `parseInt` is modelled on unbounded integers. These are
  not modelled:
  - the rounding of very long numerals to a double;
  - Infinity;
  - the RangeError `repeat` throws when the result would exceed the engine's
    string length limit.
- A rating sent as a JSON number rather than a string. `Hospital.rating` is a
  possibly missing string.
- Strings hold code points. Lone UTF-16 surrogates cannot be represented.
- Search.StateCode: it is not proved that no two names share a code, because
  that proof compares every pair of the 50 entries and exceeds the verifier's
  resource limit. The entries are stated one by one by the five table lemmas
  (`Search.StatesAlabamaToGeorgia` and the four after it).
- Search.LocationOf: it passes the address state through the corrected lookup
  `Search.StateAbbreviation`, not through `Search.StateAbbreviationAsWritten`.
  So for a geocoded state named like a member of Object.prototype (such as
  "toString"), `LocationOf`, `LocationFromReply` and
  `SearchPage.ApplyLocation` give that name as a string. The code as written
  puts the inherited function into the form instead (see "## Findings").
- Search.SearchPage.HandleSearch: it runs its guards as the decision function
  `Decide` and then hands the chosen branch to `Dispatch`, rather than
  repeating the guard sequence in place.
- Feed.HomeFeed.HandleReaction: one method stands for all four handlers. They
  differ only in which call, outside this model, they make.

## Findings

| source | as written | input that shows it | evidently intended | confidence | as-written member | corrected member |
|---|---|---|---|---|---|---|
| src/pages/Search.jsx:121 | `states[stateName]` also finds the properties every object inherits from Object.prototype, so such a name yields a function (or the prototype object), which is truthy and is returned in place of the name; `Search.InheritedKeyEscapesPassThrough` exhibits it | state name "toString" (likewise "constructor", "valueOf", "__proto__", ...) | every name that is not one of the 50 listed states comes back unchanged, as a string | high for the behaviour, low for its impact (a geocoder would have to report such a state name); not executed | Search.StateAbbreviationAsWritten | Search.StateAbbreviation |
