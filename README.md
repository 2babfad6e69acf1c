# Smart city dashboard: a verified model of its data-shaping core

This project models the deterministic core of a weather and air-quality
dashboard and of its small authentication service, and proves properties of
that model. The core covers:

- **Historical series.** The dashboard geocodes a free-text city name. It turns
  the provider's parallel hourly arrays into two views: a trailing 24-hour
  window, and per-calendar-day means over the non-null readings. Dates are
  sorted ascending, and a day with no valid reading is kept with the value
  `null`. A failed air-quality history request degrades to empty series.
- **Rainfall risk.** The alert looks only at the next two forecast hours. It
  takes their worst probability of precipitation and rainfall, and classifies
  the risk as heavy, moderate or none using strict thresholds.
- **Air-quality categories.** The US EPA Air Quality Index bands
  (50/100/150/200/300) and the PM2.5 concentration breakpoints
  (12/35.4/55.4/150.4/250.4) of 40 CFR Part 58, Appendix G, Table 2. Then the
  per-level CSS class and colour tables, and the chart colour taken from the
  average reading.
- **The data service.** Place lookup goes through a cache keyed by the exact
  input text, with a London fallback that is never cached. Also covered: the
  reverse-lookup priority chain, the short-query guard of place suggestions,
  the 'N/A' pollutant substitution with its mock fallback, and the eight-entry
  forecast.
- **Authentication.** Signup passes an e-mail domain allow-list before the
  duplicate check. Login answers an unknown e-mail and a wrong password with
  the same response. Verification takes the second word of the
  `Authorization` header, as a loose reading of section 2.1 of RFC 6750.
- **UI decision rules.** The signup form's validation order, the navigation
  bar's active item, and the status banner's priority.

The HTTP answers, the clock, the token signer and decoder, the password check
and the database save are all parameters. JavaScript's `null` and `undefined`
are `Option.None`, and a rejected promise is `Result.Err`.

One Dafny module per source file, plus two modules of JavaScript built-ins:

| module | file |
|---|---|
| `Wrappers` | `wrappers.dfy` |
| `JsStrings` | `js_strings.dfy` (`split`, `join`, `trim`, `toLowerCase`, `startsWith`, the default `sort` order, decimal rendering) |
| `HistoryUtils` | `history_utils.dfy` |
| `RainfallService` | `rainfall_service.dfy` |
| `ApiService` | `api_service.dfy` |
| `AqiHistoryChart` | `aqi_history_chart.dfy` |
| `Helpers` | `helpers.dfy` |
| `AuthRoutes` | `auth_routes.dfy`, for both `server/routes/auth.js` and `backend/server/routes/auth.js`, whose code is identical apart from comments |
| `SignupPage` | `signup_page.dfy` |
| `Navigation` | `navigation.dfy` |
| `StatusMessage` | `status_message.dfy` |

The code is modelled in the form it has in the source:

- Loops that fill arrays or dictionaries are methods with loop invariants. These
  are the timestamp generators, the `dailyData` bucketing, and the rainfall
  maxima.
- Each such method is proved equal to a specification function, and the
  properties are proved about that function.
- The geocode cache, the user collection and the signup form are classes whose
  methods update their fields.
- Pure code is written as functions and lemmas.

## Model

| member | source | states |
|---|---|---|
| JsStrings.Split | src/utils/historyUtils.js:17 | `split` on one character: at least one piece, no piece contains the separator, and the first piece is the text before the first separator (or the whole string) |
| JsStrings.JoinSplit | src/utils/historyUtils.js:17 | splitting loses nothing: joining the pieces with the separator gives the string back |
| JsStrings.FirstPiece | src/utils/historyUtils.js:17 | the first piece is the whole string when there is no separator, else the text up to the first one |
| JsStrings.SplitAround | server/routes/auth.js:21 | the pieces of `u + sep + v` with a separator-free `u` are `u` followed by the pieces of `v` |
| JsStrings.Trim | src/utils/historyUtils.js:17 | `trim` returns the input with its leading and trailing whitespace removed: the contiguous middle `s[a..a+\|r\|]` after the `a` leading whitespace characters, followed in the input only by whitespace; it is empty iff the input is all whitespace, otherwise it starts and ends with non-whitespace |
| JsStrings.TrimIdempotent | src/utils/historyUtils.js:17 | trimming twice is trimming once |
| JsStrings.Lower | server/routes/auth.js:21 | `toLowerCase` keeps the length and maps each character on its own |
| JsStrings.LexTotal | src/utils/historyUtils.js:185 | the default sort order compares any two strings |
| JsStrings.LexAntisymmetric | src/utils/historyUtils.js:185 | strings ordered both ways are equal |
| JsStrings.LexTransitive | src/utils/historyUtils.js:185 | the sort order is transitive |
| JsStrings.Insert | src/utils/historyUtils.js:185 | inserting into a sorted list keeps it sorted and adds exactly that element |
| JsStrings.Sort | src/utils/historyUtils.js:185 | `sort()` yields a sorted permutation of its input |
| JsStrings.SortDistinct | src/utils/historyUtils.js:185 | sorting distinct keys gives distinct, strictly ascending keys, with the same members |
| JsStrings.Decimal | src/utils/historyUtils.js:164 | a whole number renders as a non-empty run of digits with no leading zero |
| JsStrings.ParseDecimalRoundTrip | src/utils/historyUtils.js:164 | reading back a rendered number gives the number |
| HistoryUtils.SimpleCityName | src/utils/historyUtils.js:17 | the query has no comma and no surrounding whitespace; a name without a comma is only trimmed |
| HistoryUtils.QueryIsFirstSegment | src/utils/historyUtils.js:15-17 | for `head,tail` with a comma-free head, the query is `trim(head)`, so everything after the first comma is ignored |
| HistoryUtils.GetCoordinates | src/utils/historyUtils.js:13-38 | success iff the provider answers a non-empty result list, giving the first result's latitude and longitude; an empty or missing list is "City not found"; a request failure is rethrown; there is no fallback coordinate |
| HistoryUtils.SameFirstSegmentSameCoordinates | src/utils/historyUtils.js:17-31 | two names with the same simplified query resolve identically |
| HistoryUtils.Last24HoursTimestamps | src/utils/historyUtils.js:44-54 | exactly 24 instants, oldest first, one hour apart, the last one now |
| HistoryUtils.Last7DaysTimestamps | src/utils/historyUtils.js:60-70 | exactly 7 UTC dates, consecutive and oldest first, the last one today's |
| HistoryUtils.DayShift | src/utils/historyUtils.js:65-66 | going back `i` whole days from an instant moves its UTC date back by exactly `i` |
| HistoryUtils.Last24 | src/utils/historyUtils.js:157-159 | `slice(-24)` has min(24, n) entries, each the matching entry of the input's tail |
| HistoryUtils.Last24IsSuffix | src/utils/historyUtils.js:157-159 | the 24-hour window is a suffix of the input, never padded, and the whole input when it has at most 24 entries |
| HistoryUtils.HourLabels | src/utils/historyUtils.js:162-165 | one hour label per timestamp, each read from that timestamp's own hour digits, in order |
| HistoryUtils.DayLabels | src/utils/historyUtils.js:201-204 | one date label per daily date, in order |
| HistoryUtils.DailyMeans | src/utils/historyUtils.js:186-198 | one value per daily date, each the mean of that date's non-null readings |
| HistoryUtils.GroupByDate | src/utils/historyUtils.js:168-182 | the `forEach` loop creates one bucket per distinct date, keyed in first-appearance order, and pushes each hour's reading onto its date's bucket; with `dropMissing` (line 259) only non-null readings are pushed |
| HistoryUtils.DailyAverages | src/utils/historyUtils.js:185-204 | the daily series: labels of the sorted dates, paired with the per-day means of the buckets |
| HistoryUtils.PresentKeepPresent | src/utils/historyUtils.js:259-267 | filtering nulls again out of buckets that only received non-null readings changes nothing |
| HistoryUtils.FormatWeatherResponse | src/utils/historyUtils.js:144-212 | four empty series for a missing payload or missing `hourly`; otherwise both 24-hour series share the trailing-24 labels, and both daily series share the sorted-date labels with per-day means |
| HistoryUtils.ChosenValues | src/utils/historyUtils.js:230 | `pm2_5` is used whenever present, even if empty; the European index only when `pm2_5` is absent |
| HistoryUtils.FormatAqiResponse | src/utils/historyUtils.js:219-283 | empty series without `time` or without values; otherwise the trailing 24 readings with their hour labels and the per-day means over non-null readings, with null days kept |
| HistoryUtils.AqiHistoryOrEmpty | src/utils/historyUtils.js:131-136 | a failed request yields a payload with empty `time`, `pm2_5` and `european_aqi` |
| HistoryUtils.LoadAqiHistory | src/utils/historyUtils.js:132-136 | a failed air-quality history request ends in two empty series, not an error |
| HistoryUtils.DateKeysAreTheDates | src/utils/historyUtils.js:170-178 | the bucket keys are distinct and are exactly the date parts of the timestamps |
| HistoryUtils.DailyDatesAscending | src/utils/historyUtils.js:185 | the daily dates are distinct, strictly ascending, and exactly the dates of the range |
| HistoryUtils.EveryDateHasReadings | src/utils/historyUtils.js:170-181 | every date of the range has at least one (possibly null) reading, so no date is dropped |
| HistoryUtils.DayMeanNullIffNoReading | src/utils/historyUtils.js:186-191 | a day's value is null exactly when all its readings are null |
| HistoryUtils.PresentEmptyIffAllNull | src/utils/historyUtils.js:187 | the filtered readings are empty iff every reading is null |
| HistoryUtils.NullsDoNotDilute | src/utils/historyUtils.js:187-190 | `[10, null, null]` averages to 10 |
| HistoryUtils.MeanOfConstant | src/utils/historyUtils.js:188-190 | the mean of equal readings is that reading |
| HistoryUtils.MeanBounds | src/utils/historyUtils.js:188-190 | the mean of a non-empty day lies within any bounds that hold for all of its readings |
| RainfallService.Window | src/services/rainfallService.js:15 | `slice(0, 2)`: a prefix of min(2, n) hours |
| RainfallService.MaxPop | src/services/rainfallService.js:16-24 | the running maximum of `pop × 100` is at least 0, bounds every hour of the window, and is 0 or attained by some hour |
| RainfallService.MaxRainfall | src/services/rainfallService.js:16-24 | the same for the one-hour rainfall, a missing value counting as 0 |
| RainfallService.AnalyzeRainfallForecast | src/services/rainfallService.js:12-55 | `{hasAlert: false}` for a missing or empty list; otherwise the maxima over the first two hours; heavy iff `maxPop > 80` and `maxRainfall > 2`; moderate iff not heavy and `maxPop > 60` and `maxRainfall > 0.5`; none has empty type and message; `hasAlert` iff the level is not none; min(2, n) forecast entries in order |
| RainfallService.WindowTruncation | src/services/rainfallService.js:15-24 | lists that agree on their first two hours are analysed identically |
| RainfallService.LaterHoursIgnored | src/services/rainfallService.js:15 | appending hours to a list of two or more never changes any field of the analysis |
| RainfallService.ClassifyMonotone | src/services/rainfallService.js:30-38 | raising either maximum never lowers the level |
| RainfallService.StrictThresholds | src/services/rainfallService.js:30-34 | every threshold is strict: a maximum probability of exactly 80 % or a maximum rainfall of exactly 2 mm/h is never heavy, and exactly 60 % or exactly 0.5 mm/h is never an alert, whatever the other maximum; 80 % with 2 mm/h is moderate, just above both is heavy |
| RainfallService.WorstHourDrives | src/services/rainfallService.js:19-31 | hours (85 %, 3 mm) then (50 %, 0.2 mm) give a heavy alert with maxima 85 and 3 |
| RainfallService.SingleHourModerate | src/services/rainfallService.js:34-36 | a single hour at 65 % and 0.6 mm/h is a moderate alert |
| ApiService.GeocodeStep | frontend/src/services/apiService.js:22-59 | a cached key answers its entry with no request; a found place is answered and stored under the exact input; an empty result or a failure answers the London fallback and stores nothing |
| ApiService.GeocodeCache.GeocodeLocation | frontend/src/services/apiService.js:22-59 | the method's result, request flag and new cache are those of `GeocodeStep` on the old cache |
| ApiService.CacheOnlyGrowsWithFoundPlaces | frontend/src/services/apiService.js:15-51 | no entry is evicted or overwritten; the only entry ever added is a found place under the exact key asked for |
| ApiService.RepeatedLookupHitsCache | frontend/src/services/apiService.js:25-27 | after a successful lookup, asking again makes no request and answers the same value, whatever the service would now say |
| ApiService.FailedLookupRetried | frontend/src/services/apiService.js:54-58 | a failed lookup answers the fallback and is requested again next time |
| ApiService.FirstTruthy | frontend/src/services/apiService.js:81-84 | `a \|\| b \|\| … \|\| last`: the first truthy candidate, else `last` (so always one of the candidates or `last`) |
| ApiService.ReverseGeocode | frontend/src/services/apiService.js:67-89 | a failure propagates; a success is always resolved, and resolves to nothing (`undefined`) only when the answer has no display name |
| ApiService.ReverseGeocodePriority | frontend/src/services/apiService.js:81-84 | the name is the first non-empty of city, town and village, else the display name |
| ApiService.SearchLocations | frontend/src/services/apiService.js:96-120 | no request and no suggestions for a missing query or one shorter than 2 characters once trimmed; none on failure; otherwise one suggestion per result, in order |
| ApiService.ShortQueryNoRequest | frontend/src/services/apiService.js:98-100 | one visible character padded with blanks never reaches the service |
| ApiService.GetAQILevel | frontend/src/services/apiService.js:241-248 | the level is one of the six category names |
| ApiService.AqiBand | frontend/src/services/apiService.js:241-248 | the band index counts the bounds 50, 100, 150, 200 and 300 that a value exceeds |
| ApiService.GetAQILevelIsBand | frontend/src/services/apiService.js:241-248 | the if-chain names the band of the value, with inclusive upper bounds, and the band never decreases as the value grows |
| ApiService.OrNA | frontend/src/services/apiService.js:223-228 | a pollutant is a number iff it is present and non-zero, otherwise 'N/A' |
| ApiService.FetchAirQualityData | frontend/src/services/apiService.js:197-234 | mock data without a key, on failure, or on a status other than 'ok'; otherwise the AQI with its level, and all pollutants 'N/A' when `iaqi` is absent; with `iaqi`, each pollutant is its figure when present and non-zero, else 'N/A' |
| ApiService.MockLevelConsistent | frontend/src/utils/mockData.js:25-27 | the mock snapshot's level is the level of its AQI, 45 |
| ApiService.FetchForecastData | frontend/src/services/apiService.js:164-190 | at most 8 entries; the mock forecast without a key or on failure; otherwise the first min(8, n) items in order with temperatures rounded half up |
| AqiHistoryChart.GetAqiCategory | frontend/src/components/charts/AqiHistoryChart.jsx:32-39 | the category is one of the six, and its colour triple has no closing parenthesis |
| AqiHistoryChart.PmBand | frontend/src/components/charts/AqiHistoryChart.jsx:32-39 | the band index counts the breakpoints 12, 35.4, 55.4, 150.4 and 250.4 that a value exceeds |
| AqiHistoryChart.GetAqiCategoryIsBand | frontend/src/components/charts/AqiHistoryChart.jsx:32-39 | each value gets exactly one of the six categories, the one of its band (inclusive upper bounds), and severity never decreases as the value grows |
| AqiHistoryChart.AverageAsWritten | frontend/src/components/charts/AqiHistoryChart.jsx:50-52 | 0 for no points; otherwise the sum of the non-null readings divided by the number of points, nulls included |
| AqiHistoryChart.SumNullAsZeroIsSumPresent | frontend/src/components/charts/AqiHistoryChart.jsx:51 | adding `null` as 0 gives the sum of the non-null readings |
| AqiHistoryChart.AveragesAgreeWithoutNulls | frontend/src/components/charts/AqiHistoryChart.jsx:50-52 | without nulls, the average as written equals the mean of the readings |
| AqiHistoryChart.NullDilutesAverage | frontend/src/components/charts/AqiHistoryChart.jsx:50-53 | `[40, null]` averages to 20 (Moderate) as written, but the only reading, 40, is Unhealthy for Sensitive |
| AqiHistoryChart.AverageOfReadings | frontend/src/components/charts/AqiHistoryChart.jsx:49-53 | corrected average: 0 without readings, otherwise the mean of the non-null readings |
| AqiHistoryChart.GapsIgnored | frontend/src/components/charts/AqiHistoryChart.jsx:49-53 | a null point does not move the corrected average |
| AqiHistoryChart.AverageWithinReadings | frontend/src/components/charts/AqiHistoryChart.jsx:50-53 | the corrected average lies within the range of the readings |
| AqiHistoryChart.ReplaceFirst | frontend/src/components/charts/AqiHistoryChart.jsx:62 | `replace` with a text pattern that starts the string replaces that occurrence only |
| AqiHistoryChart.ReplaceFirstAfter | frontend/src/components/charts/AqiHistoryChart.jsx:62 | a one-character pattern is replaced at its first occurrence, and the rest is left as it is |
| AqiHistoryChart.WithAlphaOfRgb | frontend/src/components/charts/AqiHistoryChart.jsx:62 | rewriting `rgb(inner)` gives `rgba(inner, alpha)` |
| AqiHistoryChart.ChartStyleOf | frontend/src/components/charts/AqiHistoryChart.jsx:53-97 | as written: line and point colours are the category colour of `avgAqi`, the average that counts null points in its length; the fill is that colour at alpha 0.1 and the tooltip border at 0.5; point radius is 2 for '24h', else 4 |
| AqiHistoryChart.ChartStyleIntended | frontend/src/components/charts/AqiHistoryChart.jsx:53-97 | the same style rules applied to the mean of the readings that are present (the corrected half of the finding below) |
| AqiHistoryChart.GapRecoloursChart | frontend/src/components/charts/AqiHistoryChart.jsx:50-61 | with data `[40, null]` the chart as written is drawn in Moderate yellow `rgb(234, 179, 8)`, while the intended style is Unhealthy for Sensitive orange `rgb(249, 115, 22)` |
| AqiHistoryChart.IntendedStyleIgnoresGaps | frontend/src/components/charts/AqiHistoryChart.jsx:49-97 | inserting a null point anywhere leaves the intended style unchanged |
| AqiHistoryChart.EmptyChartIsGood | frontend/src/components/charts/AqiHistoryChart.jsx:50-62 | empty data is coloured Good, with fill `rgba(34, 197, 94, 0.1)` |
| AqiHistoryChart.PointTooltip | frontend/src/components/charts/AqiHistoryChart.jsx:101-107 | a point's tooltip carries its value and the name of that value's own category, one of the six |
| AqiHistoryChart.TooltipIsPerPoint | frontend/src/components/charts/AqiHistoryChart.jsx:101-107 | with readings 5 and 100 the chart's average is Unhealthy for Sensitive while the points read Good and Unhealthy |
| Helpers.FormatDateTime | frontend/src/utils/helpers.js:8-20 | 'N/A' for a falsy argument (nothing, or the number 0); otherwise the rendering of the instant |
| Helpers.LookupOr | frontend/src/utils/helpers.js:36 | `map[level] \|\| fallback` gives the entry of a listed level, and the fallback for any other |
| Helpers.GetAQIClass | frontend/src/utils/helpers.js:27-37 | a listed level gets its class; any other string gets 'bg-aqi-moderate' |
| Helpers.GetAQIColor | frontend/src/utils/helpers.js:44-54 | a listed level gets its colour; any other string gets '#f59e0b' |
| Helpers.EveryLevelHasEntries | frontend/src/utils/helpers.js:28-52 | every level `getAQILevel` produces has an entry in both tables |
| Helpers.UnknownLevelLooksModerate | frontend/src/utils/helpers.js:36-53 | an unlisted level is shown exactly as Moderate |
| Helpers.TablesDistinguishLevels | frontend/src/utils/helpers.js:28-52 | distinct levels get distinct classes and colours |
| Helpers.Capitalize | frontend/src/utils/helpers.js:61-64 | '' for a missing or empty string; otherwise same length, the first character upper-cased, the rest unchanged |
| Helpers.CapitalizeIdempotent | frontend/src/utils/helpers.js:61-64 | capitalising twice is capitalising once |
| Navigation.IsActive | frontend/src/components/Navigation.jsx:14-19 | Home is active iff the pathname is exactly '/'; any other item iff the pathname starts with its path |
| Navigation.ContinuationsActive | frontend/src/components/Navigation.jsx:18 | every continuation of an item's path keeps it active, even one that is not a sub-route |
| Navigation.RawPrefixMatches | frontend/src/components/Navigation.jsx:18 | '/dashboardX' activates Dashboard |
| Navigation.AtMostOneActive | frontend/src/components/Navigation.jsx:8-19 | for the three declared items, at most one is active on any pathname |
| Navigation.RootHighlightsHomeOnly | frontend/src/components/Navigation.jsx:14-19 | pathname '/' activates Home and nothing else |
| StatusMessage.GetMessageConfig | frontend/src/components/StatusMessage.jsx:6-37 | error iff the error is non-empty, with the error text; info iff loading without an error, with the loading text; success otherwise, with the success text |
| StatusMessage.Render | frontend/src/components/StatusMessage.jsx:3-39 | nothing is rendered iff there is no error, no loading and no last update; otherwise the chosen banner |
| StatusMessage.StyleFollowsKind | frontend/src/components/StatusMessage.jsx:7-36 | two banners share a background, border, icon or text colour iff they are of the same kind |
| StatusMessage.ErrorOutranks | frontend/src/components/StatusMessage.jsx:7-16 | an error is shown whatever the loading and last-update state |
| AuthRoutes.EmailDomain | server/routes/auth.js:21 | no '@' gives no domain; a domain never contains '@' |
| AuthRoutes.DomainOfAddress | server/routes/auth.js:21 | for `local@domain` the domain is `domain` lower-cased |
| AuthRoutes.UpperCaseDomainAllowed | server/routes/auth.js:21-22 | 'Ann@GMAIL.com' passes: the comparison ignores case |
| AuthRoutes.SecondAtPieceIsDomain | server/routes/auth.js:21 | for `a@b@rest` the domain is `b`, lower-cased |
| AuthRoutes.MissingDomainRejected | server/routes/auth.js:21-26 | an address without '@', or with nothing after it, is rejected |
| AuthRoutes.SignupStep | server/routes/auth.js:16-58 | 500 without an e-mail; 400 with the allow-list message for a domain not on the list; for an allowed domain, 500 when the duplicate lookup rejects and otherwise 400 "User already exists" for a stored e-mail; 201 iff allowed, looked up, new and saved; every non-201 leaves the store unchanged; 201 stores one account under the e-mail and answers the token and the user without the password |
| AuthRoutes.UserStore.Signup | backend/server/routes/auth.js:14-56 | the route's response and the new store are those of `SignupStep` on the old store |
| AuthRoutes.SignupPreservesValid | server/routes/auth.js:35-36 | signup keeps every account filed under its own e-mail and id; a successful one adds exactly one account |
| AuthRoutes.DomainCheckedFirst | backend/server/routes/auth.js:19-30 | for a rejected domain the answer does not depend on the store, and nothing is written |
| AuthRoutes.Login | server/routes/auth.js:61-97 | 500 "Server error during login" when the user lookup or the password comparison throws; otherwise 200 iff the e-mail is stored and the password matches, with the token and public user, and every other answer is the same 401 "Invalid email or password" |
| AuthRoutes.LoginFailuresIndistinguishable | backend/server/routes/auth.js:64-73 | an unknown e-mail and a wrong password give identical responses |
| AuthRoutes.SignupThenLogin | server/routes/auth.js:35-92 | after a successful signup the same credentials log in as the same user, with the same token |
| AuthRoutes.BearerToken | server/routes/auth.js:102 | no header gives no token; a token never contains a space |
| AuthRoutes.BearerTokenIsSecondWord | server/routes/auth.js:102 | any single scheme word followed by a token yields that token: the scheme is not checked |
| AuthRoutes.SchemeAloneHasNoToken | backend/server/routes/auth.js:100-104 | a header that is only the scheme, or has two spaces after it, carries no token |
| AuthRoutes.Verify | server/routes/auth.js:100-125 | 401 "No token provided" for a missing or empty token; 401 "Invalid token" when decoding fails or when the user lookup rejects; otherwise 404 "User not found" for an unknown user and 200 with the stored user's public fields |
| AuthRoutes.SignupThenVerify | backend/server/routes/auth.js:98-121 | the token issued at signup verifies back to the new user |
| SignupPage.SignupForm.HandleSubmit | frontend/src/pages/Signup.jsx:18-42 | the handler appends the steps of `SubmitEffects`, and leaves the state those steps produce |
| SignupPage.ApplyFinal | frontend/src/pages/Signup.jsx:20-40 | a mismatch or a short password leaves its message and does not change loading; an attempt ends with loading off and the service's message verbatim, or no error |
| SignupPage.ValidationFailureStops | frontend/src/pages/Signup.jsx:22-30 | a validation failure only clears and then sets the error (the mismatch message wins over the short one), and never calls the service or sets loading |
| SignupPage.AttemptBracketedByLoading | frontend/src/pages/Signup.jsx:32-41 | a valid submit clears the error, turns loading on, calls the service exactly once and ends by turning loading off; only a resolved call navigates to '/dashboard' |
| SignupPage.SixCharactersPass | frontend/src/pages/Signup.jsx:27 | a password of exactly six characters reaches the service |

## Left out

- HTTP requests, their URLs, headers, time-outs and logging. Each answer is a parameter (`Result`).
- Locale and time-zone formatting. The 24-hour labels read the hour digits of the local timestamp, and the day labels read the month and day digits of the date. The source builds day labels with `new Date('YYYY-MM-DD')`, which is midnight UTC read back in local time. West of UTC that label shows the previous day, and the model does not capture this shift.
- `toLocaleTimeString`, `toLocaleString` and `toISOString` output. Timestamps are milliseconds, or whole days for `getLast7DaysTimestamps`, not ISO strings.
- `toFixed` rounding and decimal strings in the rainfall analysis and the tooltip, `parseFloat`, floating-point arithmetic and `NaN`. Values are exact reals.
- HistoryUtils.FormatWeatherResponse: requires the temperature and wind arrays to be as long as `time`. With shorter arrays the source pushes `undefined`, which the null filter keeps, and the mean becomes `NaN`. A payload whose `hourly` lacks an array throws in the source and is not modelled.
- String length counts Unicode code points, not UTF-16 units. This affects the password length and the trimmed query length. Sorting also compares code points rather than UTF-16 units.
- `toUpperCase` and `toLowerCase` are modelled for ASCII letters only.
- Property lookups that hit inherited object keys are not modelled. This means a level named like a prototype member in the class and colour tables, and a date key `__proto__` in `dailyData`.
- RainfallService.AnalyzeRainfallForecast: an hour without a `weather` array throws in the source; the model reads a missing description as 'N/A'. Forecast times are the raw `dt`, not the localised clock text.
- ApiService.CacheOnlyGrowsWithFoundPlaces: holds only for lookups that do not overlap. Each call is modelled as one atomic step, but `geocodeLocation` awaits the search between its cache test and its cache write (frontend/src/services/apiService.js:25-51). When calls overlap, as when the dashboard starts its fetchers together, a later write can replace an entry stored by an earlier call for the same text.
- ApiService.RepeatedLookupHitsCache: holds only for a second call that starts after the first has finished. Overlapping calls for the same text each miss the cache and each send a request, so a first dashboard load can send several requests for one city.
- ApiService.GeocodeCache.GeocodeLocation: the interleaving of concurrent calls on the shared cache is not modelled.
- ApiService.FetchForecastData and ApiService.FetchAirQualityData: the place lookup they start (which may fill the cache) is not composed with them. Their result is modelled from the forecast or feed answer alone.
- `fetchWeatherData` (frontend/src/services/apiService.js:127), the weather fetchers of the history view, the React hooks, timers, geolocation, theme and auth contexts, and the presentational components.
- AuthRoutes.Login: the e-mail is always present. A body without one is handed to the database query, whose semantics are not modelled.
- The user model is not part of this model. Password hashing, schema validation and id generation are replaced by the stored password, a `saveSucceeds` parameter and a counter. JWT signing and verification, including the secret and the seven-day expiry, are the `sign` and `decode` parameters.
- A malformed user id in a token makes the database lookup throw, which answers 401. The model covers any rejected lookup through the `lookupSucceeds` flag of `AuthRoutes.Verify`; why a lookup rejects (a malformed id, a database outage) is not modelled.

## Findings

| source | as written | input that shows it | evidently intended | confidence | as-written member | corrected member |
|---|---|---|---|---|---|---|
| frontend/src/components/charts/AqiHistoryChart.jsx:50-52 | the chart's average adds `null` points as 0 but still counts them in the length, so days without a reading (which the daily view emits as `null`) pull the average, and with it the chart colour, down | data `[40, null]`: average 20, chart coloured Moderate (`NullDilutesAverage`, `GapRecoloursChart`) | the mean of the readings that are present, 40, coloured Unhealthy for Sensitive, as the daily view itself averages non-null readings only (`AverageOfReadings`, `ChartStyleIntended`, proved gap-insensitive by `GapsIgnored` and `IntendedStyleIgnoresGaps`) | medium; not executed | AqiHistoryChart.GapRecoloursChart | AqiHistoryChart.ChartStyleIntended |
