# Sweven MCP server — a Dafny model of its core

The Sweven MCP server puts a few Sweven API calls behind Model Context Protocol
tools. Behind those tools sit three pieces of logic, and this project models
each of them as pure Dafny functions and proves properties about them:

* **Tracking summary.** `get_trackings_summary` folds a member's time-tracking
  entries into four outputs: a total time printed as `HH:MM:SS`, a count of
  distinct work-order ids, per-day millisecond buckets (`detailed_by_date`),
  and, in the TypeScript server (`index.ts`) and the older stdio server
  (`index.js`, whose `getHeaders` logs in on every call), a per-day list of
  deduplicated `code|HH:MM:SS|id` strings. The multi-session server and the
  reporting script run the same fold without those strings. The script also
  converts the buckets to hours.
* **AuthService.** It holds the configuration record (email, password, cached
  JWT). `login` may overwrite the credentials, refuses to proceed without them,
  calls the login endpoint once, and caches the token it gets back.
  `ensureAuthenticated` answers from the cache when it can. `loadConfig`
  exists in two versions: the newer one merges environment values and the
  config file, and the legacy one replaces the record with the file.
* **SSE session routing.** The multi-session server keeps a map from
  session id to transport. It routes `POST /messages` by the id in the query
  string or the body, answering 400 when no id is given and 404 when the id
  is unknown. The single-client server keeps one slot and answers 503 while
  the slot is empty.

Modules, one per file:

| file | module | contents |
|---|---|---|
| Wrappers.dfy | `Wrappers` | `Option`, `Result` |
| JsValues.dfy | `JsValues` | JavaScript scalars (`undefined`, `null`, numbers, strings), truthiness, template-literal rendering, `padStart`, truncating `%`, decimal printing and parsing |
| Clock.dfy | `Clock` | the `HH:MM:SS` formatter (`Math.floor`, JavaScript `%`, `padStart`) and a parser that inverts it |
| Lists.dfy | `Lists` | the `includes`/`push` append and the deduplicated list it builds |
| Tracking.dfy | `Tracking` | the tracking fold, reference definitions of what it computes, the summary and the hours report |
| Auth.dfy | `Auth` | configuration, `login`, `ensureAuthenticated`, `getToken`, both `loadConfig` versions |
| Sessions.dfy | `Sessions` | the session registry, `/messages` routing, the single-slot server |
| Gateway.dfy | `Gateway` | the `getHeaders` variants, the `set_credentials` and `get_trackings_summary` tool handlers |

Modelling conventions:

* Timestamps are integer milliseconds since the epoch. An entry's day is
  `start / 86400000`, which is the UTC date the source takes from
  `toISOString()`. The model keys days by this day number, not by the
  `YYYY-MM-DD` string.
* JavaScript `%` truncates toward zero and is written out as `JsValues.JsRem`.
  `Math.floor` of a quotient by a positive constant is Dafny's `/`.
* Network replies are parameters. `Auth.LoginReply` is either the JSON body
  (with or without `jwtToken`) or a transport error. `Gateway.Fetched` holds
  the tracking and note reads. `Auth.Outcome` and `Gateway.HeaderOutcome`
  record how many login requests were sent, so "the endpoint is not called"
  can be stated; `Gateway.SummaryOutcome` counts only the data reads that
  follow authentication, and `Gateway.SetCredentials` returns the reply text
  alone (its request count is the one `Auth.Login` reports).
* The order in which the source first inserts each day key into its
  `timesByDate` object is kept as a sequence (`Tally.dates`).

## Model

| member | source | states |
|---|---|---|
| Tracking.Scan | index.ts:107-113 | the running total after the whole `forEach` equals the sum of `end - start` over all entries |
| Tracking.ScanBuckets | index.ts:115-116 | the day buckets exist for exactly the days some entry starts on, and each holds the sum of that day's durations |
| Tracking.ScanDates | index.ts:115 | the days appear in the order of first occurrence: the key order is the entries' day sequence with repeats removed |
| Tracking.ScanIds | index.ts:120-131 | the id set is exactly the ids of entries with a truthy work-order code (likewise index.js:91-101) |
| Tracking.ScanWorkOrders | index.ts:118-130 | each day's list is the deduplicated sequence of that day's coded entries' `code\|HH:MM:SS\|id` strings (likewise index.js:89-99) |
| Tracking.WorkOrderLists | index.ts:118-130 | a day has a list iff it has an entry; the list has no duplicates; its members are exactly that day's strings; it keeps first-seen order; it is empty iff none of that day's entries is coded |
| Tracking.BucketsSumToTotal | index.ts:113-116 | the buckets, summed in key order, add up to the total (likewise index.js:85-88) |
| Tracking.IdCountUnchanged | index.ts:120-131 | appending an uncoded entry, or one whose id is already counted, leaves the id count unchanged |
| Tracking.StepUncoded | index.ts:120 | an entry without a truthy code adds its duration to the total and its day but adds no id and no string |
| Tracking.StepFramesOtherDays | index.ts:115-130 | processing an entry leaves the buckets and lists of every other day unchanged |
| Tracking.Summarize | index.ts:102-145 | `total_time` prints the total duration; `total_notes` is the note count; `total_work_orders` is the number of distinct coded ids; `detailed_by_date` maps each day with an entry to that day's total |
| Tracking.OneDayExample | index.ts:102-145 | two entries on 2024-01-01 (90 min coded and 15 min uncoded) give `01:45:00`, one work order, and 6300000 ms on that day |
| Tracking.BasicScan | dist/index.js:73-88 | the fold without work-order strings computes the same total, ids, key order and buckets as the full fold |
| Tracking.SummarizeBasic | dist/index.js:73-98 | the multi-session server's summary equals the TypeScript server's summary on every input; the reporting script (dist/scripts/get_summary.js:29-55) runs the same fold, so its total, id count and buckets have the same properties |
| Tracking.ExampleWorkOrderString | index.ts:121-126 | a 90-minute entry coded `WO1` with id `1` gives `WO1\|01:30:00\|1`: code, clock, id in that order |
| Tracking.BuildReport | dist/scripts/get_summary.js:29-60 | the report has a key for exactly each day with an entry; each day's hours times 3600000 equal that day's milliseconds; the same holds for the total hours; the note count is the number of notes read; the id count and printed total are as in the summary |
| Clock.Split | index.ts:135-138 | for a non-negative duration, minutes and seconds are below 60 and hours, minutes and seconds recombine into the whole seconds |
| Clock.Format | index.ts:135-141 | for a non-negative duration, parsing the printed `HH:MM:SS` gives back the duration's whole seconds; below 100 hours the text has exactly eight characters, and from 10 hours on it does not start with `0` (`padStart` never adds a zero to a field already two digits long) |
| Clock.HourAndAHalf | index.ts:135-141 | 5400000 ms prints as `01:30:00` |
| Clock.HundredSixtyHours | index.ts:135-141 | 576000000 ms prints as `160:00:00` (likewise dist/scripts/get_summary.js:52) |
| Clock.FormatInjective | index.ts:135-141 | two non-negative durations print the same iff they have the same whole seconds |
| Clock.NegativeSecond | index.ts:135-141 | a total of -1000 ms prints as `-1:-1:-1`, because JavaScript `%` keeps the sign |
| Clock.HourAndThreeQuarters | index.ts:135-141 | 6300000 ms prints as `01:45:00` |
| JsValues.JsRem | index.ts:137-138 | JavaScript `%` by a positive divisor: the result is smaller than the divisor in magnitude, has the sign of the dividend when non-zero, and is Euclidean `%` for a non-negative dividend |
| JsValues.JsRemOdd | index.ts:137-138 | negating the dividend negates the remainder, so with the non-negative case every value is fixed |
| JsValues.JsRemExample | index.ts:137-138 | `-8 % 3` is `-2`, not the Euclidean `1` |
| JsValues.ParseNatToString | index.ts:141 | the decimal text `String(n)` of a natural number parses back to `n` |
| Lists.AppendNew | index.ts:128-130 | `includes`-then-`push`: the value is present afterwards; nothing is lost or invented; an existing value leaves the list unchanged; a new one is appended at the end; a duplicate-free list stays duplicate-free |
| Lists.DedupMembers | index.ts:128-130 | the list built by repeated `includes`/`push` has exactly the members of its input |
| Lists.DedupDistinct | index.ts:128-130 | that list has no duplicates |
| Lists.DedupFirstSeen | index.ts:128-130 | that list keeps the values in the order of their first occurrence |
| Auth.Login | dist/auth.js:43-73 | at most one request; both arguments present ⇒ they overwrite the stored credentials, otherwise these are kept; "Credentials not set" iff the stored credentials are incomplete iff no request is sent; once a request is sent the reply decides: a non-empty `jwtToken` is returned and stored, a reply without one fails with `Invalid login response`, a transport error fails with `Login failed: ` and its message; on failure the token is unchanged; the legacy `login` (auth.js:70-99) has the same branches and messages |
| Auth.LoginReturnsIssuedToken | dist/auth.js:43-61 | whether the credentials come as arguments or are already stored, a reply carrying a non-empty `jwtToken` is returned and cached after one request |
| Auth.GetToken | dist/auth.js:80-82 | a cached usable token is reported as is, whether it came from a login, the file or `SWEVEN_TOKEN`, and nothing usable is reported without one; a reported token is exactly what `ensureAuthenticated` answers from the cache, with no request (likewise auth.js:100-102) |
| Auth.LoginThenGetToken | dist/auth.js:80-82 | after a successful login `getToken` returns the token `login` returned (likewise auth.js:100-102) |
| Auth.TransportErrorWrapped | dist/auth.js:67-71 | a transport error surfaces as `Login failed: ` followed by its message (likewise auth.js:93-97) |
| Auth.MissingTokenNotWrapped | dist/auth.js:63-64 | a reply without a usable `jwtToken` surfaces as `Invalid login response`, not wrapped (likewise auth.js:89-91) |
| Auth.LoginWithoutCredentials | dist/auth.js:49-51 | with an empty configuration `login()` fails with "Credentials not set" and sends nothing |
| Auth.EnsureAuthenticated | dist/auth.js:74-79 | a non-empty cached token is returned without a request; otherwise it is `login()` |
| Auth.EnsureIssuesToken | dist/auth.js:74-79 | without a cached token but with stored credentials, the token issued by the one login request is returned and cached (the legacy `getHeaders` reaches the same `login()` at index.js:18) |
| Auth.EnsureTwice | dist/auth.js:74-79 | after a successful call the next call is answered from the cache; after a failed request the next call sends a request again |
| Auth.LoadConfig | dist/auth.js:15-34 | no file: nothing changes; an unreadable file: the environment values are still applied; a complete environment pair or token overrides; otherwise an existing email, password or token wins, and the file's email, password or token fills only an absent one |
| Auth.StartupMerge | dist/auth.js:15-34 | at startup the email and password are the environment pair when both are set and the file's otherwise, and the token is the environment token when set and the file's otherwise; with no environment the result is the legacy loader's |
| Auth.LoadConfigReplace | auth.js:51-61 | the legacy loader replaces the record with a parsed file and otherwise keeps it |
| Sessions.Open | dist/index.js:166 | registering a session adds or replaces exactly that id and keeps every other entry |
| Sessions.Close | dist/index.js:173-176 | closing removes exactly that id and keeps every other entry |
| Sessions.Route | dist/index.js:179-196 | 400 iff neither the query id nor the body id is truthy; forwarded iff the chosen id is registered; the query id wins over the body id; otherwise 404 |
| Sessions.RouteAfterOpen | dist/index.js:166-195 | a freshly opened session is reached by its id in the query or in the body |
| Sessions.RouteAfterClose | dist/index.js:173-195 | closing a session makes its id answer 404 and changes the answer for no other id |
| Sessions.CloseUnknown | dist/index.js:175 | closing an unregistered id changes nothing |
| Sessions.QueryWins | dist/index.js:181-184 | with a query id the body is ignored |
| Sessions.ReplayRegistered | dist/index.js:154-176 | after any sequence of opens and closes, an id is registered iff its last event was an open, and it maps to that open's transport |
| Sessions.Connect | index.ts:227 | after a connection every message is forwarded to the new transport |
| Sessions.PostMessage | index.ts:231-239 | 503 iff the slot is empty; otherwise forwarded to the slot's transport |
| Sessions.SlotLatestWins | index.ts:215-239 | after two connections every message goes to the later one; after any connection there is no 503 |
| Gateway.GetHeaders | index.ts:26-32 | a cached token yields `Bearer` headers with no request; without one the outcome is `login()`'s: its configuration, its request count, success exactly when it succeeds, and its error; any success carries the token now stored |
| Gateway.GetHeadersByLogin | index.js:17-23 | the legacy server logs in on every call: the outcome is always `login()`'s (configuration, request count, success, error), so stored credentials mean one request each time |
| Gateway.HeadersCompared | index.js:17-23 | with a cached token the legacy server still sends one request and uses the new token, while the newer one sends none and uses the cached token |
| Gateway.SetCredentials | index.ts:36-56 | success text iff `login(email, password)` succeeds; a failed login gives an error-flagged result whose text is exactly `Failed to set credentials: ` and the error message; the configuration left behind is `login`'s, so an issued token is cached for the next call; non-empty arguments are stored either way |
| Gateway.TrackingsSummary | index.ts:87-157 | an authentication failure sends no read; a summary is returned iff authentication and both reads succeed, and it is `Summarize` of what was read; each failure's text is the tool's prefix followed by that failure's own message (authentication, trackings read or notes read); a failed trackings read means one read, otherwise after authentication there are two; the configuration left behind is `getHeaders`', so a token obtained during the call stays cached |

## Left out

- HTTP: the axios calls, the URLs and their query strings, and Express, CORS and the SSE transport internals. Replies are parameters and requests are counted.
- Request validation by zod, including the email-format check of `set_credentials`. The model accepts any string.
- The file system: `saveConfig` and the JSON (de)serialisation of `config.json`. A file is missing, unreadable or parsed into fields. Fields that hold JSON `null` are treated as absent.
- `Auth.LoadConfig`: a config file may carry extra keys or non-string values. The model has only the three string fields.
- The JSON text of tool results (`JSON.stringify(summary, null, 2)`). The model returns the summary record.
- `Date` parsing of `start_date`/`end_date`, invalid dates (`NaN`), and rendering day keys as `YYYY-MM-DD`. Days are day numbers.
- `Tracking.BuildReport`: `toFixed(2)` rounding and the `" hours"` suffix are not modelled. The hours are exact reals.
- The reporting script's hard-coded member id and period, its `member_id` and `period` fields, and its console output.
- `get_team_members`, `get_notes` and `get_work_order_details`. They only pass a reply through; their errors are wrapped in the same pattern as `Gateway.TrackingsSummary`'s, each with its own prefix (`Error fetching team members: `, `Error fetching notes: `, `Error fetching work order details: `).
- Concurrency between requests and overlapping `login` calls.
- Number printing beyond integers (fractions, exponents, `NaN`) and array-valued `sessionId` query parameters.
- The scripts `dist/verify.js`, `dist/scripts/verify_connection.js` and `dist/scripts/reproduce_issue.js`, and the type declarations in `auth.d.ts`.

Where the code does something other than its comments or its names suggest, the model follows the code:

- `dist/auth.js` applies the environment variables only when the config file exists (line 16 guards the whole block), although the comment at line 27 says the environment is preferred. Without a file, the environment is ignored.
- Opening a session whose id is already registered replaces the old transport (`Map.set`). There is no duplicate-session error.
- `workOrdersByDate` is computed but never put into the returned summary. The model computes it and proves its properties, but `Summarize` does not output it.
- After a failed login `ensureAuthenticated` caches nothing, so the next call contacts the endpoint again.
- A negative total duration prints with negative components, for example `-1:-1:-1`.
