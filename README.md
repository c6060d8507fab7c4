# ais-bun core in Dafny

A model of the request-handling core of the ais-bun AIS (vessel tracking) API
server, with proofs about it. The server is written in TypeScript on Bun and
Elysia. The model covers:

- **Search and pagination** (`handleQuery`). A request's query string becomes
  a `WHERE` fragment and the ordered parameter list `[filter?, limit, offset]`.
  `mmsi` is matched exactly; every other column is matched with `LIKE
  %value%`.
- **The route handlers' SQL.** These are the vessel and position listings,
  terminals (`/api/tersus`), cameras (`/api/cctvs`), the daily vessel count
  and the locations query. Each template is paired with its parameters. Under
  MySQL every handler's template has as many `?` placeholders as it has
  parameters. Under PostgreSQL the camera filter names its one parameter `$1`
  itself and holds no `?`.
- **The dialect adapter** (`executeQuery`). MySQL gets the template as it is.
  PostgreSQL gets every `?` rewritten to a `$n` reference. The code takes `n`
  from the `?`'s *character offset*, not from its position among the
  placeholders. This is modelled as written and reported under Findings.
- **The multi-location summary** (`/api/summaryTotalKapal`). Each location's
  peer server is asked for its daily count. A failure, or a missing count,
  counts as 0, and the total is the sum of the details.
- **Camera control** (`moveCamera`). It picks the vendor XML body and URL.
  For a Tiandy camera it sends the command to the ISAPI endpoint, falls back
  to the CGI endpoint, schedules a stop command, and maps the outcome to a
  result and a response status. A request that is rejected (a network error)
  is not caught, so it ends the handler with that error.

Modules:

| module | file | models |
|---|---|---|
| `Wrappers` | wrappers.dfy | `Option` |
| `Decimal` | decimal.dfy | integer-to-decimal text (`toString`, template interpolation) and its inverse parser |
| `Strings` | strings.dfy | character count, one-character `split`/`join`, ASCII `toLowerCase`, substring occurrence |
| `Dialect` | dialect.dfy | `executeQuery` and the PostgreSQL `?` rewrite; the intended ordinal rewrite |
| `QueryBuilder` | querybuilder.dfy | `handleQuery` |
| `Routes` | routes.dfy | each handler's template and parameters, and what PostgreSQL receives |
| `Summary` | summary.dfy | the `summaryTotalKapal` map and reduce |
| `Camera` | camera.dfy | `moveCamera`, over a `ResponseSettings` class standing for Elysia's `set` |

Inputs from the environment become parameters:

- `DB_CONNECTION` becomes a `Dialect`.
- `MEREK_CAMERA` becomes the `brand` string.
- `CAMERA_URL` becomes the `cameraUrl` string.
- `new Date()` becomes the `today` string.
- The network becomes one function parameter in each place that uses it:
  - `fetch` plus `response.json()` in the summary, from URL to outcome;
  - the PUT requests of the camera, from request to response.

`parseInt(id.trim())` in the cctvs handler becomes the `parseId` function
parameter, from piece to id.

## Model

| member | source | states |
|---|---|---|
| Decimal.NatToDecimal | src/index.ts:36 | the decimal text of a natural number is non-empty, all digits, and without a leading zero |
| Decimal.ParseNatToDecimal | src/index.ts:36 | reading the digits of NatToDecimal(n) back gives n |
| Decimal.IntToString | src/index.ts:22 | `toString` of an integer: non-empty; starts with `-` exactly for negatives; every other character is a digit |
| Decimal.IntToStringRoundTrip | src/index.ts:22 | ParseInteger(IntToString(i)) == Some(i): each parameter text stands for its number |
| Decimal.IntToStringInjective | src/index.ts:22 | two integers have the same text exactly when they are equal |
| Strings.Split | src/index.ts:119 | `split(',')` yields one more piece than there are separators |
| Strings.SplitPieces | src/index.ts:119 | no piece of a split holds the separator |
| Strings.JoinSplit | src/index.ts:119 | joining the pieces of a split with the separator gives the original text |
| Strings.SplitJoin | src/index.ts:119 | splitting a join of separator-free pieces gives those pieces back |
| Strings.LowerChar | src/index.ts:177 | `toLowerCase` on one character: upper-case ASCII letters move by 32, other characters stay |
| Strings.ToLower | src/index.ts:177 | `toLowerCase` keeps the length and lowers each character |
| Strings.ToLowerIdempotent | src/index.ts:177 | lowering twice is lowering once, and the result has no upper-case letter |
| Dialect.DialectOf | src/index.ts:34 | PostgreSQL exactly when `DB_CONNECTION` is `pgsql`; any other value means MySQL |
| Dialect.ParamRef | src/index.ts:36 | `$n` starts with `$`, holds no `?`, and its digits read back as n |
| Dialect.Subst | src/index.ts:36 | a template with its placeholders replaced by given references holds no `?`; a template without `?` is unchanged |
| Dialect.SubstAppend | src/index.ts:36 | replacement distributes over concatenation, each part taking its share of the numbers |
| Dialect.SubstAt | src/index.ts:36 | after a placeholder-free prefix, the next `?` takes the first number |
| Dialect.SubstKeepsText | src/index.ts:36 | every non-`?` character is kept in order: the result is the `?`-split pieces with the references between them |
| Dialect.RewriteFrom | src/index.ts:36 | the as-written rewrite from an offset leaves no `?`, and a template without `?` is unchanged |
| Dialect.PgRewrite | src/index.ts:36 | definition: the PostgreSQL template is the as-written rewrite from offset 0; what it holds is stated by Dialect.RewriteIsSubst, Dialect.PgRewriteKeepsText and Dialect.PgRewriteCounterexample |
| Dialect.OffsetNumbers | src/index.ts:36 | the as-written rewrite writes one number per placeholder |
| Dialect.OffsetNumbersBounds | src/index.ts:36 | the numbers lie past the start offset and within the template, strictly increase, and the i-th is at least the ordinal i + 1 |
| Dialect.OffsetNumbersMarkPlaceholders | src/index.ts:36 | every number written is one more than the offset of a `?` |
| Dialect.OffsetNumbersCoverPlaceholders | src/index.ts:36 | the `?` at offset k is given the number k + 1 |
| Dialect.RewriteIsSubst | src/index.ts:36 | the as-written rewrite is the placeholder replacement with the offset numbers |
| Dialect.OffsetNumbersAppend | src/index.ts:36 | the offset numbers of a concatenation are the first part's, then the second part's shifted by the first part's length |
| Dialect.RewriteNamesNoParameter | src/index.ts:36 | after a placeholder-free head at least as long as the template's placeholder count, every `$n` written is past the last parameter |
| Dialect.PgRewriteCounterexample | src/index.ts:35-36 | `? ?` is rewritten to `$1 $3`, not the `$1 $2` the comment describes |
| Dialect.PgRewriteKeepsText | src/index.ts:36 | the PostgreSQL template is the original text with the offset references standing in for the `?`s |
| Dialect.Ordinals | src/index.ts:35 | the numbers n + 1, ..., n + count |
| Dialect.OrdinalRewriteFrom | src/index.ts:35 | the ordinal rewrite leaves no `?`, and a template without `?` is unchanged |
| Dialect.OrdinalRewriteIsSubst | src/index.ts:35 | the ordinal rewrite is the placeholder replacement with the ordinals |
| Dialect.PgRewriteOrdinal | src/index.ts:35 | the intended PostgreSQL template: the i-th `?` becomes `$i`, nothing else changes |
| Dialect.OffsetNumbersAreOrdinalsIff | src/index.ts:35-36 | the code's numbers are the ordinals exactly when all placeholders come before every other character |
| Dialect.PgRewriteOrdinalExample | src/index.ts:35 | the ordinal rewrite gives `$1 $2` for `? ?` |
| Dialect.ExecuteQuery | src/index.ts:33-43 | parameters pass through unchanged; MySQL keeps the template; PostgreSQL gets no `?` and the offset references; a template without `?` reaches either engine unchanged |
| QueryBuilder.Value | src/index.ts:16 | definition: the query value of the search column, "" when absent; HandleQuery states how it selects the fragment and the first parameter |
| QueryBuilder.Page | src/index.ts:17 | definition: the parsed page, 1 when absent; HandleQuery states the offset computed from it |
| QueryBuilder.Limit | src/index.ts:18 | definition: the parsed limit, 10 when absent; HandleQuery states that it is the returned limit and the text before the offset |
| QueryBuilder.FilterClause | src/index.ts:25 | the filter clause adds exactly one placeholder to those of the column name |
| QueryBuilder.FilterValue | src/index.ts:26 | definition: the raw value for `mmsi`, `%value%` otherwise; HandleQuery states that it is the first parameter when a value is given |
| QueryBuilder.SearchFragment | src/index.ts:21-25 | definition: the fragment HandleQuery returns, named so that the route statements can state theirs; HandleQuery states that it is empty without a value and its placeholder count |
| QueryBuilder.SearchParams | src/index.ts:22-26 | definition: the parameter list HandleQuery returns, named so that the route statements can state theirs; HandleQuery states its length, order and read-back |
| QueryBuilder.HandleQuery | src/index.ts:15-30 | the limit defaults to 10 and the page to 1; the offset is (page - 1) * limit; without a value the fragment is empty and the parameters are limit and offset; with one, the filter value comes first (raw for `mmsi`, `%v%` otherwise); the last two parameters read back as limit and offset; fragment placeholders + 2 == parameters |
| Routes.Listing | src/index.ts:52 | definition: head, fragment, middle text, then `LIMIT ? OFFSET ?`; Routes.ListingPlaceholders states its placeholder count |
| Routes.ListingPlaceholders | src/index.ts:71-75 | a listing whose fixed text holds no `?` has the fragment's placeholders plus two |
| Routes.VesselsSql | src/index.ts:52 | definition: the vessel template around the fragment; Routes.VesselsPlaceholders and Routes.VesselsPgNumbers state what it holds |
| Routes.VesselsPlaceholders | src/index.ts:52 | the vessel template holds the fragment's placeholders plus two |
| Routes.VesselsStatement | src/index.ts:48-54 | the vessel listing's template and `handleQuery` parameters, with one placeholder per parameter |
| Routes.PositionsSql | src/index.ts:71-75 | definition: the whitespace-exact positions template around the fragment; Routes.PositionsPlaceholders states its placeholder count |
| Routes.PositionsPlaceholders | src/index.ts:71-75 | the positions template holds the fragment's placeholders plus two |
| Routes.PositionsStatement | src/index.ts:67-77 | the positions listing's template and parameters, with one placeholder per parameter |
| Routes.TersusPieces | src/index.ts:92-96 | the terminals template has no placeholder, and one with the name filter |
| Routes.TersusStatement | src/index.ts:90-100 | no name: the bare template with no parameters; a name: `WHERE name LIKE ?` with `%name%` bound; balanced either way |
| Routes.TersusBalanced | src/index.ts:92-98 | both shapes of the terminals statement are balanced |
| Routes.CctvsPieces | src/index.ts:115-124 | the bare and PostgreSQL camera templates hold no `?`; the MySQL one holds one |
| Routes.CctvsStatement | src/index.ts:113-128 | no id list: bare template, no parameters; a list: one id array, one id per comma-separated piece and in order, and the dialect's filter; balanced under MySQL; no `?` under PostgreSQL |
| Routes.CctvsBalanced | src/index.ts:115-125 | the camera statement is balanced under MySQL and holds no `?` under PostgreSQL |
| Routes.DailyPieces | src/index.ts:144-148 | the daily count template holds exactly one placeholder, its last character |
| Routes.DailyStatement | src/index.ts:142-150 | the daily count binds the requested date, or today without one, to its one placeholder |
| Routes.LocationsStatement | src/index.ts:168-172 | the locations query has no placeholder and no parameter |
| Routes.ListingNamesNoParameter | src/index.ts:36 | under PostgreSQL a listing with a long enough head names no bound parameter |
| Routes.VesselsPgNamesNoParameter | src/index.ts:50-54 | under PostgreSQL the vessel listing's every `$n` lies past its parameter list |
| Routes.PositionsPgNamesNoParameter | src/index.ts:69-77 | under PostgreSQL the positions listing's every `$n` lies past its parameter list |
| Routes.TersusPgNamesNoParameter | src/index.ts:92-100 | under PostgreSQL the name-filtered terminals query names `$n` past its one parameter |
| Routes.DailyPgNamesNoParameter | src/index.ts:144-152 | under PostgreSQL the daily count's placeholder names a parameter past its one date |
| Routes.PaginationTailNumbers | src/index.ts:52 | the `LIMIT ? OFFSET ?` placeholders get the numbers offset + 7 and offset + 16 |
| Routes.ListingNumbers | src/index.ts:52 | a listing without a filter gets the numbers of its two pagination placeholders' offsets |
| Routes.VesselsPgNumbers | src/index.ts:50-54 | the unfiltered vessel listing gets `$39` and `$48`, shifted by the fragment's length, for its two parameters |
| Routes.PgRewriteOrdinalBindsInOrder | src/index.ts:35 | under the ordinal rewrite a balanced statement's i-th `?` becomes `$i`, one for each parameter |
| Routes.PaginationTailOrdinal | src/index.ts:35 | under the ordinal rewrite the pagination placeholders become the next two references |
| Routes.VesselsPgOrdinal | src/index.ts:35 | under the ordinal rewrite the unfiltered vessel listing ends `LIMIT $1 OFFSET $2` with the rest kept |
| Summary.PeerUrl | src/index.ts:177 | the peer URL is `https://bebun`, the lower-cased name, `.cakrawala.id/api/getTotalKapalDaily`, and `?date=<date>` only when a date is given |
| Summary.PeerUrlIgnoresCase | src/index.ts:177 | names differing only in case address the same peer |
| Summary.PeerUrlDateInjective | src/index.ts:177 | different dates give different peer URLs |
| Summary.Metric | src/index.ts:182-189 | definition: the count of a fetched answer, 0 for a missing count and for a failure; Summary.Details and Summary.NoCountsTotalZero state its use |
| Summary.Details | src/index.ts:175-191 | one detail per location, in the locations' order, each holding that location's zero-substituted count |
| Summary.FoldTotal | src/index.ts:196 | definition: the `reduce` as a left fold from acc; Summary.FoldTotalIsSum states that it is acc plus the sum of the counts |
| Summary.SumTotalsAppend | src/index.ts:196 | the sum of two lists of details is the sum of the sums |
| Summary.FoldTotalIsSum | src/index.ts:196 | the left fold from acc is acc plus the sum of the counts |
| Summary.SummaryTotalKapal | src/index.ts:175-211 | details keep the locations' order and names; each count is the peer's count, or 0 on a failure or a missing count; the total is the sum of the details |
| Summary.SumTotalsZero | src/index.ts:196 | all counts 0 give a total of 0 |
| Summary.NoCountsTotalZero | src/index.ts:182-189 | when every peer fails or answers without a count, the total is 0 |
| Summary.DetailsAppend | src/index.ts:175-193 | the details of concatenated location lists are the concatenated details |
| Summary.SummaryAppend | src/index.ts:193-196 | splitting the locations splits the details and adds the totals |
| Summary.ThreeLocations | src/index.ts:175-196 | a failure, a count of 5 and a failure give total 5 with the failed locations at 0, in order |
| Summary.SumTotalsBounds | src/index.ts:196 | without negative counts each count lies between 0 and the total |
| Camera.Truthy | src/cameraControl.ts:12 | definition: `direction.tilt` is truthy when present and non-zero; Camera.HikvisionBodyTilt states the `<tilt>` element follows it |
| Camera.TiltOrZero | src/cameraControl.ts:21 | definition: the tilt when it is truthy, 0 otherwise; Camera.TiandyBodyAxes states the Tiandy `<tilt>` holds it |
| Camera.HikvisionBody | src/cameraControl.ts:10-16 | definition: the Hikvision momentary body; Camera.HikvisionBodyTilt and Camera.HikvisionBodyPan state what it holds |
| Camera.TiandyBody | src/cameraControl.ts:19-23 | definition: the Tiandy continuous body; Camera.TiandyBodyAxes states what it holds |
| Camera.FailureMessage | src/cameraControl.ts:56 | the failure message is the fixed text followed by the status code, which reads back as that status |
| Camera.HikvisionBodyTilt | src/cameraControl.ts:10-16 | the Hikvision body has a `<tilt>` element exactly when the tilt is present and non-zero, and it then holds that tilt |
| Camera.HikvisionBodyPan | src/cameraControl.ts:11 | the Hikvision body holds the pan in `<pan> ... </pan>` |
| Camera.TiandyBodyAxes | src/cameraControl.ts:19-23 | the Tiandy body always holds a tilt element with the tilt, or 0 without one, and the pan element |
| Camera.FallbackUrlDiffers | src/cameraControl.ts:24-47 | the CGI fallback URL differs from the ISAPI one |
| Camera.MoveCameraSpec | src/cameraControl.ts:3-75 | unknown brand: status 400, failure message, nothing sent; Hikvision: nothing sent, success, momentary body and URL; Tiandy: ISAPI first, CGI only when a response arrived that is not ok (at most two requests), no result and nothing set or scheduled when the last request was rejected, success exactly when the last response was ok, stop command to that URL, otherwise the CGI status and a message naming it; JSON headers exactly on success |
| Camera.ResponseSettings.constructor | src/cameraControl.ts:3 | the `set` object with no status and no headers assigned; Camera.MoveCamera states which of its fields lines 55, 69 and 73 assign |
| Camera.MoveCamera | src/cameraControl.ts:3-75 | the method's result (none when a request was rejected), final body and URL, awaited requests and stop request are those of MoveCameraSpec; `set.status` and `set.headers` change only where the handler assigns them |

In more detail, `Camera.MoveCameraSpec` states the following:

- An unknown brand returns `success: false` with the "not found or not
  supported" message and status 400, and sends nothing.
- Hikvision sends nothing and succeeds. Its body is the momentary command and
  its URL ends `/ISAPI/PTZCtrl/channels/1/momentary`.
- Tiandy sends the continuous command to `/ISAPI/PTZCtrl/channels/1/continuous`.
  It sends a second request, to `/CGI/PTZCtrl/channels/1/continuous`, exactly
  when a response to the first arrives and is not ok. So at most two requests
  are made, and none after a rejected one.
- When the last request is rejected the handler gives no result: it sets no
  status and no headers and schedules no stop command.
- Tiandy succeeds exactly when the last response was ok. Then the stop body
  (pan 0, tilt 0) goes to that request's URL and no status is set.
- Otherwise a response to the CGI request arrived, the status is its status
  and the message names it.
- The JSON content type is set exactly on success.

## Left out

- Strings.LowerChar: only the ASCII letters `A`-`Z` are lowered; JavaScript's `toLowerCase` also lowers non-ASCII letters such as `É`.
- Strings.ToLower: only ASCII letters are lowered; JavaScript's `toLowerCase` also maps non-ASCII letters.
- Dialect.RewriteFrom: character offsets are taken as positions in the string; JavaScript counts UTF-16 code units, so the numbers differ for templates with non-BMP characters (the fixed templates have none).
- Decimal.IntToString: renders any integer as plain decimal digits; `Number.prototype.toString` switches to exponent form at 1e21 and loses precision past 2^53.
- `parseInt` is not modelled. `page` and `limit` are given as optional integers, so `NaN` offsets and non-numeric limits are out of scope. The cctvs `parseInt(id.trim())` is a function parameter.
- `total_kapal` is taken as an integer. PostgreSQL's `COUNT` arrives as a string, so with pg the JavaScript `+` in the reduce would concatenate text; this model sums numbers.
- Summary.Metric: a falsy count (`0`) and a missing count both give 0, which is the same value; `NaN` or non-numeric counts are not modelled.
- The network, JSON parsing and the database engines are parameters (`fetch`, `send`) or left out. So are `connection.end()`, `console.error`, and the database connection and Redis client factories, which are pure I/O.
- The `set.headers` assignments in src/index.ts, the response envelopes (`message`, `code`), CORS and Elysia routing are framework glue. They are left out except in the camera handler, where the headers are part of its result.
- The Tiandy request headers and cookies (src/cameraControl.ts:26-38) are constants sent with every request. They are left out of `Put`.
- The 500 ms `setTimeout` before the stop command: only its target and body are modelled, as the returned `stop` request, not its timing or its response.
- `Promise.all` concurrency is a sequential map, since its output keeps the input order.
- `new Date().toISOString().split('T')[0]` is the `today` parameter of DailyStatement.
- An unset `CAMERA_URL` would be interpolated as the text `undefined`; the model takes the base URL as a given string.
- Summary.Details: `fetch` is a function of the URL, so locations with the same peer URL (equal names, or names differing only in case) receive the same outcome; the source sends one request per location, and those requests could fail or answer differently.
- Camera.MoveCamera: a rejected request is modelled as a result of None; the error value the handler then rejects with, and what Elysia makes of it, are not modelled.
- Camera.MoveCamera: `send` is a function, so the same request always receives the same response. The two requests the handler sends differ in URL (FallbackUrlDiffers), so this does not constrain the fallback.
- The frigate proxies (`/api/frigate`, `/api/frigatevod`) and the server start-up are outside the modelled core.

## Findings

| source | as written | input that shows it | evidently intended | confidence | as-written member | corrected member |
|---|---|---|---|---|---|---|
| src/index.ts:36 | `sql.replace(/\?/g, (_, i) => ...)` uses the match's character offset `i`. The `?` at offset k becomes `$(k+1)`. | The template `? ?` becomes `$1 $3`. The unfiltered vessel listing `SELECT * FROM ais_data_vessels  LIMIT ? OFFSET ?` becomes `... LIMIT $39 OFFSET $48` with only two parameters bound. | The i-th `?` becomes `$i`, as the comment on line 35 says. The vessel listing would then end `LIMIT $1 OFFSET $2`. | not executed | Dialect.PgRewriteCounterexample, Routes.VesselsPgNumbers, Routes.VesselsPgNamesNoParameter | Dialect.PgRewriteOrdinal, Routes.VesselsPgOrdinal |

The as-written rewrite gives every parameterised listing, the terminals filter
and the daily count `$n` references beyond their parameter lists. The
`*PgNamesNoParameter` lemmas show this. The only exception is the PostgreSQL
cameras filter, which writes `$1` itself and has no `?`.
`Dialect.OffsetNumbersAreOrdinalsIff` shows that the code's numbering matches
the intended one only when every placeholder comes before every other
character of the template. `Dialect.ExecuteQuery` keeps the code's behaviour.
