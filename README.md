# URL shortener core in Dafny

This project models the request handlers of a small URL-shortening server. It
also models the response envelope those handlers report through:

- `createShortUrl` validates `original_url` and `alias` and picks a short
  code. The code is the custom alias, or a random base-36 code when there is no
  alias. It then computes the expiry and inserts a row into the `urls` table.
  A duplicate key is reported as "Alias is already taken".
- `redirectToOriginal` looks a code up, increments that row's `click_count`
  (the update completes before the reply), and redirects with 302.
- `getAnalytics` looks a code up, checks its expiry and reports the stored
  fields. It never writes.
- `res.success` / `res.error` build the `{success, message, data?, error?}` envelope.

The table is a `map` from `short_code` to `UrlRecord(original_url, expires_at,
click_count, created_at)`. Each handler appears twice in `UrlController`:

- as a function from the request, the table and the current time (milliseconds)
  to an `Outcome`, which pairs the reply with the table afterwards;
- as a method of the class `UrlStore`, which goes through the handler's steps
  and updates its `rows` field in place. Each method's postcondition ties it to
  the function and states what stays unchanged.

`UrlProperties` proves the handlers' properties over the functions.
`ExpiryFindings` sets the expiry checks as written against the intended ones.

Three things the program gets from its environment are parameters:

- the current time `now`;
- `randomText`, the text `Math.random().toString(36)` produced. The generated
  code is that text's `substring(2, 8)`, with JavaScript's clamping;
- `storeFault`, standing for an insert that fails for a reason other than a
  duplicate key.

JavaScript semantics the handlers depend on are written out in `JsSemantics`:

- truthiness;
- `alias.length`, which counts UTF-16 code units, so a character outside the
  Basic Multilingual Plane counts twice;
- the `<` between `row.expires_at` and `new Date()`. There undefined converts
  to NaN (the test is always false), null to 0, and a Date to its milliseconds.

The model follows the code on these points, whatever one might expect of a URL shortener:

- No click-event rows are written and there is no geography or recent-click
  report. The click increment is awaited before the redirect; it is not
  fire-and-forget.
- A generated code is at most 6 characters from `[0-9a-z]`.
  It is empty when the random number is exactly 0 (`RandomCode`).
- Any non-zero `expiresIn` sets an expiry, including a negative one (which lies
  in the past). Only a missing value or 0 gives `null`.
- The expiry checks behave as listed under "## Findings".

## Model

| member | source | states |
|---|---|---|
| `JsSemantics.Utf16Length` | src/controllers/urlController.js:24 | the JavaScript length of a string lies between its character count and twice it |
| `JsSemantics.Utf16LengthOfBmp` | src/controllers/urlController.js:24 | for text without characters beyond U+FFFF the JavaScript length is the character count |
| `JsSemantics.Substring` | src/controllers/urlController.js:36 | `substring` never lengthens the text, takes at most `end - start` characters, and is the plain slice when the indices are in range; it indexes characters, which agrees with JavaScript's UTF-16 indexing on text inside the Basic Multilingual Plane |
| `JsSemantics.Truthy` | src/middlewares/responseHandler.js:28 | a value is truthy if and only if it is none of undefined, null, false, 0, NaN and the empty string; every object is truthy; numbers may be fractional |
| `JsSemantics.StringTruthy` | src/controllers/urlController.js:16-22 | a string field has the truthiness of the JavaScript string it holds, or of undefined when missing |
| `JsSemantics.IntTruthy` | src/controllers/urlController.js:40 | an integer field has the truthiness of the JavaScript number it holds, or of undefined when missing |
| `JsSemantics.BeforeNow` | src/controllers/urlController.js:78 | `expires_at < new Date()` holds exactly when the value converts to a number (undefined converts to NaN, null to 0, a Date to its milliseconds) and that number is less than now |
| `UrlController.MatchesAliasPattern` | src/controllers/urlController.js:27 | a text matching `/^[a-zA-Z0-9-_]+$/` has a JavaScript length equal to its character count, and a valid alias is exactly a match of at most 20 characters |
| `UrlController.IsRandomText` | src/controllers/urlController.js:36 | every text `Math.random().toString(36)` can give lies inside the Basic Multilingual Plane and is "0" or at least three characters long |
| `ResponseHandler.Success` | src/middlewares/responseHandler.js:10-16 | sets the given status, `success: true`, the given message and `data`, and never an `error` field |
| `ResponseHandler.Error` | src/middlewares/responseHandler.js:19-31 | sets the given status, `success: false`, the message, no `data`; carries `error` if and only if the argument is truthy, and then that value |
| `ResponseHandler.HelperDefaults` | src/middlewares/responseHandler.js:10-22 | the defaults are data null, "Success", 200 and "Internal Server Error", 500, no `error` field; an undefined or empty `error` adds no field |
| `UrlController.RandomCode` | src/controllers/urlController.js:36 | for any text `Math.random().toString(36)` can give, the code has at most 6 characters, all from `[0-9a-z]`, and is empty only for the text "0" |
| `UrlController.ChooseCode` | src/controllers/urlController.js:22-37 | a truthy alias is accepted if and only if it is 1 to 20 characters from `[A-Za-z0-9_-]`, and then verbatim; a refusal carries the length or the character message; a falsy alias gives the random code |
| `UrlController.ExpiryFor` | src/controllers/urlController.js:40-42 | an expiry exists exactly when `expiresIn` is non-zero, and then lies `expiresIn` × 3,600,000 ms after now |
| `UrlController.ExpiresAtAsRead` | src/controllers/urlController.js:72-78 | a row fetched with only `original_url` reads `expires_at` as undefined; with every column, as null exactly when no expiry is stored and otherwise as the stored timestamp |
| `UrlController.InsertOutcome` | src/controllers/urlController.js:44-58 | a database fault gives 500 "Internal Server Error" and no change; a taken code gives 400 "Alias is already taken" and no change; a free code gives 200 with `http://localhost:3000/<code>` and exactly the new row added |
| `UrlController.CreateOutcome` | src/controllers/urlController.js:12-59 | creation answers JSON, keeps every existing row as it was and adds at most one key |
| `UrlController.Clicked` | src/controllers/urlController.js:82-83 | the counter goes up by one and every other column is kept |
| `UrlController.RedirectOutcome` | src/controllers/urlController.js:68-86 | the set of codes never changes and every row other than the requested one is kept |
| `UrlController.AnalyticsReply` | src/controllers/urlController.js:95-115 | analytics answers JSON and succeeds only for a stored code |
| `UrlController.UrlStore.constructor` | tests/url.test.js:7-10 | a fresh table is empty |
| `UrlController.UrlStore.CreateShortUrl` | src/controllers/urlController.js:12-59 | the in-place handler gives the reply and table of `CreateOutcome`, never alters an existing row and adds at most one |
| `UrlController.UrlStore.RedirectToOriginal` | src/controllers/urlController.js:68-86 | the in-place handler gives the reply and table of `RedirectOutcome`, keeps the set of codes and every other row |
| `UrlController.UrlStore.GetAnalytics` | src/controllers/urlController.js:95-115 | the handler answers `AnalyticsReply` and may not modify the table |
| `UrlProperties.LastSegment` | tests/url.test.js:115 | `split("/").pop()` is the longest slash-free suffix of the URL: it contains no slash and is either the whole text or preceded by a slash |
| `UrlProperties.LastSegmentAfterSlash` | tests/url.test.js:115 | the last segment of `http://localhost:3000/` followed by a slash-free code is that code |
| `UrlProperties.CreateRequiresUrl` | src/controllers/urlController.js:16-18 | a missing or empty URL gives 400 "Original URL is required" whatever the alias, and the table is unchanged |
| `UrlProperties.CreateRejectsLongAlias` | src/controllers/urlController.js:24-26 | an alias over 20 units gives 400 "Alias must be 20 characters or less" even when its characters are also bad; the table is unchanged |
| `UrlProperties.CreateRejectsAliasCharacter` | src/controllers/urlController.js:27-32 | an alias of at most 20 units with a character outside `[A-Za-z0-9_-]` gives 400 with the character message; the table is unchanged |
| `UrlProperties.CreateWithAlias` | src/controllers/urlController.js:33-55 | a valid alias is the code verbatim: if taken, 400 "Alias is already taken" and no change; otherwise 200 with `http://localhost:3000/<alias>` and exactly one new row (URL, expiry, count 0, created now) |
| `UrlProperties.CreateWithGeneratedCode` | src/controllers/urlController.js:34-37 | without an alias the code has at most 6 characters from `[0-9a-z]`, a non-empty one passes the alias rules; a taken code gives 400 "Alias is already taken" and no change, a free one 200 with its short URL and exactly the new row, a database fault 500 |
| `UrlProperties.CreateStoreFault` | src/controllers/urlController.js:56-57 | any other insert failure on valid input gives 500 "Internal Server Error" and stores nothing |
| `UrlProperties.CreateReplyMatchesTable` | src/controllers/urlController.js:44-58 | the table changes exactly when the reply is a success; a failure is 400 or 500; a success is 200 with a short URL whose last segment is a previously free code now holding exactly the new row |
| `UrlProperties.AliasTakenOnSecondCreate` | tests/url.test.js:85-103 | creating the same free valid alias twice succeeds, then answers 400 "Alias is already taken" and stores nothing |
| `UrlProperties.RedirectUnknown` | src/controllers/urlController.js:75-77 | an unknown code gives 404 "URL not found" and no change |
| `UrlProperties.RedirectKnown` | src/controllers/urlController.js:82-85 | a known code redirects with 302 to its URL and its counter goes up by exactly one |
| `UrlProperties.RedirectNeverExpired` | src/controllers/urlController.js:72-80 | redirect never answers "URL expired"; it redirects if and only if the code is stored |
| `UrlProperties.RedirectCountsEveryVisit` | src/controllers/urlController.js:82-83 | N redirects of a known code raise its counter by exactly N and change no other row |
| `UrlProperties.AnalyticsUnknown` | src/controllers/urlController.js:102-104 | an unknown code gives 404 "URL not found" |
| `UrlProperties.AnalyticsExpired` | src/controllers/urlController.js:105-107 | a row whose expiry lies before now, or that has none while now is positive, gives 404 "URL expired" |
| `UrlProperties.AnalyticsReportsRow` | src/controllers/urlController.js:108-114 | otherwise the reply is 200 with URL, code, creation time, expiry and click count exactly as stored |
| `UrlProperties.AnalyticsAfterCreate` | src/controllers/urlController.js:40-42 | a link created at t with `expiresIn` h is reported if and only if now is at most t + h hours |
| `UrlProperties.AnalyticsSeesRedirect` | src/controllers/urlController.js:82-83 | analytics after a redirect report the counter one higher and everything else as before |
| `UrlProperties.HandlerEnvelopes` | src/middlewares/responseHandler.js:24-28 | every JSON reply of the three handlers is a well-formed envelope without an `error` field |
| `ExpiryFindings.IntendedRedirectOutcome` | src/controllers/urlController.js:78-80 | the corrected redirect follows a link if and only if it is stored and not past its expiry, and otherwise changes nothing |
| `ExpiryFindings.IntendedAnalyticsReply` | src/controllers/urlController.js:105-107 | the corrected analytics succeed if and only if the link is stored and not past its expiry |
| `ExpiryFindings.IntendedNullNeverExpires` | src/controllers/urlController.js:105-107 | with the corrected check a link without expiry is reported and followed at every time |
| `ExpiryFindings.AnalyticsAgreesUnlessNull` | src/controllers/urlController.js:105-107 | analytics as written equal the corrected ones if and only if the code is unknown, the row has an expiry, or now is not positive |
| `ExpiryFindings.RedirectAgreesUnlessExpired` | src/controllers/urlController.js:72-80 | redirect as written equals the corrected one if and only if the code is unknown or not past its expiry |
| `ExpiryFindings.AnalyticsReportsEternalLinkExpired` | src/controllers/urlController.js:105-107 | a link stored without expiry gets 404 "URL expired" at time 2, while the corrected analytics report it |
| `ExpiryFindings.RedirectFollowsExpiredLink` | src/controllers/urlController.js:72-80 | a link an hour past its expiry is redirected and counted, while the corrected redirect answers 404 "URL expired" and changes nothing |

## Left out

- Database access (`src/config/db.js`), schema provisioning (`src/scripts/initDb.js`) and the connection pool are replaced by the `rows` map.
- `src/models/schema.sql` is not part of this model. The column defaults (`click_count` 0, `created_at` the insertion time) are assumed, because that schema file is not available. The `id` column is not modelled because no handler reads it.
- Atomicity of the unique insert and of `click_count + 1` under concurrent requests is provided by the database. Each handler is modelled as one sequential step.
- `Math.random()` and its float-to-base-36 formatting are reduced to the shape of the text it yields (`IsRandomText`). `Date.now()` and `new Date()` become the integer `now`.
- `UrlController.InsertOutcome`: when the database both fails and would report a duplicate key, the model answers 500. The source cannot tell which error the database reports first.
- Failing SELECT or UPDATE queries in `redirectToOriginal` and `getAnalytics` are not modelled. The source has no handler for them, so their result depends on Express, which is outside the model.
- Request fields of other JavaScript types are not modelled: a non-string `original_url` or `alias`, or an `expiresIn` that is not an integer (NaN, fractions, numeric strings). An expiry outside the range of a JavaScript `Date` is not modelled either.
- JSON serialisation details are not modelled, for example that a field whose value is undefined is dropped. `console.error` logging is not modelled.
- The rate limiter, routing, Swagger documentation and application bootstrap have no logic of their own in the handlers. This includes that routes are mounted under `/api` while `short_url` omits that prefix.
- Click-event rows, geolocation, recent-click lists, per-country counts and asynchronous click recording do not exist in the handlers and are not modelled.
- Dafny characters are Unicode scalar values, so a lone UTF-16 surrogate in an alias cannot be represented.

## Findings

| source | as written | input that shows it | evidently intended | confidence | as-written member | corrected member |
|---|---|---|---|---|---|---|
| src/controllers/urlController.js:72-80 | the redirect SELECT fetches only `original_url`, so `expires_at` reads undefined and the expiry test is always false | a link with expiry 3,600,000 ms redirected at 7,200,000 ms gets 302 and a counted click | a link past its expiry answers 404 "URL expired" and is not counted | high; not executed | `ExpiryFindings.RedirectFollowsExpiredLink` | `ExpiryFindings.IntendedRedirectOutcome` |
| src/controllers/urlController.js:105-107 | `null < new Date()` compares 0 with the current time, so a link without expiry is reported expired | a link created without `expiresIn`, analytics requested at time 2 ms, gets 404 "URL expired" | a null expiry means the link never expires | high; not executed | `ExpiryFindings.AnalyticsReportsEternalLinkExpired` | `ExpiryFindings.IntendedAnalyticsReply` |

`UrlController` keeps both handlers as written. The corrected handlers differ
from them only in the expiry test. `ExpiryFindings.RedirectAgreesUnlessExpired`
and `ExpiryFindings.AnalyticsAgreesUnlessNull` state exactly which inputs the
two versions disagree on.
