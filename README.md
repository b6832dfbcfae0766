# algarve-data: tours batch page, tours endpoint and restaurants endpoint

This project models the data-gathering core of the algarve-data
application in Dafny:

- **The tours page** (`tours_page.dfy`, module `ToursUi`) is the client
  component that runs a batch search. Its two text areas hold cities and
  keyword groups, one per line. `handleAutomation` keeps the non-blank
  lines. It then calls the tours endpoint once per (city, keyword group)
  pair, with cities in the outer loop and keyword groups in the inner loop.
  For each unit it appends the returned records to `places`, logs a line
  when the unit found records or failed, and updates the progress
  percentage. `handleClear` empties the results. The page is the class
  `ToursPage`, whose fields are the component's state variables.
- **The tours endpoint** (`tours_route.dfy`, module `ToursRoute`) handles
  `POST /api/tours`. It rejects a missing city and appends the keywords to
  a log file. It then builds a trimmed text query and follows the search's
  page tokens in a do-while loop. Finally it looks up every hit's details
  and flattens each hit into a tour record, with the contact falling back
  from phone to website to `N/A`.
- **The restaurants endpoint** (`restaurants_route.dfy`, module
  `RestaurantsRoute`) handles `POST /api/restaurants`. It rejects a missing
  region and runs one search for `restaurants in <region>`. It maps every
  result to a record of a fixed shape, whose photo URL is present only when
  the result has a photo. It then upserts the records one by one into the
  `restaurants` table, keyed by name. `GET` lists the stored rows whose
  location is not null. The table is the class `RestaurantStore`, holding a
  `map` from name to row.
- **JavaScript semantics** (`js_text.dfy`, module `JsText`) are the few
  parts of JavaScript the code relies on:
  - the truthiness of an optional string;
  - an awaited call that resolves or throws;
  - `trim`, `split('\n')` and the blank-line filter;
  - the decimal rendering of a count inside a template literal.

Everything outside the process is an input sequence, given in call order:

- what each call to the tours endpoint yields on the page;
- each search page and each detail lookup of the tours endpoint;
- the search reply of the restaurants endpoint;
- whether each upsert reports an error;
- the id generated for each record.

## Model

| member | source | states |
|---|---|---|
| ToursUi.ToursPage.HandleAutomation | data/app/tours/page.tsx:23-56 | A run keeps the non-blank lines of both text areas. It calls the endpoint once per (city, keyword group) pair, cities outer. It appends the successful units' records to `places`, in order, and leaves the log of the units in `message`. The progress values set, in order, are those after each unit. It ends with progress 100 (0 for an empty run), status "Automation Complete." and `loading` false. The text areas are unchanged. |
| ToursUi.ToursPage.RunBatch | data/app/tours/page.tsx:31-52 | The outer loop: with the counter at row start, it makes exactly the calls of `SearchTerms` and leaves the records, message and progress that `StateAt` gives for all units. |
| ToursUi.ToursPage.RunRow | data/app/tours/page.tsx:35-51 | The inner loop for one city: one unit per keyword group, in order; the counter advances by the number of groups, and the state follows `StateAt` unit by unit. |
| ToursUi.ToursPage.RunUnit | data/app/tours/page.tsx:36-50 | One inner-loop body. It shows the unit's "Processing: city - keywords..." status and records the call. It runs the unit, then sets and records the progress `(completed / total) * 100`. |
| ToursUi.ToursPage.ProcessUnit | data/app/tours/page.tsx:37-46 | A success appends its records, and logs "Found n results ..." only when n > 0. A failure appends nothing and logs "Failed to fetch ...". No other field changes. |
| ToursUi.ToursPage.HandleClear | data/app/tours/page.tsx:75-78 | It empties `places` and sets the message to "Results cleared.". Everything else is kept. |
| ToursUi.ToursPage.SetCities | data/app/tours/page.tsx:86 | The cities text area's change handler replaces `cities` and nothing else. |
| ToursUi.ToursPage.SetKeywordGroups | data/app/tours/page.tsx:92 | The keyword-groups change handler replaces `keywordGroups` and nothing else. |
| ToursUi.ToursPage.constructor | data/app/tours/page.tsx:15-21 | The initial state: empty text areas, no places, not loading, empty message and status, progress 0. The page is `Valid()`: its texts are the page's own templates, which give single lines. `Valid()` depends on no mutable field, so it holds for the page's whole life. |
| ToursUi.SearchTerms | data/app/tours/page.tsx:31-35 | A run has as many units as the number of cities times the number of keyword groups, the product the page uses as `totalRequests`. |
| ToursUi.SearchTermAt | data/app/tours/page.tsx:34-35 | With g keyword groups, unit `i * g + j` pairs city `i` with keyword group `j`. |
| ToursUi.SearchTermsRow | data/app/tours/page.tsx:34-35 | With g keyword groups, row `i` starts at unit `i * g` and ends where row `i + 1` starts. It pairs city `i` with every group, in order. |
| ToursUi.SearchTermsNewlineFree | data/app/tours/page.tsx:29-30 | Units built from newline-free lines have a newline-free city and keywords. |
| ToursUi.SuccessfulUnitKept | data/app/tours/page.tsx:39 | A successful unit's records appear contiguously in what a run gathers, right after those of the earlier successful units, whatever the other units did. |
| ToursUi.GatheredAppend | data/app/tours/page.tsx:39 | Gathering distributes over concatenation of unit outcomes. |
| ToursUi.PageTextSingleLine | data/app/tours/page.tsx:41-45 | The "Found n results for ..." and "Failed to fetch for ..." templates contain no newline when the city and keywords contain none. The count is written in plain decimal digits. |
| ToursUi.UnitLines | data/app/tours/page.tsx:40-45 | A unit contributes at most one log line. |
| ToursUi.UnitLogShape | data/app/tours/page.tsx:40-45 | A unit appends nothing, or a newline followed by its one newline-free log line. |
| ToursUi.LogLines | data/app/tours/page.tsx:25-45 | Splitting the message on newlines gives an empty first line and then exactly the units' log lines, in order. |
| ToursUi.BatchLogLines | data/app/tours/page.tsx:25-45 | The same holds for any run over the non-blank lines of any two text areas. |
| ToursUi.FailedUnitLogged | data/app/tours/page.tsx:43-45 | Every failed unit leaves a failure line naming its city and keywords. |
| ToursUi.StateAtLog | data/app/tours/page.tsx:39-48 | After k units, the records are the starting ones plus those the first k units gathered. The message is the log of those units, and progress is that after unit k (0 before any). |
| ToursUi.ProgressMonotone | data/app/tours/page.tsx:48 | The progress percentage never decreases, starts at 0 and reaches exactly 100 with the last unit. |
| ToursUi.Trace | data/app/tours/page.tsx:47-48 | After n units, n progress values have been set. |
| ToursUi.TraceValues | data/app/tours/page.tsx:47-48 | The k-th value set is the progress after k + 1 units. |
| ToursUi.TraceMonotone | data/app/tours/page.tsx:47-48 | The progress values set during a run never decrease. |
| JsText.Trim | data/app/api/tours/route.ts:28 | `trim` gives "" exactly when the string is all whitespace. |
| JsText.TrimShape | data/app/api/tours/route.ts:28 | `trim` removes a blank prefix and a blank suffix. What it keeps is a window of the input with non-whitespace ends. |
| JsText.TrimStartShape | data/app/api/tours/route.ts:28 | Trimming the start removes a blank prefix and stops at a non-whitespace character. |
| JsText.TrimEndShape | data/app/api/tours/route.ts:28 | Trimming the end removes a blank suffix and stops at a non-whitespace character. |
| JsText.TrimIdempotent | data/app/api/tours/route.ts:28 | Trimming twice is trimming once. |
| JsText.Split | data/app/tours/page.tsx:29-30 | `split('\n')` gives at least one piece, none containing a newline. |
| JsText.JoinSplit | data/app/tours/page.tsx:29-30 | Joining the pieces of a split with newlines gives back the text. |
| JsText.SplitJoin | data/app/tours/page.tsx:29-30 | Splitting newline-free lines joined with newlines gives back the lines. |
| JsText.SplitAppend | data/app/tours/page.tsx:29-30 | Splitting `a + "\n" + b` gives the pieces of `a` followed by those of `b`. |
| JsText.KeepNonBlankMembers | data/app/tours/page.tsx:29-30 | The blank-line filter keeps exactly the non-blank lines. |
| JsText.KeepNonBlankAppend | data/app/tours/page.tsx:29-30 | The filter distributes over concatenation. |
| JsText.NonBlankLinesShape | data/app/tours/page.tsx:29-30 | Every kept line is non-blank and newline-free, and no non-blank line of the text is dropped. |
| JsText.NonBlankLinesOfJoin | data/app/tours/page.tsx:29-30 | A text area holding non-blank lines, one per line, yields exactly those lines. An empty text area yields none. |
| JsText.NatToStringDigits | data/app/tours/page.tsx:41 | The rendered count is all decimal digits, with no leading zero. |
| JsText.NatToStringRoundTrip | data/app/tours/page.tsx:41 | Reading the rendered count back as a decimal number gives the count. |
| ToursRoute.KeywordLog.LogKeywords | data/app/api/tours/route.ts:8-16 | Truthy keywords are appended to the file with a newline. Falsy keywords, or a failed append (which is swallowed), leave the file as it was. |
| ToursRoute.SearchQuery | data/app/api/tours/route.ts:28 | The query always starts with "tourist attractions in" and never ends with whitespace. |
| ToursRoute.SearchQueryUntrimmed | data/app/api/tours/route.ts:28 | With visible trailing text, the query is the prefix, city, space and keywords. Without keywords it is the prefix and the city, with no dangling space. |
| ToursRoute.TrimKeepsPrefix | data/app/api/tours/route.ts:28 | Trimming keeps everything up to a visible character when the string starts visibly. |
| ToursRoute.Contact | data/app/api/tours/route.ts:70 | The contact is never empty, and it is the phone whenever the phone is truthy. |
| ToursRoute.ContactFallback | data/app/api/tours/route.ts:70 | Without a phone the website is used, and without either "N/A". "N/A" appears only then, or when a field literally holds it. |
| ToursRoute.FanOut | data/app/api/tours/route.ts:56-74 | `Promise.all` over the detail lookups succeeds exactly when every lookup does. It then gives one record per hit, in hit order, with the detail's name and address, the hit's name, the fallback contact and the request city. |
| ToursRoute.LastPage | data/app/api/tours/route.ts:39-54 | The last page requested is the first page that throws or has no truthy token. |
| ToursRoute.FlattenLength | data/app/api/tours/route.ts:48 | The accumulated hits number exactly the pages' hits. |
| ToursRoute.Paginate | data/app/api/tours/route.ts:36-54 | The do-while loop requests pages up to the last one. The first request has no token, and each later one carries the previous page's token. It waits once per returned token and yields every page's hits in order, or the thrown error. |
| ToursRoute.Post | data/app/api/tours/route.ts:18-81 | A falsy city is a 400 "City is required", with no request and no log entry. Otherwise the keywords are logged and every request uses the trimmed query. Once the search succeeds, the details are looked up by the hits' place ids, one per hit, in hit order. Any upstream throw is a 500 "Failed to fetch tourist attractions", and success returns the fan-out's records. |
| RestaurantsRoute.PhotoUrl | data/app/api/restaurants/route.ts:55 | The photo reference can be read back from the photo URL made of it. |
| RestaurantsRoute.PhotoReference | data/app/api/restaurants/route.ts:55 | This is the inverse of the photo URL template, the reference definition behind `PhotoUrl`'s round trip rather than code of the endpoint. A reference read back has the length of the URL minus the fixed base, the key parameter and the key. |
| RestaurantsRoute.Normalise | data/app/api/restaurants/route.ts:42-66 | A result with a geometry gives a record with the given id and the result's name. The contact is the phone and website, and the location is the address, lat and lng. It has a photo URL exactly when the result has at least one photo, and that URL carries the first photo's reference. A result without a geometry throws. |
| RestaurantsRoute.NormaliseAll | data/app/api/restaurants/route.ts:42-67 | The mapping succeeds exactly when every result has a geometry. It then gives one record per result, in order. |
| RestaurantsRoute.ApplyUpserts | data/app/api/restaurants/route.ts:69-77 | After the upsert loop, the table's names are the old ones plus those of the successful upserts. A table whose rows are stored under their own names stays so. |
| RestaurantsRoute.NameIdentifiesRow | data/app/api/restaurants/route.ts:72 | In a table with the unique constraint on `name` that `onConflict: "name"` relies on, no two rows share a name. |
| RestaurantsRoute.LastWriteWins | data/app/api/restaurants/route.ts:69-72 | A name's row is the record of the last successful upsert with that name: a later record with the same name overwrites an earlier one. |
| RestaurantsRoute.UntouchedKept | data/app/api/restaurants/route.ts:69-77 | A name that no successful upsert touched keeps its row, or stays absent. |
| RestaurantsRoute.WrittenNamesSnoc | data/app/api/restaurants/route.ts:69-77 | The names written by one more upsert are the earlier ones plus that record's name, when it succeeded. |
| RestaurantsRoute.RestaurantStore.Upsert | data/app/api/restaurants/route.ts:70-76 | A successful upsert sets the row of the record's name, and a failed one changes nothing. The unique constraint on `name` is kept. |
| RestaurantsRoute.RestaurantStore.UpsertAll | data/app/api/restaurants/route.ts:69-77 | Every record is upserted once, in order, and the loop goes on past failures. The table ends as `ApplyUpserts` says and keeps the unique constraint on `name`. Every failed upsert, and only those, is reported, in increasing index order. |
| RestaurantsRoute.RestaurantStore.constructor | data/app/api/restaurants/route.ts:5-8 | The table starts with the given rows, which must satisfy the unique constraint on `name`. |
| RestaurantsRoute.Get | data/app/api/restaurants/route.ts:90-113 | A successful select lists exactly the stored rows whose location is not null. A store error is a 500 "Failed to fetch restaurants", and a throw a 500 "Internal server error". |
| RestaurantsRoute.PostedRecordListed | data/app/api/restaurants/route.ts:61-65 | After POST's upserts, the record that last wrote a name is listed by GET, since the mapping always sets a location. |
| RestaurantsRoute.LastWriteOnlyRow | data/app/api/restaurants/route.ts:69-72 | In a table keyed by name, the record that last wrote a name is the only row of that name that GET lists: a second write of a name overwrites the first and leaves exactly one row. |
| RestaurantsRoute.Post | data/app/api/restaurants/route.ts:10-88 | A falsy region is a 400 "Region is required", with no request. Otherwise the one search request carries the query "restaurants in " followed by the region, and the API key. A thrown search or mapping is a 500 "Internal server error". A non-2xx reply is an error carrying its status. Missing or empty results upsert nothing. Otherwise every record is upserted in order. Apart from the error cases the reply is "Restaurants updated successfully", even when upserts failed, and the table is unchanged on every error path. The unique constraint on `name` is kept. |

## Left out

- HTTP, JSON parsing and the Next.js request and response objects are not modelled. Requests are `Option` fields, and replies are datatypes carrying the status and the message. A body that fails to parse as JSON (a 500 in both endpoints) is not modelled.
- Request fields other than strings are left out. A non-string city, keywords or region is not modelled, because `Option<string>` covers only present strings and `undefined`/`null`.
- URL encoding of the query parameters (`URLSearchParams`, axios `params`) is left out. A request is modelled as its parameter values.
- `console.error` logging is left out, except that `UpsertAll` reports which upserts failed.
- The tours endpoint's log file is a `KeywordLog` object whose contents only grow. File-system errors are the `appendFails` input.
- `setTimeout` delays are counted, not timed: `Paginate` returns how many 2-second waits happen, and the page's waits after each unit are not modelled.
- React rendering, the download handler and authentication are not modelled. React state updates are applied immediately; the page's updates are all functional or unconditional, so batching does not change the final state.
- ToursPage: the page's texts are held as function-valued templates in the class constant `text`. The constructor sets them to the page's own strings, and `Valid()` records that they are. The loop proofs therefore speak of `text`, and `PageTextSingleLine` proves the property the log lemmas need of the real strings.
- ToursPage.HandleAutomation: user events during a run's awaits are not interleaved. In particular, the "Clear Results" button stays enabled while a run is loading, and pressing it mid-run resets `places` and the message, so that the remaining units append to the cleared state. The contract describes a run without such events.
- ToursPage.HandleAutomation: the nested loops are split into `RunBatch` (outer loop), `RunRow` (inner loop) and `RunUnit` (loop body). Facts derived from the final state are stated as lemmas rather than as ensures of the method: the message splitting into log lines (`BatchLogLines`) and monotone progress (`TraceMonotone`).
- ToursUi.ProgressAfter: progress is an exact rational (`real`), not an IEEE double. Rounding of `completed / total * 100` is not modelled.
- ToursRoute.Paginate: the search must eventually return a page that throws or has no truthy token. The endpoint loops forever otherwise, and a non-terminating loop cannot be given a contract here.
- ToursRoute.FanOut: the detail lookups run concurrently. Only the outcome of `Promise.all` is modelled (all results in order, or a throw), not the order in which the lookups finish.
- RestaurantsRoute.Normalise: coordinates are `real`, not IEEE doubles. A result whose `photos[0]` has no `photo_reference` (rendered as "undefined" in the URL) is not modelled.
- RestaurantsRoute.Get: the rows are returned as a set. The order of the rows the store returns is not modelled.
- RestaurantsRoute.Post: the `randomUUID` ids are the `ids` input. An error reply's JSON body that fails to parse is not modelled.
- Environment variables: the API key is a parameter, and the Supabase client's configuration is not modelled.
