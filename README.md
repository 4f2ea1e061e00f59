# LeetLens backend — a verified model of its deterministic core

LeetLens is an Express backend that fetches a LeetCode user's profile from the LeetCode
GraphQL API, flattens it into a profile record, caches it for five minutes, and asks a
Mistral chat model for a short written analysis of the profile. This project models the
parts of that backend that decide something, and proves what they promise:

- `DataMiddleware` (`DataMiddleware.js`): the gateway middleware.
  - Username validation: trim, then the `^[a-zA-Z0-9_]+$` check, then the 1–25 length bound.
  - The TTL cache. It is a class `Gateway` holding a `map` from names to `{data, timestamp}`.
  - The upstream outcome checks of `fetchLeetCodeData`.
  - The mapping of errors to 404/500.
  - The `formatData` projection.
- `ProfileHandler` (`fetch.js`): the single-profile handler. It maps the input and the
  upstream outcome to an HTTP status. Its `formatData` is the gateway's, so one function
  serves both.
- `TagRanking` (`fetchyy1.js`): `calculateWeaknesses` / `calculateStrengths`.
  - The three tag buckets are concatenated, stable-sorted by `problemsSolved` and cut to three names.
  - It has its own `formatData`, and a handler that answers 400 only for GraphQL `errors`.
- `AiSummary` (`AiSummary.js`): the AI analysis.
  - The experience tier and the count of recent submissions.
  - Extraction of the JSON object from the model's reply.
  - Sanitising of the reply: suggestion filter, caps, summary template, score clamp.
  - The one-shot switch from the primary to the fallback API key. This is a class
    `AiClient` whose `usingKey2` field stands for the module-level `client`.
- `JsText` holds the JavaScript string built-ins the core relies on: `trim`, `indexOf`,
  `lastIndexOf`, `includes` and `parseInt`. `Payload` holds the GraphQL reply and the
  upstream outcome shared by the three handlers. `Wrappers` holds `Option` / `Result`.

External effects become inputs:

- The HTTP request to LeetCode is an `Upstream` value. It is either a network error or a
  status with a decoded (or undecodable) body.
- The chat completion is an `LlmReply`.
- `JSON.parse` of the model's reply is a function parameter.
- `JSON.parse` of the submission calendar is carried in the payload as its outcome.
- `Date.now()` is an integer parameter in milliseconds.

Details of the code that the model keeps as they are:

- Cache keys are the exact trimmed names, so they are case-sensitive.
- A malformed submission calendar makes `formatData` throw.
- At most three suggestions and at most three weaknesses are kept.
- The not-found message carries the mis-encoded dash (`â€“`) that `DataMiddleware.js` holds.

## Model

| member | source | states |
|---|---|---|
| JsText.Trim | DataMiddleware.js:136 | the result is a slice of the input whose margins on both sides are all whitespace; it is empty iff the input is all whitespace, and otherwise starts and ends with a non-whitespace character |
| JsText.TrimMargins | DataMiddleware.js:136 | cutting leading and then trailing whitespace leaves a slice with whitespace-only margins |
| JsText.TrimBlank | DataMiddleware.js:136 | both cuts leave nothing iff the string is all whitespace, and what they leave neither starts nor ends with whitespace |
| JsText.IndexOf | AiSummary.js:97 | -1 iff the character is absent; otherwise the position holds it and no earlier position does |
| JsText.LastIndexOf | AiSummary.js:98 | -1 iff the character is absent; otherwise the position holds it and no later position does |
| JsText.Includes | DataMiddleware.js:174 | true iff the needle occurs at some position of the message |
| JsText.DigitRun | AiSummary.js:107 | the length of the longest run of digits at the start of the string: all of it are digits, and the next character is not one |
| JsText.DigitRunOfDigits | AiSummary.js:107 | a string made only of decimal digits is a single run of digits |
| JsText.ParseInt | AiSummary.js:19 | `parseInt` of an empty or all-whitespace string is NaN |
| JsText.TrimStartOfBlank | AiSummary.js:19 | an all-whitespace string loses everything to the leading-whitespace skip |
| JsText.ParseIntOfDigits | AiSummary.js:107 | `parseInt` of a non-empty run of decimal digits is the number those digits denote |
| DataMiddleware.FormatData | DataMiddleware.js:67-102 | succeeds iff `matchedUser` is present, there are at least four solved counts and one question count, and the calendar decodes |
| DataMiddleware.FormatDataProjection | DataMiddleware.js:77-100 | the four solved counts are `acSubmissionNum[0..3].count`; `totalSubmissions` is the sum of `submissions`; `contestStats` is null iff `userContestRanking` is; the skill buckets pass through unchanged |
| DataMiddleware.SumSubmissionsBounds | DataMiddleware.js:82 | with non-negative entries, the reduced sum is non-negative and at least every single entry |
| DataMiddleware.FetchLeetCodeData | DataMiddleware.js:104-129 | succeeds iff the status is ok, the body decodes, has no `errors` and has `data` with a `matchedUser`, and then returns that `data`; a rejected `fetch` or `response.json()` passes its message on; a non-ok status gives the "Failed to fetch" error; `errors` or a missing `matchedUser` gives the not-found error; a null `data` gives the `TypeError` |
| DataMiddleware.MatchesUsernamePattern | DataMiddleware.js:139 | true iff the name is non-empty and every character is a letter, digit or underscore |
| DataMiddleware.ValidateUsername | DataMiddleware.js:139-145 | the character message iff the pattern fails; the length message iff the pattern holds and the name exceeds 25; no error otherwise |
| DataMiddleware.FetchAndFormat | DataMiddleware.js:158-159 | a success pairs the fetched data with its projection; a failure carries the message of the step that threw: the fetch's when it fails, otherwise the projection's |
| DataMiddleware.ErrorResponse | DataMiddleware.js:171-178 | 404 "Username not found" iff the message contains "not found"; 500 "Failed to fetch LeetCode data" otherwise |
| DataMiddleware.NoNotFoundWithoutN | DataMiddleware.js:174 | a message without the letter `n` never contains "not found" |
| DataMiddleware.FetchErrorStatus | DataMiddleware.js:118-177 | a non-ok upstream ends in 500, and an unknown user ends in 404 |
| DataMiddleware.NotFoundMessageIs404 | DataMiddleware.js:174-175 | the upstream's own not-found message, mis-encoded dash included, maps to 404 "Username not found" |
| DataMiddleware.Route | DataMiddleware.js:139-178 | a request goes out iff the name is valid and has no fresh entry, and only under that name; an invalid name is a 400; the cache changes only by storing a live fetch under the requested name, and no key is removed |
| DataMiddleware.Middleware | DataMiddleware.js:134-179 | the name requested is the trimmed `:username`; an invalid trimmed name is a 400; without a request the cache is unchanged |
| DataMiddleware.RejectsInvalidNames | DataMiddleware.js:139-145 | a name failing validation is answered 400 with its message, with no request and the cache unchanged |
| DataMiddleware.ServesFreshEntries | DataMiddleware.js:147-154 | no request is made iff the trimmed name has an entry less than 300000 ms old; such an entry is served as stored, formatted, without a timestamp and with the cache unchanged |
| DataMiddleware.StoresOnlySuccess | DataMiddleware.js:156-178 | on a miss the trimmed name is requested; a success adds or overwrites exactly that key with `{data, now}` and sets the timestamp, leaving every other key alone; a failure leaves the cache, stale entries included, unchanged and answers through the 404/500 mapping |
| DataMiddleware.MissErrorStatus | DataMiddleware.js:118-177 | on a miss, a non-ok upstream status is answered 500 "Failed to fetch LeetCode data" and a reply with `errors` or without `matchedUser` is answered 404 "Username not found" |
| DataMiddleware.RouteKeepsFormattable | DataMiddleware.js:147-164 | no key is ever removed and every cached entry stays formattable, so on such a cache the unguarded `formatData` of a hit never throws |
| DataMiddleware.RepeatWithinTtl | DataMiddleware.js:147-164 | a second request for the same name within the TTL after a successful fetch is served from the cache with the same data, without a request and with the cache unchanged |
| DataMiddleware.Gateway.constructor | DataMiddleware.js:131 | the cache starts empty |
| DataMiddleware.Gateway.Handle | DataMiddleware.js:131-179 | the answer, the name requested and the new cache are those of the step function over the trimmed name (whose properties are the lemmas above); the cache stays formattable and no error escapes |
| ProfileHandler.Respond | fetch.js:114-146 | a non-ok status is passed through with "Failed to fetch data from LeetCode"; 200 iff there is a record; there is a record iff the status is ok and the decoded reply has no `errors` and has `data` that `formatData` accepts, and the record is that projection; past the status check the answer is a record, the not-found 400 or the 500 with the generic message, the last also for every thrown error |
| ProfileHandler.FetchUserProfile | fetch.js:106-146 | no request iff the name is missing or all whitespace, answered with 400 "Invalid username"; otherwise the trimmed name is what is sent upstream |
| ProfileHandler.RespondStatuses | fetch.js:128-145 | 400 "Username not found" iff an ok, decoded reply has `errors` or lacks `matchedUser`; every answer other than a passed-through upstream status is 200, 400 or 500 |
| ProfileHandler.AgreesWithGateway | fetch.js:128-141 | this handler answers 200 with a record exactly when the gateway's fetch-and-format succeeds with that record, and its not-found 400 is the gateway's 404 |
| TagRanking.Insert | fetchyy1.js:75-76 | inserting adds exactly one tag to the collection |
| TagRanking.InsertSorted | fetchyy1.js:75-76 | inserting into a sorted sequence keeps it sorted |
| TagRanking.InsertWithRank | fetchyy1.js:75-76 | inserting a tag after its equals keeps every group of equal keys in order |
| TagRanking.SortTags | fetchyy1.js:75-76 | the result is a permutation of the input |
| TagRanking.SortTagsCorrect | fetchyy1.js:75-76 | the result is sorted, a permutation, and stable: the tags with any given key appear in their input order |
| TagRanking.SortTagsSorted | fetchyy1.js:75-76 | the sorted tags are in non-decreasing order of the comparator's key |
| TagRanking.SortTagsStable | fetchyy1.js:75-76 | for every key, the tags with that key keep their input order |
| TagRanking.StableSortIsUnique | fetchyy1.js:75-76 | any two sorted sequences with the same per-key order are equal, so every stable sort gives this result |
| TagRanking.SameHead | fetchyy1.js:75-76 | two sorted sequences with the same per-key order start with the same tag |
| TagRanking.FirstHasLeastRank | fetchyy1.js:75-76 | the first tag of a sorted sequence has a key no larger than any key present |
| TagRanking.WithRankLength | fetchyy1.js:75-76 | the first tag's key group is never empty |
| TagRanking.WithRankInside | fetchyy1.js:75-76 | every tag in a key group comes from the sequence and has that key |
| TagRanking.WithRankAppend | fetchyy1.js:75 | the key groups of a concatenation are the concatenated key groups |
| TagRanking.TagNames | fetchyy1.js:77 | one name per tag, in order |
| TagRanking.CalculateWeaknesses | fetchyy1.js:74-78 | exactly min(3, n) names, n being the number of tags across the three buckets |
| TagRanking.CalculateStrengths | fetchyy1.js:80-84 | exactly min(3, n) names |
| TagRanking.TopThreeSelection | fetchyy1.js:77 | every chosen tag ranks at or before every tag not chosen |
| TagRanking.SortedPrefixFirst | fetchyy1.js:77 | in a sorted sequence every tag of a prefix ranks at or before every tag after it |
| TagRanking.WeaknessesAreLeastSolved | fetchyy1.js:74-78 | every chosen tag has solved no more problems than any tag not chosen |
| TagRanking.StrengthsAreMostSolved | fetchyy1.js:80-84 | every chosen tag has solved no fewer problems than any tag not chosen |
| TagRanking.TiesKeepBucketOrder | fetchyy1.js:75-76 | tags with equal counts come out advanced first, then intermediate, then fundamental, each in bucket order |
| TagRanking.FormatData | fetchyy1.js:48-72 | succeeds iff `matchedUser` is present, there are at least four solved counts and four question counts, and the calendar decodes |
| TagRanking.FormatDataPairsTotals | fetchyy1.js:51-69 | each difficulty's solved count is paired with that difficulty's question total; weaknesses and strengths come from the same buckets that are passed through |
| TagRanking.FetchUserProfile | fetchyy1.js:86-108 | the name is sent untrimmed; 400 "User not found" iff the decoded reply has `errors`; 200 with a record, whatever the upstream status, iff the decoded reply has no `errors` and has `data` that this `formatData` accepts, the record being that projection; anything thrown is 500 "Internal server error" |
| AiSummary.ExperienceLevel | AiSummary.js:53-54 | advanced iff more than 300 solved, intermediate iff 151 to 300, beginner otherwise |
| AiSummary.ExperienceLevelMonotone | AiSummary.js:53-54 | solving more never lowers the tier |
| AiSummary.FilterMembership | AiSummary.js:19 | the filter keeps exactly the elements that pass the test |
| AiSummary.FilterAppend | AiSummary.js:19 | the filter keeps the input order |
| AiSummary.SumCountsAppend | AiSummary.js:20 | the reduced sum of a concatenation is the sum of the two sums |
| AiSummary.FilterPlusRejectIsTotal | AiSummary.js:18-20 | the kept and the dropped days together add up to the whole calendar |
| AiSummary.SumCountsNonNegative | AiSummary.js:20 | non-negative day counts sum to a non-negative total |
| AiSummary.FilterNonNegative | AiSummary.js:19 | filtering introduces no negative count |
| AiSummary.CountRecentSubmissions | AiSummary.js:12-24 | a falsy calendar or one `JSON.parse` rejects counts 0; with non-negative day counts the result lies between 0 and the calendar's total |
| AiSummary.RecentPlusOlderIsTotal | AiSummary.js:12-24 | the recent count and the days before the cutoff add up to the calendar's total; a calendar string that parses counts as its decoded entries |
| AiSummary.StricterFilterCountsLess | AiSummary.js:19-20 | a test that accepts fewer days never counts more |
| AiSummary.RecentCountAntitone | AiSummary.js:16-20 | a later instant never counts more recent submissions |
| AiSummary.CutoffDayExcluded | AiSummary.js:17-19 | a day stamped exactly at the cutoff, or with a key `parseInt` cannot read, adds nothing |
| AiSummary.ExtractJson | AiSummary.js:97-101 | no candidate iff the reply lacks a `{` or a `}` |
| AiSummary.ExtractJsonSpec | AiSummary.js:97-101 | a non-empty candidate runs from the first `{` to the last `}` inclusive; the candidate is empty iff every `}` comes before every `{` |
| AiSummary.GroupEnd | AiSummary.js:107 | a `[digits]` match starting at a position closes right after its run of digits |
| AiSummary.FirstGroupFrom | AiSummary.js:107 | the leftmost `[digits]` match at or after a position, or none when no match exists there |
| AiSummary.BracketNumber | AiSummary.js:107 | the number read from a bracketed group is never negative |
| AiSummary.GroupDigits | AiSummary.js:107 | the characters between the brackets of a match are digits, and `parseInt` reads them as the number they denote |
| AiSummary.BracketNumberSpec | AiSummary.js:107 | no number iff the string has no `[digits]` group; otherwise the number is the value of the digits of the leftmost group |
| AiSummary.Allowed | AiSummary.js:106-108 | a string passes only when its first bracketed number exists, is positive and is not a basic problem |
| AiSummary.KeptStrings | AiSummary.js:104-109 | the filter keeps no more items than it is given |
| AiSummary.KeptStringsSound | AiSummary.js:104-109 | every kept suggestion is a string element of the input that passes the test |
| AiSummary.KeptStringsExactly | AiSummary.js:104-109 | a string is kept iff it is an element of the input and passes the test |
| AiSummary.KeptStringsAppend | AiSummary.js:104-109 | the filter keeps the relative order of the suggestions |
| AiSummary.FilterSuggestions | AiSummary.js:104-110 | at most three suggestions, the first min(3, n) survivors of the filter, each an allowed string element of the input |
| AiSummary.NoBasicSuggestion | AiSummary.js:104-110 | no kept suggestion's first bracketed number is 0 or a basic problem, and a string without a `[digits]` group is never kept |
| AiSummary.Score | AiSummary.js:115 | always within [0, 100]; an in-range number passes unchanged; NaN gives 0; out-of-range numbers are clamped |
| AiSummary.Weaknesses | AiSummary.js:114 | the first min(3, n) elements of an array, else empty |
| AiSummary.Summary | AiSummary.js:113 | the reply's summary when it is a string, else "Analysis of <username>'s profile" |
| AiSummary.Sanitise | AiSummary.js:104-117 | throws iff `suggestions` is truthy but not an array; otherwise the result is well formed, and its summary, weaknesses, score and suggestions are those the summary fallback, the weakness cap, the score clamp and the suggestion filter make of the reply's own fields |
| AiSummary.AnalyzeProfile | AiSummary.js:85-118 | a failed call, empty content, a missing brace and an unparseable candidate each give their own error, in that order; otherwise the result is the sanitised parsed object, and every success is well formed |
| AiSummary.Degraded | AiSummary.js:120-129 | the summary names the user or "unknown user", the only weakness is "System error", no suggestions and no score |
| AiSummary.Prompt | AiSummary.js:52-63 | the prompt's tier and recent count are those of the profile; the rating is shown iff contest stats exist with a non-zero rating |
| AiSummary.AiClient.constructor | AiSummary.js:6 | the client starts on the primary key |
| AiSummary.AiClient.TryWithFallback | AiSummary.js:26-34 | one attempt on success with the key unchanged; otherwise the client switches to key 2 for good and the second attempt's outcome is the result |
| AiSummary.AiClient.GenerateAiSummary | AiSummary.js:36-130 | the result is always well formed: the first attempt's result, else the retry's under key 2, else the degraded object |

## Left out

- `server.js`, `db.js`, `mistral.js` and the HTTP test: routing, database I/O and bare API calls, with no decision logic of their own.
- The network requests and the chat completion: they are inputs (`Upstream`, `LlmReply`), not modelled behaviour.
- `JSON.parse`: the calendar's parse outcome is part of the payload, and the reply's parser is a parameter. The model assumes a decoded calendar is an object of numeric counts.
- The prompt text: only the facts it is built from are modelled, not the template wording. The skill breakdown line is also left out.
- `fetchMultipleUserProfiles` (`fetchyy1.js:110-140`): a `Promise.all` fan-out over the network.
- `aiSummaryHandler` (`AiSummary.js:132-155`): on success it copies the analysis and the middleware's timestamp into the JSON reply; if `GenerateAiSummary` throws it answers 500 with `success: false`, "Failed to generate AI summary" and the formatted profile as `fallbackData`. Neither reply is modelled. In the model `GenerateAiSummary` never fails, because its own `catch` returns the degraded analysis; only an error the model does not capture would reach the handler's `catch`.
- Logging through `console`.
- Concurrency: two requests interleaving around the shared cache or the shared `client` are not modelled. Each operation runs to completion.
- `leetDataMiddleware` reads the clock three times; the model uses one `now` for all three.
- AiSummary.StringToNumber: `Number` of a string is modelled for blank strings and optionally signed decimal integers only. Fractions, exponents, hexadecimal (`0x`), binary (`0b`) and octal (`0o`) literals and `Infinity` are taken as NaN.
- AiSummary.ToNumber: `Number` of a non-empty array is taken as NaN, although JavaScript reads a one-element array as its element.
- JsText.ParseInt: numbers are unbounded integers; IEEE double rounding of very long digit runs is not modelled.
- DataMiddleware.FormatData: the profile's numeric fields are integers or reals, not IEEE doubles.
- DataMiddleware.FormatData / TagRanking.FormatData: the reply's nested objects and arrays are taken to be present, since the query asks for them. The TypeError that a null one would raise (`DataMiddleware.js:72-99`, `fetchyy1.js:51-75`) is not modelled.
- DataMiddleware.Gateway.Handle: `req.leetcodeData` / `req.formattedData` are returned in the result rather than assigned on a request object.
- DataMiddleware.Route: a cache hit whose data `formatData` rejects would throw outside the `try` and escape the middleware unanswered; this is the `Escaped` result, which the model proves unreachable from the gateway's own cache.
