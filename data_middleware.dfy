/** The fetch-and-cache gateway in front of the LeetCode GraphQL API (`DataMiddleware.js`):
    username validation, the five-minute cache held in a module-level map, the upstream
    outcome checks of `fetchLeetCodeData`, the error-to-status mapping, and `formatData`,
    which flattens the nested payload (`fetch.js` carries the same `formatData`). */
module DataMiddleware {
  import opened Wrappers
  import opened JsText
  import opened Payload

  datatype Profile = Profile(realName: string, avatar: string, starRating: real, ranking: int)

  datatype Skills = Skills(advanced: seq<Tag>, intermediate: seq<Tag>, fundamental: seq<Tag>)

  /** The flat record `formatData` builds, handed on as `req.formattedData`. */
  datatype UserProfile = UserProfile(
    username: string,
    profile: Profile,
    totalSolved: int,
    totalQuestions: int,
    easySolved: int,
    mediumSolved: int,
    hardSolved: int,
    totalSubmissions: int,
    contributionPoints: int,
    submissionCalendar: Calendar,
    badges: seq<Badge>,
    contestStats: Option<ContestRanking>,
    skills: Skills)

  const FailedToFetchMessage := "Failed to fetch data from LeetCode"
  /** The message as it stands in the source file, whose dash was stored double-encoded. */
  const NotFoundMessage := "Username not found \U{00E2}\U{20AC}\U{201C} check spelling"

  const CharsMessage := "Only letters, numbers and underscores allowed"
  const LengthMessage := "Username must be 1-25 characters"

  /** `CACHE_TTL`, in milliseconds. */
  const CacheTtl := 5 * 60 * 1000

  /** `totalSubmissionNum.reduce((acc, cur) => acc + cur.submissions, 0)`. */
  function SumSubmissions(xs: seq<SubmissionCount>): int {
    if xs == [] then 0 else SumSubmissions(xs[..|xs| - 1]) + xs[|xs| - 1].submissions
  }

  /** The object literal of `formatData`. Reading `count` of a missing array element, or any
      member of a `null` user, throws a `TypeError`; so does `JSON.parse` of a malformed
      calendar, whose message the payload carries. */
  function FormatData(data: RawData): (r: Result<UserProfile, string>)
    ensures r.Success? <==>
      && data.matchedUser.Some?
      && |data.matchedUser.value.acSubmissionNum| >= 4
      && |data.allQuestionsCount| >= 1
      && data.matchedUser.value.submissionCalendar.Success?
  {
    match data.matchedUser
    case None => Failure(ReadUsernameMessage)
    case Some(u) =>
      if |u.acSubmissionNum| < 4 || |data.allQuestionsCount| < 1 then Failure(ReadCountMessage)
      else
        match u.submissionCalendar
        case Failure(message) => Failure(message)
        case Success(calendar) =>
          Success(UserProfile(
            u.username,
            Profile(u.profile.realName, u.profile.userAvatar, u.profile.starRating, u.profile.ranking),
            u.acSubmissionNum[0].count,
            data.allQuestionsCount[0].count,
            u.acSubmissionNum[1].count,
            u.acSubmissionNum[2].count,
            u.acSubmissionNum[3].count,
            SumSubmissions(u.totalSubmissionNum),
            u.contributionPoints,
            calendar,
            u.badges,
            data.userContestRanking,
            Skills(u.tagProblemCounts.advanced, u.tagProblemCounts.intermediate, u.tagProblemCounts.fundamental)))
  }

  /** What the formatted record carries: the four solved counts from `acSubmissionNum[0..3]`,
      the submissions summed over every `totalSubmissionNum` entry, the contest stats exactly
      when the user has a contest ranking, and the three skill buckets untouched. */
  lemma FormatDataProjection(data: RawData)
    requires FormatData(data).Success?
    ensures var p := FormatData(data).value;
            var u := data.matchedUser.value;
            && p.username == u.username
            && p.totalSolved == u.acSubmissionNum[0].count
            && p.easySolved == u.acSubmissionNum[1].count
            && p.mediumSolved == u.acSubmissionNum[2].count
            && p.hardSolved == u.acSubmissionNum[3].count
            && p.totalQuestions == data.allQuestionsCount[0].count
            && p.totalSubmissions == SumSubmissions(u.totalSubmissionNum)
            && (p.contestStats.None? <==> data.userContestRanking.None?)
            && p.skills == Skills(u.tagProblemCounts.advanced, u.tagProblemCounts.intermediate, u.tagProblemCounts.fundamental)
            && u.submissionCalendar == Success(p.submissionCalendar)
  {
  }

  /** With no negative entry, the summed submissions are at least those of any single entry. */
  lemma {:induction false} SumSubmissionsBounds(xs: seq<SubmissionCount>)
    requires forall k :: 0 <= k < |xs| ==> xs[k].submissions >= 0
    ensures SumSubmissions(xs) >= 0
    ensures forall k :: 0 <= k < |xs| ==> xs[k].submissions <= SumSubmissions(xs)
  {
    if xs != [] {
      SumSubmissionsBounds(xs[..|xs| - 1]);
      assert forall k :: 0 <= k < |xs| - 1 ==> xs[..|xs| - 1][k] == xs[k];
    }
  }

  /** `fetchLeetCodeData`'s checks on the upstream outcome: a rejected `fetch` or
      `response.json()` propagates its error, a non-ok status gives the "Failed to fetch"
      error, a present `errors` member or a missing `matchedUser` gives the "not found"
      error, reading `matchedUser` of a `null` `data` throws, and otherwise `data` is returned. */
  function FetchLeetCodeData(upstream: Upstream): (r: Result<RawData, string>)
    ensures r.Success? <==>
      && upstream.Responded? && IsOk(upstream.status) && upstream.body.Success?
      && !upstream.body.value.hasErrors && upstream.body.value.data.Some?
      && upstream.body.value.data.value.matchedUser.Some?
    ensures r.Success? ==> r.value == upstream.body.value.data.value && r.value.matchedUser.Some?
    ensures upstream.NetworkError? ==> r == Failure(upstream.message)
    ensures upstream.Responded? && IsOk(upstream.status) && upstream.body.Failure? ==> r == Failure(upstream.body.error)
    ensures (&& upstream.Responded? && IsOk(upstream.status) && upstream.body.Success?
             && !upstream.body.value.hasErrors && upstream.body.value.data.None?)
            ==> r == Failure(ReadMatchedUserMessage)
    ensures upstream.Responded? && !IsOk(upstream.status) ==> r == Failure(FailedToFetchMessage)
    ensures (&& upstream.Responded? && IsOk(upstream.status) && upstream.body.Success?
             && (upstream.body.value.hasErrors
                 || (upstream.body.value.data.Some? && upstream.body.value.data.value.matchedUser.None?)))
            ==> r == Failure(NotFoundMessage)
  {
    match upstream
    case NetworkError(message) => Failure(message)
    case Responded(status, body) =>
      if !IsOk(status) then Failure(FailedToFetchMessage)
      else
        match body
        case Failure(message) => Failure(message)
        case Success(reply) =>
          if reply.hasErrors then Failure(NotFoundMessage)
          else
            match reply.data
            case None => Failure(ReadMatchedUserMessage)
            case Some(data) => if data.matchedUser.None? then Failure(NotFoundMessage) else Success(data)
  }

  predicate IsWordChar(c: char) {
    'a' <= c <= 'z' || 'A' <= c <= 'Z' || IsDigit(c) || c == '_'
  }

  predicate AllWordChars(s: string) {
    forall k :: 0 <= k < |s| ==> IsWordChar(s[k])
  }

  /** `/^[a-zA-Z0-9_]+$/.test(s)`. */
  function MatchesUsernamePattern(s: string): (b: bool)
    ensures b <==> s != [] && AllWordChars(s)
  {
    |s| > 0 && IsWordChar(s[0]) && (|s| == 1 || MatchesUsernamePattern(s[1..]))
  }

  /** The two checks on the trimmed username, in source order: the character class first,
      then the length (whose lower bound the pattern already implies). */
  function ValidateUsername(name: string): (r: Option<string>)
    ensures r == None <==> 1 <= |name| <= 25 && AllWordChars(name)
    ensures r == Some(CharsMessage) <==> !(name != [] && AllWordChars(name))
    ensures r == Some(LengthMessage) <==> |name| > 25 && AllWordChars(name)
  {
    if !MatchesUsernamePattern(name) then Some(CharsMessage)
    else if |name| < 1 || |name| > 25 then Some(LengthMessage)
    else None
  }

  datatype CacheEntry = CacheEntry(data: RawData, timestamp: int)

  /** What the middleware does with a request: answer with a status and `{ error }`, call
      `next()` having set `req.leetcodeData`, `req.formattedData` and, after a live fetch,
      `req.leetcodeTimestamp`, or let an error escape without answering. */
  datatype MiddlewareResult =
    | Rejected(status: int, error: string)
    | Next(leetcodeData: RawData, formattedData: UserProfile, leetcodeTimestamp: Option<int>)
    | Escaped(message: string)

  /** An entry is served from the cache while strictly less than `CacheTtl` old. */
  predicate IsFresh(cache: map<string, CacheEntry>, name: string, now: int) {
    name in cache && now - cache[name].timestamp < CacheTtl
  }

  /** The body of the `try` block: fetch, then format; either may throw. */
  function FetchAndFormat(upstream: Upstream): (r: Result<(RawData, UserProfile), string>)
    ensures r.Success? ==> FetchLeetCodeData(upstream) == Success(r.value.0) && FormatData(r.value.0) == Success(r.value.1)
    ensures r.Failure? ==> FetchLeetCodeData(upstream).Failure? || FormatData(FetchLeetCodeData(upstream).value).Failure?
    // a failure carries the message of whichever step threw
    ensures FetchLeetCodeData(upstream).Failure? ==> r == Failure(FetchLeetCodeData(upstream).error)
    ensures FetchLeetCodeData(upstream).Success? && FormatData(FetchLeetCodeData(upstream).value).Failure? ==>
      r == Failure(FormatData(FetchLeetCodeData(upstream).value).error)
  {
    match FetchLeetCodeData(upstream)
    case Failure(message) => Failure(message)
    case Success(data) =>
      match FormatData(data)
      case Failure(message) => Failure(message)
      case Success(formatted) => Success((data, formatted))
  }

  /** The `catch` block: a message mentioning "not found" is a 404, any other error a 500. */
  function ErrorResponse(message: string): (r: MiddlewareResult)
    ensures r == Rejected(404, "Username not found") || r == Rejected(500, "Failed to fetch LeetCode data")
    ensures r.status == 404 <==> exists i :: OccursAt(message, "not found", i)
  {
    if Includes(message, "not found") then Rejected(404, "Username not found")
    else Rejected(500, "Failed to fetch LeetCode data")
  }

  /** A string without the letter `n` cannot contain "not found". */
  lemma NoNotFoundWithoutN(message: string)
    requires 'n' !in message
    ensures ErrorResponse(message) == Rejected(500, "Failed to fetch LeetCode data")
  {
    forall i | 0 <= i <= |message| - 9 ensures !OccursAt(message, "not found", i) {
      assert message[i] in message;
      assert message[i..i + 9][0] == message[i];
    }
  }

  /** How `fetchLeetCodeData`'s own errors reach the client: a non-ok upstream status is a
      500, while a reply with `errors` or without `matchedUser` is a 404. */
  lemma FetchErrorStatus(upstream: Upstream)
    requires FetchLeetCodeData(upstream).Failure?
    ensures upstream.Responded? && !IsOk(upstream.status) ==>
      ErrorResponse(FetchLeetCodeData(upstream).error).status == 500
    ensures FetchLeetCodeData(upstream).error == NotFoundMessage ==>
      ErrorResponse(FetchLeetCodeData(upstream).error).status == 404
  {
    if upstream.Responded? && !IsOk(upstream.status) {
      NoNotFoundWithoutN(FailedToFetchMessage);
    }
    if FetchLeetCodeData(upstream).error == NotFoundMessage {
      NotFoundMessageIs404();
    }
  }

  /** The "not found" message contains its phrase at offset 9, so it maps to a 404. */
  lemma NotFoundMessageIs404()
    ensures ErrorResponse(NotFoundMessage) == Rejected(404, "Username not found")
  {
    assert OccursAt(NotFoundMessage, "not found", 9) by {
      assert NotFoundMessage == "Username " + "not found" + " \U{00E2}\U{20AC}\U{201C} check spelling";
    }
  }

  /** Every cached entry holds data that `formatData` accepts. */
  ghost predicate Formattable(cache: map<string, CacheEntry>) {
    forall name :: name in cache ==> FormatData(cache[name].data).Success?
  }

  /** What one request comes to: the middleware's answer, the username sent upstream
      (`None` when no request was made), and the cache afterwards. */
  datatype Step = Step(result: MiddlewareResult, requested: Option<string>, cache: map<string, CacheEntry>)

  /** `leetDataMiddleware` for a request whose `:username` is `rawUsername`, arriving at `now`
      (milliseconds) on a cache `cache`, where `upstream` is what a request to the GraphQL API
      would come to. */
  function Middleware(cache: map<string, CacheEntry>, rawUsername: string, now: int, upstream: Upstream): (step: Step)
    ensures step.requested.Some? ==> step.requested == Some(Trim(rawUsername))
    ensures ValidateUsername(Trim(rawUsername)).Some? ==> step.result.Rejected? && step.result.status == 400
    ensures step.requested.None? ==> step.cache == cache
  {
    Route(cache, Trim(rawUsername), now, upstream)
  }

  /** The middleware once the username is trimmed. `formatData` on a cache hit runs outside
      the `try`, so its error would escape. */
  function Route(cache: map<string, CacheEntry>, name: string, now: int, upstream: Upstream): (step: Step)
    // a request goes out only for a valid name without a fresh entry, and only under that name
    ensures step.requested.Some? <==> ValidateUsername(name).None? && !IsFresh(cache, name, now)
    ensures step.requested.Some? ==> step.requested == Some(name)
    ensures ValidateUsername(name).Some? ==> step.result.Rejected? && step.result.status == 400
    // the cache changes only by storing a live fetch under the requested name
    ensures step.requested.None? || !step.result.Next? ==> step.cache == cache
    ensures cache.Keys <= step.cache.Keys <= cache.Keys + {name}
    ensures step.result.Next? && step.result.leetcodeTimestamp.Some? ==>
      step.requested.Some? && step.cache == cache[name := CacheEntry(step.result.leetcodeData, now)]
  {
    match ValidateUsername(name)
    case Some(message) => Step(Rejected(400, message), None, cache)
    case None =>
      if IsFresh(cache, name, now) then
        match FormatData(cache[name].data)
        case Failure(message) => Step(Escaped(message), None, cache)
        case Success(formatted) => Step(Next(cache[name].data, formatted, None), None, cache)
      else
        match FetchAndFormat(upstream)
        case Failure(message) => Step(ErrorResponse(message), Some(name), cache)
        case Success((data, formatted)) => Step(Next(data, formatted, Some(now)), Some(name), cache[name := CacheEntry(data, now)])
  }

  /** A name that fails validation is answered with 400 and its message, before the cache is
      read or anything is fetched. */
  lemma RejectsInvalidNames(cache: map<string, CacheEntry>, name: string, now: int, upstream: Upstream)
    requires ValidateUsername(name).Some?
    ensures var step := Route(cache, name, now, upstream);
            && step.result == Rejected(400, ValidateUsername(name).value)
            && step.requested == None && step.cache == cache
  {
  }

  /** A hit is an entry under the exact trimmed name stored less than `CacheTtl` ago; it is
      served as stored, with no request, no `leetcodeTimestamp` and the cache unchanged. */
  lemma ServesFreshEntries(cache: map<string, CacheEntry>, name: string, now: int, upstream: Upstream)
    requires Formattable(cache)
    requires ValidateUsername(name).None?
    ensures var step := Route(cache, name, now, upstream);
            && (step.requested == None <==> name in cache && now - cache[name].timestamp < CacheTtl)
            && (step.requested == None ==>
                  && step.result == Next(cache[name].data, FormatData(cache[name].data).value, None)
                  && step.cache == cache)
  {
  }

  /** On a miss the trimmed name is requested; a success overwrites that one key with the
      data and `now` and sets `leetcodeTimestamp`, while a failure leaves the cache, stale
      entries included, as it was and answers through the error mapping. */
  lemma StoresOnlySuccess(cache: map<string, CacheEntry>, name: string, now: int, upstream: Upstream)
    requires ValidateUsername(name).None? && !IsFresh(cache, name, now)
    ensures var step := Route(cache, name, now, upstream);
            var outcome := FetchAndFormat(upstream);
            && step.requested == Some(name)
            && (outcome.Success? ==>
                  && step.result == Next(outcome.value.0, outcome.value.1, Some(now))
                  && step.cache.Keys == cache.Keys + {name}
                  && step.cache[name] == CacheEntry(outcome.value.0, now)
                  && forall other :: other in cache && other != name ==> step.cache[other] == cache[other])
            && (outcome.Failure? ==>
                  step.result == ErrorResponse(outcome.error) && step.cache == cache)
  {
  }

  /** A miss that reaches the API answers a non-ok upstream status with 500 and an unknown
      user with 404. */
  lemma MissErrorStatus(cache: map<string, CacheEntry>, name: string, now: int, upstream: Upstream)
    requires ValidateUsername(name).None? && !IsFresh(cache, name, now)
    ensures upstream.Responded? && !IsOk(upstream.status) ==>
      Route(cache, name, now, upstream).result == Rejected(500, "Failed to fetch LeetCode data")
    ensures FetchLeetCodeData(upstream) == Failure(NotFoundMessage) ==>
      Route(cache, name, now, upstream).result == Rejected(404, "Username not found")
  {
    StoresOnlySuccess(cache, name, now, upstream);
    if FetchLeetCodeData(upstream).Failure? {
      FetchErrorStatus(upstream);
    }
  }

  /** The cache only grows, and stays formattable; so on a formattable cache no error ever
      escapes the middleware. */
  lemma RouteKeepsFormattable(cache: map<string, CacheEntry>, name: string, now: int, upstream: Upstream)
    requires Formattable(cache)
    ensures var step := Route(cache, name, now, upstream);
            && Formattable(step.cache)
            && cache.Keys <= step.cache.Keys
            && !step.result.Escaped?
  {
    if ValidateUsername(name).None? && !IsFresh(cache, name, now) && FetchAndFormat(upstream).Success? {
      var data := FetchAndFormat(upstream).value.0;
      var updated := cache[name := CacheEntry(data, now)];
      assert Route(cache, name, now, upstream).cache == updated;
      forall other | other in updated ensures FormatData(updated[other].data).Success? {
        if other != name {
          assert updated[other] == cache[other];
        }
      }
    }
  }

  /** Two requests for the same name, the second within `CacheTtl` of a first one that
      fetched live: the second is served from the cache with the same data and makes no
      request. */
  lemma RepeatWithinTtl(cache: map<string, CacheEntry>, name: string, first: int, second: int, upstream1: Upstream, upstream2: Upstream)
    requires first <= second < first + CacheTtl
    ensures var s1 := Route(cache, name, first, upstream1);
            var s2 := Route(s1.cache, name, second, upstream2);
            s1.result.Next? && s1.result.leetcodeTimestamp.Some? ==>
              s2 == Step(Next(s1.result.leetcodeData, s1.result.formattedData, None), None, s1.cache)
  {
  }

  /** The process-wide state of `DataMiddleware.js`: the `leetcodeCache` map, keyed by the
      exact trimmed username. */
  class Gateway {
    var cache: map<string, CacheEntry>

    /** Every entry holds data that `formatData` accepts, because an entry is written only
        after `formatData` succeeded on it. */
    ghost predicate Valid()
      reads this
    {
      Formattable(cache)
    }

    constructor ()
      ensures Valid() && cache == map[]
    {
      cache := map[];
    }

    /** One request through the middleware, updating `leetcodeCache` in place. */
    method Handle(rawUsername: string, now: int, upstream: Upstream) returns (result: MiddlewareResult, requested: Option<string>)
      requires Valid()
      modifies this
      ensures Valid()
      ensures Step(result, requested, cache) == Middleware(old(cache), rawUsername, now, upstream)
      ensures !result.Escaped?
    {
      var username := Trim(rawUsername);
      ghost var expected := Route(cache, username, now, upstream);
      assert expected == Middleware(cache, rawUsername, now, upstream);
      RouteKeepsFormattable(cache, username, now, upstream);
      var invalid := ValidateUsername(username);
      if invalid.Some? {
        return Rejected(400, invalid.value), None;
      }
      if username in cache {
        var entry := cache[username];
        if now - entry.timestamp < CacheTtl {
          var formatted := FormatData(entry.data);
          assert expected == Step(Next(entry.data, formatted.value, None), None, cache);
          return Next(entry.data, formatted.value, None), None;
        }
      }
      assert !IsFresh(cache, username, now);
      requested := Some(username);
      var outcome := FetchAndFormat(upstream);
      if outcome.Success? {
        var (data, formatted) := outcome.value;
        cache := cache[username := CacheEntry(data, now)];
        result := Next(data, formatted, Some(now));
      } else {
        result := ErrorResponse(outcome.error);
      }
      assert expected == Step(result, requested, cache);
    }
  }
}
