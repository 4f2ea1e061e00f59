/** The deterministic part of the AI analysis (`AiSummary.js`): the experience tier, the
    count of recent submissions, the extraction of the JSON object from the model's reply,
    the sanitising of that object, and the one-shot switch from the primary to the fallback
    API key. The chat-completion call and `JSON.parse` are parameters. */
module AiSummary {
  import opened Wrappers
  import opened JsText
  import opened Payload
  import opened DataMiddleware

  /** `BASIC_PROBLEMS`: problem numbers too elementary to be suggested. */
  const BasicProblems: set<int> := {1, 20, 21, 70, 94, 104, 136, 141, 206}

  /** `100 * 24 * 60 * 60`: the lookback window, in seconds. */
  const LookbackSeconds := 100 * 24 * 60 * 60

  // ---------------------------------------------------------------- experience tier

  datatype Tier = Beginner | Intermediate | Advanced

  /** The experience tier of a solved count: above 300 is advanced, above 150 intermediate;
      300 and 150 themselves fall to the lower tier. */
  function ExperienceLevel(totalSolved: int): (t: Tier)
    ensures t == Advanced <==> totalSolved > 300
    ensures t == Intermediate <==> 150 < totalSolved <= 300
    ensures t == Beginner <==> totalSolved <= 150
  {
    if totalSolved > 300 then Advanced else if totalSolved > 150 then Intermediate else Beginner
  }

  function TierRank(t: Tier): nat {
    match t
    case Beginner => 0
    case Intermediate => 1
    case Advanced => 2
  }

  /** Solving more problems never lowers the tier. */
  lemma ExperienceLevelMonotone(a: int, b: int)
    requires a <= b
    ensures TierRank(ExperienceLevel(a)) <= TierRank(ExperienceLevel(b))
  {
  }

  // ---------------------------------------------------------------- recent submissions

  /** The calendar as `countRecentSubmissions` may receive it: falsy, a string together with
      what `JSON.parse` makes of it (`None` when it throws), or an already decoded object. */
  datatype CalendarInput =
    | Absent
    | Encoded(decoded: Option<Calendar>)
    | Decoded(entries: Calendar)

  /** `Array.prototype.filter`: the elements `keep` accepts, in order. */
  function Filter<T>(s: seq<T>, keep: T -> bool): seq<T> {
    if s == [] then [] else (if keep(s[0]) then [s[0]] else []) + Filter(s[1..], keep)
  }

  /** The elements `keep` refuses, in order. */
  function Reject<T>(s: seq<T>, keep: T -> bool): seq<T> {
    if s == [] then [] else (if keep(s[0]) then [] else [s[0]]) + Reject(s[1..], keep)
  }

  /** Filtering keeps exactly the accepted elements. */
  lemma {:induction false} FilterMembership<T>(s: seq<T>, keep: T -> bool, x: T)
    ensures x in Filter(s, keep) <==> x in s && keep(x)
  {
    if s != [] {
      FilterMembership(s[1..], keep, x);
      assert x in s <==> x == s[0] || x in s[1..];
    }
  }

  /** Filtering a concatenation concatenates what is kept: the order is preserved. */
  lemma {:induction false} FilterAppend<T>(a: seq<T>, b: seq<T>, keep: T -> bool)
    ensures Filter(a + b, keep) == Filter(a, keep) + Filter(b, keep)
  {
    if a == [] {
      assert a + b == b;
    } else {
      var x, t := a[0], a[1..];
      assert a == [x] + t;
      assert a + b == [x] + (t + b);
      FilterAppend(t, b, keep);
      FilterCons(x, t + b, keep);
      FilterCons(x, t, keep);
    }
  }

  lemma FilterCons<T>(x: T, s: seq<T>, keep: T -> bool)
    ensures Filter([x] + s, keep) == (if keep(x) then [x] else []) + Filter(s, keep)
  {
    assert ([x] + s)[1..] == s;
  }

  /** The filter's test: `parseInt(timestamp) > cutoff`, false when `parseInt` gives `NaN`. */
  predicate IsRecent(key: string, cutoff: int) {
    ParseInt(key).Some? && ParseInt(key).value > cutoff
  }

  function RecentTest(cutoff: int): ((string, int)) -> bool {
    (e: (string, int)) => IsRecent(e.0, cutoff)
  }

  /** `reduce((sum, [, count]) => sum + count, 0)`. */
  function SumCounts(calendar: Calendar): int {
    if calendar == [] then 0 else calendar[0].1 + SumCounts(calendar[1..])
  }

  predicate NonNegativeCounts(calendar: Calendar) {
    forall k :: 0 <= k < |calendar| ==> calendar[k].1 >= 0
  }

  /** `countRecentSubmissions(calendar)` at the instant `nowMs` (`Date.now()`), whose whole
      seconds are `Math.floor(nowMs / 1000)`. A falsy calendar and a `JSON.parse` that throws
      both give 0. */
  function CountRecentSubmissions(calendar: CalendarInput, nowMs: int): (r: int)
    ensures calendar.Absent? || calendar == Encoded(None) ==> r == 0
    ensures NonNegativeCounts(Entries(calendar)) ==> 0 <= r <= SumCounts(Entries(calendar))
  {
    var cutoff := nowMs / 1000 - LookbackSeconds;
    var entries := Entries(calendar);
    assert NonNegativeCounts(entries) ==>
      0 <= SumCounts(Filter(entries, RecentTest(cutoff))) <= SumCounts(entries) by {
      if NonNegativeCounts(entries) {
        FilterPlusRejectIsTotal(entries, RecentTest(cutoff));
        FilterNonNegative(entries, RecentTest(cutoff));
        SumCountsNonNegative(Filter(entries, RecentTest(cutoff)));
        SumCountsNonNegative(Reject(entries, RecentTest(cutoff)));
      }
    }
    match calendar
    case Absent => 0
    case Encoded(None) => 0
    case Encoded(Some(entries)) => SumCounts(Filter(entries, RecentTest(cutoff)))
    case Decoded(entries) => SumCounts(Filter(entries, RecentTest(cutoff)))
  }

  /** The day entries the calendar holds; none when it is falsy or does not parse. */
  function Entries(calendar: CalendarInput): Calendar {
    match calendar
    case Absent => []
    case Encoded(None) => []
    case Encoded(Some(entries)) => entries
    case Decoded(entries) => entries
  }

  lemma {:induction false} SumCountsAppend(a: Calendar, b: Calendar)
    ensures SumCounts(a + b) == SumCounts(a) + SumCounts(b)
  {
    if a == [] {
      assert a + b == b;
    } else {
      SumCountsAppend(a[1..], b);
      assert (a + b)[1..] == a[1..] + b;
    }
  }

  /** Every day's count lands either among the kept or among the dropped days. */
  lemma {:induction false} FilterPlusRejectIsTotal(calendar: Calendar, keep: ((string, int)) -> bool)
    ensures SumCounts(Filter(calendar, keep)) + SumCounts(Reject(calendar, keep)) == SumCounts(calendar)
  {
    if calendar != [] {
      FilterPlusRejectIsTotal(calendar[1..], keep);
      var kept := if keep(calendar[0]) then [calendar[0]] else [];
      var dropped := if keep(calendar[0]) then [] else [calendar[0]];
      SumCountsAppend(kept, Filter(calendar[1..], keep));
      SumCountsAppend(dropped, Reject(calendar[1..], keep));
    }
  }

  lemma {:induction false} SumCountsNonNegative(calendar: Calendar)
    requires NonNegativeCounts(calendar)
    ensures SumCounts(calendar) >= 0
  {
    if calendar != [] {
      SumCountsNonNegative(calendar[1..]);
    }
  }

  /** Filtering a calendar without negative counts leaves none. */
  lemma {:induction false} FilterNonNegative(calendar: Calendar, keep: ((string, int)) -> bool)
    requires NonNegativeCounts(calendar)
    ensures NonNegativeCounts(Filter(calendar, keep)) && NonNegativeCounts(Reject(calendar, keep))
  {
    if calendar != [] {
      FilterNonNegative(calendar[1..], keep);
      var f := Filter(calendar, keep);
      var h := if keep(calendar[0]) then [calendar[0]] else [];
      forall k | 0 <= k < |f| ensures f[k].1 >= 0 {
        if k >= |h| {
          assert f[k] == Filter(calendar[1..], keep)[k - |h|];
        }
      }
      var r := Reject(calendar, keep);
      var g := if keep(calendar[0]) then [] else [calendar[0]];
      forall k | 0 <= k < |r| ensures r[k].1 >= 0 {
        if k >= |g| {
          assert r[k] == Reject(calendar[1..], keep)[k - |g|];
        }
      }
    }
  }

  /** The recent count and the submissions of the days left out add up to the calendar's
      total, and a calendar string that parses counts as its decoded entries. */
  lemma RecentPlusOlderIsTotal(calendar: Calendar, nowMs: int)
    ensures CountRecentSubmissions(Decoded(calendar), nowMs)
            + SumCounts(Reject(calendar, RecentTest(nowMs / 1000 - LookbackSeconds))) == SumCounts(calendar)
    ensures CountRecentSubmissions(Encoded(Some(calendar)), nowMs) == CountRecentSubmissions(Decoded(calendar), nowMs)
  {
    FilterPlusRejectIsTotal(calendar, RecentTest(nowMs / 1000 - LookbackSeconds));
  }

  /** With no negative day count, a stricter test never counts more. */
  lemma {:induction false} StricterFilterCountsLess(calendar: Calendar, strict: ((string, int)) -> bool, loose: ((string, int)) -> bool)
    requires NonNegativeCounts(calendar)
    requires forall e :: strict(e) ==> loose(e)
    ensures SumCounts(Filter(calendar, strict)) <= SumCounts(Filter(calendar, loose))
  {
    if calendar != [] {
      assert NonNegativeCounts(calendar[1..]) by {
        forall k | 0 <= k < |calendar| - 1 ensures calendar[1..][k].1 >= 0 {
          assert calendar[1..][k] == calendar[k + 1];
        }
      }
      StricterFilterCountsLess(calendar[1..], strict, loose);
      var s := if strict(calendar[0]) then [calendar[0]] else [];
      var l := if loose(calendar[0]) then [calendar[0]] else [];
      SumCountsAppend(s, Filter(calendar[1..], strict));
      SumCountsAppend(l, Filter(calendar[1..], loose));
    }
  }

  /** A later instant never counts more recent submissions. */
  lemma RecentCountAntitone(calendar: Calendar, earlierMs: int, laterMs: int)
    requires NonNegativeCounts(calendar) && earlierMs <= laterMs
    ensures CountRecentSubmissions(Decoded(calendar), laterMs) <= CountRecentSubmissions(Decoded(calendar), earlierMs)
  {
    var strict := RecentTest(laterMs / 1000 - LookbackSeconds);
    var loose := RecentTest(earlierMs / 1000 - LookbackSeconds);
    assert earlierMs / 1000 <= laterMs / 1000;
    StricterFilterCountsLess(calendar, strict, loose);
  }

  /** A day whose timestamp is the cutoff itself, or whose key `parseInt` cannot read, adds
      nothing. */
  lemma CutoffDayExcluded(calendar: Calendar, key: string, count: int, nowMs: int)
    requires var cutoff := nowMs / 1000 - LookbackSeconds;
             ParseInt(key) == Some(cutoff) || ParseInt(key).None?
    ensures CountRecentSubmissions(Decoded(calendar + [(key, count)]), nowMs) == CountRecentSubmissions(Decoded(calendar), nowMs)
  {
    var keep := RecentTest(nowMs / 1000 - LookbackSeconds);
    FilterAppend(calendar, [(key, count)], keep);
    assert Filter([(key, count)], keep) == [];
    assert Filter(calendar, keep) + [] == Filter(calendar, keep);
  }
  // ---------------------------------------------------------------- the model's reply

  /** A JSON value as `JSON.parse` returns it. */
  datatype Json =
    | JNull
    | JBool(b: bool)
    | JNumber(n: real)
    | JString(str: string)
    | JArray(items: seq<Json>)
    | JObject(fields: map<string, Json>)

  /** `content.slice(content.indexOf('{'), content.lastIndexOf('}') + 1)`, or `None` where
      the code throws "No JSON found" because one of the two braces is missing. */
  function ExtractJson(content: string): (r: Option<string>)
    ensures r.None? <==> '{' !in content || '}' !in content
  {
    var start := IndexOf(content, '{');
    var end := LastIndexOf(content, '}');
    if start == -1 || end == -1 then None
    else Some(if start <= end then content[start..end + 1] else [])
  }

  /** The candidate runs from the first `{` to the last `}`, both included; it is empty
      exactly when every `}` comes before every `{`. */
  lemma ExtractJsonSpec(content: string)
    requires '{' in content && '}' in content
    ensures var c := ExtractJson(content).value;
            c != [] ==>
              && c[0] == '{' && c[|c| - 1] == '}'
              && exists i :: OccursAt(content, c, i) && '{' !in content[..i] && '}' !in content[i + |c|..]
    ensures var c := ExtractJson(content).value;
            c == [] <==> forall i, j :: 0 <= i < |content| && 0 <= j < |content| && content[i] == '{' && content[j] == '}' ==> j < i
  {
    var start := IndexOf(content, '{');
    var end := LastIndexOf(content, '}');
    var c := ExtractJson(content).value;
    if start <= end {
      assert OccursAt(content, c, start);
      assert content[start + |c|..] == content[end + 1..];
      assert !(end < start);
    } else {
      forall i, j | 0 <= i < |content| && 0 <= j < |content| && content[i] == '{' && content[j] == '}' ensures j < i {
        assert content[i] in content[..start] || start <= i;
      }
    }
  }

  /** The regular expression `/\[(\d+)\]/` matches `s` with `[` at `i` and `]` at `j`. */
  ghost predicate GroupAt(s: string, i: int, j: int) {
    0 <= i && i + 1 < j < |s| && s[i] == '[' && s[j] == ']' && forall k :: i < k < j ==> IsDigit(s[k])
  }

  /** A match at `i` closes at the first character after the digits that follow `[`. */
  lemma GroupEnd(s: string, i: int, j: int)
    requires GroupAt(s, i, j)
    ensures DigitRun(s[i + 1..], false) == j - i - 1
  {
  }

  /** The leftmost match at or after position `i`, as the pair of bracket positions. */
  function FirstGroupFrom(s: string, i: nat): (r: Option<(nat, nat)>)
    ensures r.None? ==> forall a, b :: i <= a ==> !GroupAt(s, a, b)
    ensures r.Some? ==> i <= r.value.0 && GroupAt(s, r.value.0, r.value.1)
    ensures r.Some? ==> forall a, b :: i <= a < r.value.0 ==> !GroupAt(s, a, b)
    decreases |s| - i
  {
    if i >= |s| then None
    else
      var n := DigitRun(s[i + 1..], false);
      if s[i] == '[' && n > 0 && i + 1 + n < |s| && s[i + 1 + n] == ']' then
        assert forall k :: i < k < i + 1 + n ==> s[k] == s[i + 1..][..n][k - i - 1];
        Some((i, i + 1 + n))
      else
        var r := FirstGroupFrom(s, i + 1);
        assert forall b :: !GroupAt(s, i, b) by {
          forall b | GroupAt(s, i, b) ensures false {
            GroupEnd(s, i, b);
          }
        }
        r
  }

  /** `parseInt(s.match(/\[(\d+)\]/)?.[1])`: the number in the first bracketed run of digits,
      `None` (`NaN`) when there is none. */
  function BracketNumber(s: string): (r: Option<int>)
    ensures r.Some? ==> r.value >= 0
  {
    match FirstGroupFrom(s, 0)
    case None => None
    case Some((i, j)) =>
      GroupDigits(s, i, j);
      ParseInt(s[i + 1..j])
  }

  /** The digits between the brackets of a match are read as the number they denote. */
  lemma GroupDigits(s: string, i: int, j: int)
    requires GroupAt(s, i, j)
    ensures AllRadixDigits(s[i + 1..j], false)
    ensures ParseInt(s[i + 1..j]) == Some(DigitsValue(s[i + 1..j], false))
  {
    var ds := s[i + 1..j];
    assert AllRadixDigits(ds, false) by {
      forall k | 0 <= k < |ds| ensures IsDigit(ds[k]) {
        assert ds[k] == s[i + 1 + k];
      }
    }
    ParseIntOfDigits(ds);
  }

  /** `BracketNumber` reads the digits of the leftmost match, and is `None` exactly when
      nothing matches. */
  lemma BracketNumberSpec(s: string)
    ensures BracketNumber(s).None? <==> forall a, b :: !GroupAt(s, a, b)
    ensures BracketNumber(s).Some? ==>
      exists i, j :: && GroupAt(s, i, j)
                     && (forall a, b :: a < i ==> !GroupAt(s, a, b))
                     && AllRadixDigits(s[i + 1..j], false)
                     && BracketNumber(s) == Some(DigitsValue(s[i + 1..j], false))
  {
    match FirstGroupFrom(s, 0)
    case None =>
    case Some((i, j)) =>
      GroupDigits(s, i, j);
      forall a, b | a < i ensures !GroupAt(s, a, b) {
      }
  }

  /** The filter's test on a string: its first bracketed number is neither 0 (falsy) nor
      a basic problem. */
  predicate Allowed(s: string)
    ensures Allowed(s) ==>
      BracketNumber(s).Some? && BracketNumber(s).value > 0 && BracketNumber(s).value !in BasicProblems
  {
    match BracketNumber(s)
    case None => false
    case Some(n) => n != 0 && n !in BasicProblems
  }

  /** `filter(s => typeof s === 'string' && keep(s))`, keeping the strings themselves. */
  function KeptStrings(xs: seq<Json>, keep: string -> bool): (r: seq<string>)
    ensures |r| <= |xs|
  {
    if xs == [] then []
    else (if xs[0].JString? && keep(xs[0].str) then [xs[0].str] else []) + KeptStrings(xs[1..], keep)
  }

  /** Every kept string is a string element of the input that passes the test. */
  lemma {:induction false} KeptStringsSound(xs: seq<Json>, keep: string -> bool)
    ensures forall k :: 0 <= k < |KeptStrings(xs, keep)| ==>
      keep(KeptStrings(xs, keep)[k]) && JString(KeptStrings(xs, keep)[k]) in xs
  {
    if xs != [] {
      KeptStringsSound(xs[1..], keep);
      var r := KeptStrings(xs, keep);
      var h := if xs[0].JString? && keep(xs[0].str) then [xs[0].str] else [];
      forall k | 0 <= k < |r| ensures keep(r[k]) && JString(r[k]) in xs {
        if k >= |h| {
          assert r[k] == KeptStrings(xs[1..], keep)[k - |h|];
        }
      }
    }
  }

  /** Exactly the string elements that pass the test are kept. */
  lemma {:induction false} KeptStringsExactly(xs: seq<Json>, keep: string -> bool, x: string)
    ensures x in KeptStrings(xs, keep) <==> JString(x) in xs && keep(x)
  {
    if xs != [] {
      KeptStringsExactly(xs[1..], keep, x);
      assert JString(x) in xs <==> JString(x) == xs[0] || JString(x) in xs[1..];
    }
  }

  /** The filter keeps the relative order of the strings. */
  lemma {:induction false} KeptStringsAppend(a: seq<Json>, b: seq<Json>, keep: string -> bool)
    ensures KeptStrings(a + b, keep) == KeptStrings(a, keep) + KeptStrings(b, keep)
  {
    if a == [] {
      assert a + b == b;
    } else {
      var x, t := a[0], a[1..];
      assert a == [x] + t;
      assert a + b == [x] + (t + b);
      KeptStringsAppend(t, b, keep);
      KeptStringsCons(x, t + b, keep);
      KeptStringsCons(x, t, keep);
    }
  }

  lemma KeptStringsCons(x: Json, xs: seq<Json>, keep: string -> bool)
    ensures KeptStrings([x] + xs, keep) == (if x.JString? && keep(x.str) then [x.str] else []) + KeptStrings(xs, keep)
  {
    assert ([x] + xs)[1..] == xs;
  }

  /** `filter(...).slice(0, 3)`: at most three, each an allowed string element of `xs`,
      and they are the first of the strings the filter keeps. */
  function FilterSuggestions(xs: seq<Json>): (r: seq<string>)
    ensures |r| == if |KeptStrings(xs, Allowed)| < 3 then |KeptStrings(xs, Allowed)| else 3
    ensures r == KeptStrings(xs, Allowed)[..|r|]
    ensures forall k :: 0 <= k < |r| ==> Allowed(r[k]) && JString(r[k]) in xs
  {
    KeptStringsSound(xs, Allowed);
    var all := KeptStrings(xs, Allowed);
    all[..if |all| < 3 then |all| else 3]
  }

  /** No suggestion that comes through the filter names problem 0 or a basic problem in its
      first bracketed number, and a string without a bracketed number never comes through. */
  lemma NoBasicSuggestion(xs: seq<Json>, x: string)
    ensures x in FilterSuggestions(xs) ==>
      BracketNumber(x).Some? && BracketNumber(x).value != 0 && BracketNumber(x).value !in BasicProblems
    ensures (forall a, b :: !GroupAt(x, a, b)) ==> x !in FilterSuggestions(xs)
  {
    BracketNumberSpec(x);
  }
  /** What the code keeps of the reply: a summary, at most three weaknesses, a score and at
      most three suggestions. The degraded result has no score. */
  datatype AnalysisResult = AnalysisResult(summary: string, weaknesses: seq<Json>, score: Option<real>, suggestions: seq<string>)

  /** Why one call of `analyzeProfile` throws. */
  datatype AttemptError = CallFailed | EmptyResponse | NoJsonFound | Unparseable | SuggestionsNotArray

  /** `result.x`: `None` is `undefined`. */
  function Member(obj: map<string, Json>, key: string): Option<Json> {
    if key in obj then Some(obj[key]) else None
  }

  /** JavaScript truthiness of a member's value. */
  predicate Truthy(v: Option<Json>) {
    match v
    case None => false
    case Some(JNull) => false
    case Some(JBool(b)) => b
    case Some(JNumber(n)) => n != 0.0
    case Some(JString(s)) => s != []
    case Some(_) => true
  }

  /** `Number(s)` on a string, for the integer forms: blank is 0, an optionally signed run
      of decimal digits is its value, anything else `NaN` (`None`). */
  function StringToNumber(s: string): Option<real> {
    var t := Trim(s);
    if t == [] then Some(0.0)
    else
      var negative := t[0] == '-';
      var ds := if t[0] == '-' || t[0] == '+' then t[1..] else t;
      if ds != [] && AllRadixDigits(ds, false) then
        var v := DigitsValue(ds, false) as real;
        Some(if negative then -v else v)
      else None
  }

  /** `Number(v)`; `None` stands for `NaN`. */
  function ToNumber(v: Option<Json>): Option<real> {
    match v
    case None => None
    case Some(JNull) => Some(0.0)
    case Some(JBool(b)) => Some(if b then 1.0 else 0.0)
    case Some(JNumber(n)) => Some(n)
    case Some(JString(s)) => StringToNumber(s)
    case Some(JArray(items)) => if items == [] then Some(0.0) else None
    case Some(JObject(_)) => None
  }

  /** `Math.min(100, Math.max(0, Number(v) || 0))`. */
  function Score(v: Option<Json>): (r: real)
    ensures 0.0 <= r <= 100.0
    ensures ToNumber(v).None? ==> r == 0.0
    ensures ToNumber(v).Some? && 0.0 <= ToNumber(v).value <= 100.0 ==> r == ToNumber(v).value
    ensures ToNumber(v).Some? && ToNumber(v).value < 0.0 ==> r == 0.0
    ensures ToNumber(v).Some? && ToNumber(v).value > 100.0 ==> r == 100.0
  {
    var n := if ToNumber(v).Some? then ToNumber(v).value else 0.0;
    var low := if n < 0.0 then 0.0 else n;
    if low > 100.0 then 100.0 else low
  }

  /** `typeof result.summary === 'string' ? result.summary : \`Analysis of ${username}'s profile\``. */
  function Summary(v: Option<Json>, username: string): (r: string)
    ensures v.Some? && v.value.JString? ==> r == v.value.str
    ensures !(v.Some? && v.value.JString?) ==> r == "Analysis of " + username + "'s profile"
  {
    if v.Some? && v.value.JString? then v.value.str else "Analysis of " + username + "'s profile"
  }

  /** `Array.isArray(result.weaknesses) ? result.weaknesses.slice(0, 3) : []`. */
  function Weaknesses(v: Option<Json>): (r: seq<Json>)
    ensures |r| <= 3
    ensures v.Some? && v.value.JArray? ==> |r| == if |v.value.items| < 3 then |v.value.items| else 3
    ensures v.Some? && v.value.JArray? ==> r == v.value.items[..|r|]
    ensures !(v.Some? && v.value.JArray?) ==> r == []
  {
    if v.Some? && v.value.JArray? then v.value.items[..if |v.value.items| < 3 then |v.value.items| else 3]
    else []
  }

  /** The sanitised result, whatever the model returned. */
  ghost predicate WellFormed(r: AnalysisResult) {
    && |r.weaknesses| <= 3
    && |r.suggestions| <= 3
    && (r.score.Some? ==> 0.0 <= r.score.value <= 100.0)
    && forall k :: 0 <= k < |r.suggestions| ==> Allowed(r.suggestions[k])
  }

  /** `result.suggestions || []` once it is known not to throw: the array's items, else none. */
  function SuggestionItems(v: Option<Json>): seq<Json> {
    if v.Some? && v.value.JArray? then v.value.items else []
  }

  /** The object literal `analyzeProfile` returns. `(result.suggestions || []).filter` throws
      when `suggestions` is truthy but not an array. */
  function Sanitise(result: map<string, Json>, username: string): (r: Result<AnalysisResult, AttemptError>)
    ensures r.Failure? <==> Truthy(Member(result, "suggestions")) && !Member(result, "suggestions").value.JArray?
    ensures r.Success? ==> WellFormed(r.value) && r.value.score.Some?
    // the fields are the reply's own, each through its guard
    ensures r.Success? ==>
      && r.value.summary == Summary(Member(result, "summary"), username)
      && r.value.weaknesses == Weaknesses(Member(result, "weaknesses"))
      && r.value.score == Some(Score(Member(result, "score")))
      && r.value.suggestions == FilterSuggestions(SuggestionItems(Member(result, "suggestions")))
  {
    var suggestions := Member(result, "suggestions");
    if Truthy(suggestions) && !suggestions.value.JArray? then Failure(SuggestionsNotArray)
    else
      var items := SuggestionItems(suggestions);
      Success(AnalysisResult(
        Summary(Member(result, "summary"), username),
        Weaknesses(Member(result, "weaknesses")),
        Some(Score(Member(result, "score"))),
        FilterSuggestions(items)))
  }

  /** What one chat-completion call comes to: it throws, or it yields
      `response.choices[0]?.message?.content` (`None` when that is `undefined`). */
  datatype LlmReply = Rejected | Completed(content: Option<string>)

  /** `analyzeProfile` once the reply is in; `parse` is `JSON.parse`, `None` where it throws. */
  function AnalyzeProfile(reply: LlmReply, parse: string -> Option<map<string, Json>>, username: string): (r: Result<AnalysisResult, AttemptError>)
    ensures r.Success? ==> WellFormed(r.value) && r.value.score.Some?
    ensures r.Success? ==>
      && reply.Completed? && reply.content.Some?
      && '{' in reply.content.value && '}' in reply.content.value
      && parse(ExtractJson(reply.content.value).value).Some?
    // each way of throwing, in the order the code meets them
    ensures reply.Rejected? ==> r == Failure(CallFailed)
    ensures reply.Completed? && (reply.content.None? || reply.content.value == []) ==> r == Failure(EmptyResponse)
    ensures (&& reply.Completed? && reply.content.Some? && reply.content.value != []
             && ('{' !in reply.content.value || '}' !in reply.content.value))
            ==> r == Failure(NoJsonFound)
    ensures (&& reply.Completed? && reply.content.Some? && reply.content.value != []
             && '{' in reply.content.value && '}' in reply.content.value)
            ==> r == match parse(ExtractJson(reply.content.value).value)
                     case None => Failure(Unparseable)
                     case Some(result) => Sanitise(result, username)
  {
    match reply
    case Rejected => Failure(CallFailed)
    case Completed(content) =>
      if content.None? || content.value == [] then Failure(EmptyResponse)
      else
        match ExtractJson(content.value)
        case None => Failure(NoJsonFound)
        case Some(candidate) =>
          match parse(candidate)
          case None => Failure(Unparseable)
          case Some(result) => Sanitise(result, username)
  }

  /** The object the `catch` of `GenerateAiSummary` returns when both attempts failed. */
  function Degraded(username: string): (r: AnalysisResult)
    ensures WellFormed(r) && r.score.None? && r.suggestions == []
    ensures r.weaknesses == [JString("System error")]
    ensures r.summary == "Technical analysis unavailable for " + (if username == [] then "unknown user" else username)
  {
    AnalysisResult(
      "Technical analysis unavailable for " + (if username == [] then "unknown user" else username),
      [JString("System error")],
      None,
      [])
  }

  /** The figures the prompt is built from. */
  datatype PromptFacts = PromptFacts(
    level: Tier,
    totalSolved: int,
    easySolved: int,
    mediumSolved: int,
    hardSolved: int,
    recentSubmissions: int,
    contestRating: Option<real>)

  /** `contestStats?.rating || 'N/A'`: a missing or zero rating is shown as N/A. */
  function Prompt(profile: UserProfile, nowMs: int): (p: PromptFacts)
    ensures p.level == ExperienceLevel(profile.totalSolved)
    ensures p.recentSubmissions == CountRecentSubmissions(Decoded(profile.submissionCalendar), nowMs)
    ensures p.contestRating.Some? <==> profile.contestStats.Some? && profile.contestStats.value.rating != 0.0
  {
    PromptFacts(
      ExperienceLevel(profile.totalSolved),
      profile.totalSolved, profile.easySolved, profile.mediumSolved, profile.hardSolved,
      CountRecentSubmissions(Decoded(profile.submissionCalendar), nowMs),
      if profile.contestStats.Some? && profile.contestStats.value.rating != 0.0
      then Some(profile.contestStats.value.rating) else None)
  }

  /** The module-level `client` of `AiSummary.js`: built with `MISTRAL_API_KEY1`, rebuilt with
      `MISTRAL_API_KEY2` the first time a call fails, and never switched back. */
  class AiClient {
    var usingKey2: bool

    constructor ()
      ensures !usingKey2
    {
      usingKey2 := false;
    }

    /** `tryWithFallback(fn)`, where `attempt(n, key2)` is what the `n`-th call of `fn`
        comes to while `client` holds key 2 exactly when `key2`. At most two attempts; the
        second runs with key 2, which stays in place. */
    method TryWithFallback<T>(attempt: (nat, bool) -> Result<T, AttemptError>) returns (r: Result<T, AttemptError>, attempts: nat)
      modifies this
      ensures attempts == if attempt(0, old(usingKey2)).Success? then 1 else 2
      ensures attempt(0, old(usingKey2)).Success? ==> r == attempt(0, old(usingKey2)) && usingKey2 == old(usingKey2)
      ensures attempt(0, old(usingKey2)).Failure? ==> r == attempt(1, true) && usingKey2
    {
      r := attempt(0, usingKey2);
      attempts := 1;
      if r.Failure? {
        usingKey2 := true;
        r := attempt(1, usingKey2);
        attempts := 2;
      }
    }

    /** `GenerateAiSummary(req)` for `req.formattedData == profile` at the instant `nowMs`:
        `llm(prompt, n, key2)` is what the `n`-th chat-completion call comes to. The result
        is always well formed; it is the first attempt's when that succeeds, else the
        retry's, else the degraded object. */
    method GenerateAiSummary(profile: UserProfile, nowMs: int, llm: (PromptFacts, nat, bool) -> LlmReply, parse: string -> Option<map<string, Json>>)
      returns (result: AnalysisResult)
      modifies this
      ensures WellFormed(result)
      ensures var prompt := Prompt(profile, nowMs);
              var first := AnalyzeProfile(llm(prompt, 0, old(usingKey2)), parse, profile.username);
              var second := AnalyzeProfile(llm(prompt, 1, true), parse, profile.username);
              && (first.Success? ==> result == first.value && usingKey2 == old(usingKey2))
              && (first.Failure? && second.Success? ==> result == second.value && usingKey2)
              && (first.Failure? && second.Failure? ==> result == Degraded(profile.username) && usingKey2)
    {
      var prompt := Prompt(profile, nowMs);
      var username := profile.username;
      var attempt := (n: nat, key2: bool) => AnalyzeProfile(llm(prompt, n, key2), parse, username);
      var outcome, _ := TryWithFallback(attempt);
      ghost var first := AnalyzeProfile(llm(prompt, 0, old(usingKey2)), parse, username);
      ghost var second := AnalyzeProfile(llm(prompt, 1, true), parse, username);
      assert outcome == first || outcome == second;
      if outcome.Success? {
        result := outcome.value;
      } else {
        result := Degraded(username);
      }
    }
  }
}
