/** The comparison variant of the profile handler (`fetchyy1.js`): `calculateWeaknesses` and
    `calculateStrengths` rank every skill tag by problems solved and keep three names, its
    own `formatData` adds the per-difficulty totals and both rankings, and `fetchUserProfile`
    maps the upstream outcome to a status. */
module TagRanking {
  import opened Wrappers
  import opened Payload

  /** The two comparators: `a.problemsSolved - b.problemsSolved` and its reverse. */
  datatype Order = Ascending | Descending

  /** The key each comparator sorts by in ascending order. */
  function Rank(order: Order, t: Tag): int {
    if order == Ascending then t.problemsSolved else -t.problemsSolved
  }

  ghost predicate Sorted(order: Order, s: seq<Tag>) {
    forall i, j :: 0 <= i < j < |s| ==> Rank(order, s[i]) <= Rank(order, s[j])
  }

  /** The tags of `s` whose key is `v`, in their order in `s`. A sort is stable when it keeps
      this subsequence for every `v`. */
  function WithRank(order: Order, s: seq<Tag>, v: int): seq<Tag> {
    if s == [] then []
    else (if Rank(order, s[0]) == v then [s[0]] else []) + WithRank(order, s[1..], v)
  }

  /** `s` with `t` placed before the first tag whose key is not smaller than its own. */
  function Insert(order: Order, t: Tag, s: seq<Tag>): (r: seq<Tag>)
    ensures multiset(r) == multiset(s) + multiset{t}
  {
    if s == [] || Rank(order, t) <= Rank(order, s[0]) then [t] + s
    else
      assert s == [s[0]] + s[1..];
      [s[0]] + Insert(order, t, s[1..])
  }

  /** Inserting keeps a sorted sequence sorted. */
  lemma {:induction false} InsertSorted(order: Order, t: Tag, s: seq<Tag>)
    requires Sorted(order, s)
    ensures Sorted(order, Insert(order, t, s))
  {
    if s != [] && Rank(order, t) > Rank(order, s[0]) {
      var rest := Insert(order, t, s[1..]);
      InsertSorted(order, t, s[1..]);
      forall k | 0 <= k < |rest| ensures Rank(order, s[0]) <= Rank(order, rest[k]) {
        InsertMember(order, t, s[1..], rest[k]);
        if rest[k] != t {
          var j :| 0 <= j < |s[1..]| && s[1..][j] == rest[k];
          assert s[j + 1] == rest[k];
        }
      }
      var r := [s[0]] + rest;
      forall i, j | 0 <= i < j < |r| ensures Rank(order, r[i]) <= Rank(order, r[j]) {
        assert r[j] == rest[j - 1];
        if i > 0 {
          assert r[i] == rest[i - 1];
        }
      }
    }
  }

  /** A tag of `Insert(order, t, s)` is `t` or a tag of `s`. */
  lemma InsertMember(order: Order, t: Tag, s: seq<Tag>, x: Tag)
    requires x in Insert(order, t, s)
    ensures x == t || x in s
  {
    assert x in multiset(Insert(order, t, s));
  }

  /** `t` goes in front of every tag of its own key: only tags of a smaller key precede it. */
  lemma {:induction false} InsertWithRank(order: Order, t: Tag, s: seq<Tag>, v: int)
    ensures WithRank(order, Insert(order, t, s), v)
            == if Rank(order, t) == v then [t] + WithRank(order, s, v) else WithRank(order, s, v)
  {
    if s == [] || Rank(order, t) <= Rank(order, s[0]) {
      assert ([t] + s)[1..] == s;
    } else {
      var rest := Insert(order, t, s[1..]);
      InsertWithRank(order, t, s[1..], v);
      assert ([s[0]] + rest)[1..] == rest;
    }
  }

  /** `[...s].sort(comparator)`, as an insertion sort. */
  function SortTags(order: Order, s: seq<Tag>): (r: seq<Tag>)
    ensures multiset(r) == multiset(s)
  {
    if s == [] then []
    else
      assert s == [s[0]] + s[1..];
      Insert(order, s[0], SortTags(order, s[1..]))
  }

  /** `Array.prototype.sort` is stable (ECMA-262, 2019 edition onward, section 22.1.3.27):
      the result is sorted by key, a permutation of `s`, and keeps the tags of equal key
      in their order in `s`. */
  lemma {:induction false} SortTagsCorrect(order: Order, s: seq<Tag>)
    ensures Sorted(order, SortTags(order, s))
    ensures multiset(SortTags(order, s)) == multiset(s)
    ensures forall v :: WithRank(order, SortTags(order, s), v) == WithRank(order, s, v)
  {
    SortTagsSorted(order, s);
    SortTagsStable(order, s);
  }

  lemma {:induction false} SortTagsSorted(order: Order, s: seq<Tag>)
    ensures Sorted(order, SortTags(order, s))
  {
    if s != [] {
      SortTagsSorted(order, s[1..]);
      InsertSorted(order, s[0], SortTags(order, s[1..]));
    }
  }

  lemma {:induction false} SortTagsStable(order: Order, s: seq<Tag>)
    ensures forall v :: WithRank(order, SortTags(order, s), v) == WithRank(order, s, v)
  {
    if s != [] {
      SortTagsStable(order, s[1..]);
      forall v ensures WithRank(order, SortTags(order, s), v) == WithRank(order, s, v) {
        InsertWithRank(order, s[0], SortTags(order, s[1..]), v);
      }
    }
  }

  /** A sequence that is sorted and keeps every equal-key subsequence of another is that
      other sequence sorted: any stable sort gives exactly `SortTags`. */
  lemma {:induction false} StableSortIsUnique(order: Order, a: seq<Tag>, b: seq<Tag>)
    requires Sorted(order, a) && Sorted(order, b)
    requires forall v :: WithRank(order, a, v) == WithRank(order, b, v)
    ensures a == b
  {
    EmptyTogether(order, a, b);
    if a != [] {
      SameHead(order, a, b);
      SameTails(order, a, b);
      assert Sorted(order, a[1..]) && Sorted(order, b[1..]);
      StableSortIsUnique(order, a[1..], b[1..]);
      assert a == [a[0]] + a[1..] && b == [b[0]] + b[1..];
    }
  }

  /** Sequences with the same key groups are empty together. */
  lemma EmptyTogether(order: Order, a: seq<Tag>, b: seq<Tag>)
    requires forall v :: WithRank(order, a, v) == WithRank(order, b, v)
    ensures a == [] <==> b == []
  {
    WithRankLength(order, a);
    WithRankLength(order, b);
    if a != [] {
      assert WithRank(order, a, Rank(order, a[0])) == WithRank(order, b, Rank(order, a[0]));
    }
    if b != [] {
      assert WithRank(order, a, Rank(order, b[0])) == WithRank(order, b, Rank(order, b[0]));
    }
  }

  /** Two sorted sequences with the same key groups start with the same tag: the first tag
      of the smallest key. */
  lemma SameHead(order: Order, a: seq<Tag>, b: seq<Tag>)
    requires a != [] && b != []
    requires Sorted(order, a) && Sorted(order, b)
    requires forall v :: WithRank(order, a, v) == WithRank(order, b, v)
    ensures a[0] == b[0]
  {
    var m := Rank(order, a[0]);
    var r := Rank(order, b[0]);
    WithRankLength(order, a);
    WithRankLength(order, b);
    assert WithRank(order, a, r) == WithRank(order, b, r);
    assert WithRank(order, b, m) == WithRank(order, a, m);
    FirstHasLeastRank(order, a, r);
    FirstHasLeastRank(order, b, m);
    assert WithRank(order, a, m)[0] == a[0];
    assert WithRank(order, b, m)[0] == b[0];
  }

  /** In a sorted sequence the first tag has the smallest key of every key group present. */
  lemma FirstHasLeastRank(order: Order, s: seq<Tag>, v: int)
    requires Sorted(order, s) && WithRank(order, s, v) != []
    ensures s != [] && Rank(order, s[0]) <= v
  {
    WithRankInside(order, s, v);
    var x := WithRank(order, s, v)[0];
    var i :| 0 <= i < |s| && s[i] == x;
    assert Rank(order, s[0]) <= Rank(order, s[i]);
  }

  /** Dropping a common first tag keeps the key groups equal. */
  lemma SameTails(order: Order, a: seq<Tag>, b: seq<Tag>)
    requires a != [] && b != [] && a[0] == b[0]
    requires forall v :: WithRank(order, a, v) == WithRank(order, b, v)
    ensures forall v :: WithRank(order, a[1..], v) == WithRank(order, b[1..], v)
  {
    forall v ensures WithRank(order, a[1..], v) == WithRank(order, b[1..], v) {
      var head := if Rank(order, a[0]) == v then [a[0]] else [];
      assert WithRank(order, a, v) == head + WithRank(order, a[1..], v);
      assert WithRank(order, b, v) == head + WithRank(order, b[1..], v);
      assert WithRank(order, a[1..], v) == (head + WithRank(order, a[1..], v))[|head|..];
      assert WithRank(order, b[1..], v) == (head + WithRank(order, b[1..], v))[|head|..];
    }
  }

  lemma {:induction false} WithRankLength(order: Order, s: seq<Tag>)
    ensures s != [] ==> |WithRank(order, s, Rank(order, s[0]))| > 0
  {
  }

  /** Every tag of `WithRank(order, s, v)` is a tag of `s` with key `v`. */
  lemma {:induction false} WithRankInside(order: Order, s: seq<Tag>, v: int)
    ensures forall k :: 0 <= k < |WithRank(order, s, v)| ==> WithRank(order, s, v)[k] in s && Rank(order, WithRank(order, s, v)[k]) == v
  {
    if s != [] {
      WithRankInside(order, s[1..], v);
    }
  }

  /** `a.concat(b)` keeps, for every key, the tags of `a` before those of `b`. */
  lemma {:induction false} WithRankAppend(order: Order, a: seq<Tag>, b: seq<Tag>, v: int)
    ensures WithRank(order, a + b, v) == WithRank(order, a, v) + WithRank(order, b, v)
  {
    if a == [] {
      assert a + b == b;
    } else {
      var x, t := a[0], a[1..];
      assert a == [x] + t;
      assert a + b == [x] + (t + b);
      WithRankAppend(order, t, b, v);
      WithRankCons(order, x, t + b, v);
      WithRankCons(order, x, t, v);
    }
  }

  lemma WithRankCons(order: Order, x: Tag, s: seq<Tag>, v: int)
    ensures WithRank(order, [x] + s, v) == (if Rank(order, x) == v then [x] else []) + WithRank(order, s, v)
  {
    assert ([x] + s)[1..] == s;
  }

  /** The spread `[...advanced, ...intermediate, ...fundamental]`. */
  function AllTags(tc: TagProblemCounts): seq<Tag> {
    tc.advanced + tc.intermediate + tc.fundamental
  }

  /** `slice(0, 3)`. */
  function Take3(s: seq<Tag>): seq<Tag> {
    s[..if |s| < 3 then |s| else 3]
  }

  /** `map(tag => tag.tagName)`. */
  function TagNames(s: seq<Tag>): (r: seq<string>)
    ensures |r| == |s| && forall k :: 0 <= k < |s| ==> r[k] == s[k].tagName
  {
    seq(|s|, k requires 0 <= k < |s| => s[k].tagName)
  }

  /** `calculateWeaknesses`: the names of the three least-solved tags. */
  function CalculateWeaknesses(tc: TagProblemCounts): (r: seq<string>)
    ensures |r| == if |AllTags(tc)| < 3 then |AllTags(tc)| else 3
  {
    TagNames(Take3(SortTags(Ascending, AllTags(tc))))
  }

  /** `calculateStrengths`: the names of the three most-solved tags. */
  function CalculateStrengths(tc: TagProblemCounts): (r: seq<string>)
    ensures |r| == if |AllTags(tc)| < 3 then |AllTags(tc)| else 3
  {
    TagNames(Take3(SortTags(Descending, AllTags(tc))))
  }

  /** The first three of the sorted tags come from `s`, and none of them has a larger key
      than any tag of `s` left out. */
  lemma {:induction false} TopThreeSelection(order: Order, s: seq<Tag>)
    ensures var chosen := Take3(SortTags(order, s));
            && multiset(chosen) <= multiset(s)
            && forall c, t :: c in chosen && t in multiset(s) - multiset(chosen) ==> Rank(order, c) <= Rank(order, t)
  {
    SortTagsSorted(order, s);
    var sorted := SortTags(order, s);
    var chosen := Take3(sorted);
    var rest := sorted[|chosen|..];
    assert sorted == chosen + rest;
    assert multiset(s) == multiset(chosen) + multiset(rest);
    MultisetCancel(multiset(chosen), multiset(rest));
    SortedPrefixFirst(order, chosen, rest);
  }

  /** Removing what was added gives back the rest. */
  lemma MultisetCancel(a: multiset<Tag>, b: multiset<Tag>)
    ensures (a + b) - a == b
  {
    forall x ensures ((a + b) - a)[x] == b[x] {
    }
  }

  /** In a sorted sequence, every element of a prefix ranks at or before every element after it. */
  lemma SortedPrefixFirst(order: Order, prefix: seq<Tag>, rest: seq<Tag>)
    requires Sorted(order, prefix + rest)
    ensures forall c, t :: c in prefix && t in rest ==> Rank(order, c) <= Rank(order, t)
  {
    forall c, t | c in prefix && t in rest ensures Rank(order, c) <= Rank(order, t) {
      var i :| 0 <= i < |prefix| && prefix[i] == c;
      var j :| 0 <= j < |rest| && rest[j] == t;
      assert (prefix + rest)[i] == c && (prefix + rest)[|prefix| + j] == t;
    }
  }

  /** Every tag `calculateWeaknesses` picks has solved no more problems than any tag it
      leaves out. */
  lemma WeaknessesAreLeastSolved(tc: TagProblemCounts)
    ensures var chosen := Take3(SortTags(Ascending, AllTags(tc)));
            && CalculateWeaknesses(tc) == TagNames(chosen)
            && multiset(chosen) <= multiset(AllTags(tc))
            && forall c, t :: c in chosen && t in multiset(AllTags(tc)) - multiset(chosen) ==> c.problemsSolved <= t.problemsSolved
  {
    TopThreeSelection(Ascending, AllTags(tc));
    var chosen := Take3(SortTags(Ascending, AllTags(tc)));
    forall c, t | c in chosen && t in multiset(AllTags(tc)) - multiset(chosen) ensures c.problemsSolved <= t.problemsSolved {
      assert Rank(Ascending, c) <= Rank(Ascending, t);
    }
  }

  /** Every tag `calculateStrengths` picks has solved no fewer problems than any tag it
      leaves out. */
  lemma StrengthsAreMostSolved(tc: TagProblemCounts)
    ensures var chosen := Take3(SortTags(Descending, AllTags(tc)));
            && CalculateStrengths(tc) == TagNames(chosen)
            && multiset(chosen) <= multiset(AllTags(tc))
            && forall c, t :: c in chosen && t in multiset(AllTags(tc)) - multiset(chosen) ==> c.problemsSolved >= t.problemsSolved
  {
    TopThreeSelection(Descending, AllTags(tc));
    var chosen := Take3(SortTags(Descending, AllTags(tc)));
    forall c, t | c in chosen && t in multiset(AllTags(tc)) - multiset(chosen) ensures c.problemsSolved >= t.problemsSolved {
      assert Rank(Descending, c) <= Rank(Descending, t);
    }
  }

  /** Tags with equal counts keep their order of concatenation, advanced before
      intermediate before fundamental, in both rankings. */
  lemma TiesKeepBucketOrder(order: Order, tc: TagProblemCounts, v: int)
    ensures WithRank(order, SortTags(order, AllTags(tc)), v)
            == WithRank(order, tc.advanced, v) + WithRank(order, tc.intermediate, v) + WithRank(order, tc.fundamental, v)
  {
    SortTagsCorrect(order, AllTags(tc));
    WithRankAppend(order, tc.advanced + tc.intermediate, tc.fundamental, v);
    WithRankAppend(order, tc.advanced, tc.intermediate, v);
  }

  datatype CompareSkills = CompareSkills(
    advanced: seq<Tag>,
    intermediate: seq<Tag>,
    fundamental: seq<Tag>,
    weaknesses: seq<string>,
    strengths: seq<string>)

  /** The record this variant's `formatData` builds. */
  datatype CompareProfile = CompareProfile(
    username: string,
    totalSolved: int,
    totalQuestions: int,
    easySolved: int,
    totalEasy: int,
    mediumSolved: int,
    totalMedium: int,
    hardSolved: int,
    totalHard: int,
    ranking: int,
    contributionPoints: int,
    reputation: int,
    submissionCalendar: Calendar,
    skills: CompareSkills)

  /** This variant's `formatData`: it throws on a `null` user, on fewer than four entries in
      `acSubmissionNum` or `allQuestionsCount`, and on a malformed calendar. */
  function FormatData(data: RawData): (r: Result<CompareProfile, string>)
    ensures r.Success? <==>
      && data.matchedUser.Some?
      && |data.matchedUser.value.acSubmissionNum| >= 4
      && |data.allQuestionsCount| >= 4
      && data.matchedUser.value.submissionCalendar.Success?
  {
    match data.matchedUser
    case None => Failure(ReadUsernameMessage)
    case Some(u) =>
      if |u.acSubmissionNum| < 4 || |data.allQuestionsCount| < 4 then Failure(ReadCountMessage)
      else
        match u.submissionCalendar
        case Failure(message) => Failure(message)
        case Success(calendar) =>
          var ac, all := u.acSubmissionNum, data.allQuestionsCount;
          var tc := u.tagProblemCounts;
          Success(CompareProfile(
            u.username,
            ac[0].count, all[0].count,
            ac[1].count, all[1].count,
            ac[2].count, all[2].count,
            ac[3].count, all[3].count,
            u.profile.ranking,
            u.contributionPoints,
            u.profile.reputation,
            calendar,
            CompareSkills(tc.advanced, tc.intermediate, tc.fundamental, CalculateWeaknesses(tc), CalculateStrengths(tc))))
  }

  /** Each solved count is paired with the total of the same difficulty, and the weaknesses
      and strengths are ranked from the very buckets the record passes through. */
  lemma FormatDataPairsTotals(data: RawData)
    requires FormatData(data).Success?
    ensures var p := FormatData(data).value;
            var u := data.matchedUser.value;
            var all := data.allQuestionsCount;
            && (p.easySolved, p.totalEasy) == (u.acSubmissionNum[1].count, all[1].count)
            && (p.mediumSolved, p.totalMedium) == (u.acSubmissionNum[2].count, all[2].count)
            && (p.hardSolved, p.totalHard) == (u.acSubmissionNum[3].count, all[3].count)
            && (p.totalSolved, p.totalQuestions) == (u.acSubmissionNum[0].count, all[0].count)
            && AllTags(u.tagProblemCounts) == p.skills.advanced + p.skills.intermediate + p.skills.fundamental
            && p.skills.weaknesses == CalculateWeaknesses(u.tagProblemCounts)
            && p.skills.strengths == CalculateStrengths(u.tagProblemCounts)
  {
  }

  const UserNotFoundMessage := "User not found"
  const InternalErrorMessage := "Internal server error"

  /** This variant's `fetchUserProfile`: the raw `:username` is posted as it is, the status
      of the upstream response is never looked at, a reply with `errors` is a 400, and
      anything thrown along the promise chain is a 500. */
  function FetchUserProfile(username: string, upstream: Upstream): (h: Handled<CompareProfile>)
    ensures h.requested == Some(username)
    ensures h.reply.status in {200, 400, 500}
    ensures h.reply.status == 400 <==>
      upstream.Responded? && upstream.body.Success? && upstream.body.value.hasErrors
    ensures h.reply.status == 400 ==> h.reply.body == ErrorBody(UserNotFoundMessage)
    ensures h.reply.status == 500 ==> h.reply.body == ErrorBody(InternalErrorMessage)
    ensures h.reply.status == 200 <==> h.reply.body.DataBody?
    // a record, whatever the upstream status, exactly for a decoded reply without `errors`
    // whose data this `formatData` accepts
    ensures h.reply.body.DataBody? <==>
      && upstream.Responded? && upstream.body.Success? && !upstream.body.value.hasErrors
      && upstream.body.value.data.Some? && FormatData(upstream.body.value.data.value).Success?
    ensures h.reply.body.DataBody? ==> FormatData(upstream.body.value.data.value) == Success(h.reply.body.value)
  {
    var reply :=
      match upstream
      case NetworkError(_) => Reply(500, ErrorBody(InternalErrorMessage))
      case Responded(_, body) =>
        match body
        case Failure(_) => Reply(500, ErrorBody(InternalErrorMessage))
        case Success(json) =>
          if json.hasErrors then Reply(400, ErrorBody(UserNotFoundMessage))
          else
            match json.data
            case None => Reply(500, ErrorBody(InternalErrorMessage))
            case Some(data) =>
              match FormatData(data)
              case Failure(_) => Reply(500, ErrorBody(InternalErrorMessage))
              case Success(formatted) => Reply(200, DataBody(formatted));
    Handled(reply, Some(username))
  }
}
