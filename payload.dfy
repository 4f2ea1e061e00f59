/** The data the LeetCode GraphQL endpoint returns for the `getUserProfile` query, the
    outcome of one upstream request, and the HTTP reply a handler sends. */
module Payload {
  import opened Wrappers

  /** One entry of `allQuestionsCount`: the number of problems of a difficulty. */
  datatype QuestionCount = QuestionCount(difficulty: string, count: int)

  /** One entry of `acSubmissionNum` / `totalSubmissionNum`. */
  datatype SubmissionCount = SubmissionCount(difficulty: string, count: int, submissions: int)

  /** A skill tag with the number of problems solved under it. */
  datatype Tag = Tag(tagName: string, tagSlug: Option<string>, problemsSolved: int)

  /** `tagProblemCounts`: the three skill buckets. */
  datatype TagProblemCounts = TagProblemCounts(advanced: seq<Tag>, intermediate: seq<Tag>, fundamental: seq<Tag>)

  datatype Badge = Badge(id: string, displayName: string, icon: string)

  datatype ContestBadge = ContestBadge(name: string, icon: string)

  /** `userContestRanking`, present only for users with contest history. */
  datatype ContestRanking = ContestRanking(
    attendedContestsCount: int,
    rating: real,
    globalRanking: int,
    totalParticipants: int,
    topPercentage: real,
    badge: Option<ContestBadge>)

  datatype RawProfile = RawProfile(ranking: int, realName: string, userAvatar: string, starRating: real, reputation: int)

  /** The submission calendar as decoded by `JSON.parse`: the entries of the day -> count
      object, keys being UNIX-second timestamps written as strings. */
  type Calendar = seq<(string, int)>

  /** `matchedUser`. The API sends `submissionCalendar` as a JSON-encoded string; the model
      carries what `JSON.parse` makes of that string: the decoded entries, or the message of
      the `SyntaxError` it throws. */
  datatype MatchedUser = MatchedUser(
    username: string,
    contributionPoints: int,
    profile: RawProfile,
    submissionCalendar: Result<Calendar, string>,
    acSubmissionNum: seq<SubmissionCount>,
    totalSubmissionNum: seq<SubmissionCount>,
    tagProblemCounts: TagProblemCounts,
    badges: seq<Badge>)

  /** The `data` member of the GraphQL reply; `matchedUser` is `null` for an unknown user. */
  datatype RawData = RawData(
    allQuestionsCount: seq<QuestionCount>,
    matchedUser: Option<MatchedUser>,
    userContestRanking: Option<ContestRanking>)

  /** The decoded GraphQL reply: whether its `errors` member is present, and its `data`. */
  datatype GraphQLReply = GraphQLReply(hasErrors: bool, data: Option<RawData>)

  /** What one POST to the GraphQL endpoint comes to: `fetch` rejects with a message, or a
      response arrives whose body `response.json()` decodes or rejects with a message. */
  datatype Upstream =
    | NetworkError(message: string)
    | Responded(status: int, body: Result<GraphQLReply, string>)

  /** The `TypeError` messages reading a member of a missing array element, of a `null`
      user and of a `null` `data` produce. */
  const ReadCountMessage := "Cannot read properties of undefined (reading 'count')"
  const ReadUsernameMessage := "Cannot read properties of null (reading 'username')"
  const ReadMatchedUserMessage := "Cannot read properties of null (reading 'matchedUser')"

  /** `response.ok`: a status in the range 200-299. */
  predicate IsOk(status: int) {
    200 <= status <= 299
  }

  /** A JSON reply body: `{ error: message }` or the formatted record. */
  datatype Body<T> = ErrorBody(message: string) | DataBody(value: T)

  datatype Reply<T> = Reply(status: int, body: Body<T>)

  /** A handler's reply together with the username it sent upstream, `None` when it made no request. */
  datatype Handled<T> = Handled(reply: Reply<T>, requested: Option<string>)
}
