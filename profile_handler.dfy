/** The single-profile handler of `fetch.js`: `fetchUserProfile` validates the username,
    posts the trimmed name upstream, and maps the outcome to an HTTP status. Its
    `formatData` is the same projection as the gateway's, `DataMiddleware.FormatData`. */
module ProfileHandler {
  import opened Wrappers
  import opened JsText
  import opened Payload
  import opened DataMiddleware

  const InvalidUsernameMessage := "Invalid username"
  const UpstreamFailedMessage := "Failed to fetch data from LeetCode"
  const UnknownUserMessage := "Username not found"
  const InternalErrorMessage := "Internal server error. Please try again later."

  /** The `try` block once a request was sent: a non-ok status is passed through, a reply with
      `errors` or without `matchedUser` is a 400, anything thrown (a rejected `fetch` or
      `response.json()`, reading `matchedUser` of `null` data, `formatData`) is a 500. */
  function Respond(upstream: Upstream): (r: Reply<UserProfile>)
    ensures upstream.Responded? && !IsOk(upstream.status) ==>
      r == Reply(upstream.status, ErrorBody(UpstreamFailedMessage))
    ensures r.status == 200 <==> r.body.DataBody?
    // a record exactly for an ok reply without `errors` whose data `formatData` accepts
    ensures r.body.DataBody? <==>
      && upstream.Responded? && IsOk(upstream.status) && upstream.body.Success?
      && !upstream.body.value.hasErrors && upstream.body.value.data.Some?
      && FormatData(upstream.body.value.data.value).Success?
    ensures r.body.DataBody? ==> FormatData(upstream.body.value.data.value) == Success(r.body.value)
    // every other failure is answered with the generic 500
    ensures r.status == 500 && !(upstream.Responded? && !IsOk(upstream.status)) ==>
      r.body == ErrorBody(InternalErrorMessage)
    // past the status check, the only answers are a record, the not-found 400 and the generic 500
    ensures !(upstream.Responded? && !IsOk(upstream.status)) ==>
      || r.body.DataBody?
      || r == Reply(400, ErrorBody(UnknownUserMessage))
      || r == Reply(500, ErrorBody(InternalErrorMessage))
  {
    match upstream
    case NetworkError(_) => Reply(500, ErrorBody(InternalErrorMessage))
    case Responded(status, body) =>
      if !IsOk(status) then Reply(status, ErrorBody(UpstreamFailedMessage))
      else
        match body
        case Failure(_) => Reply(500, ErrorBody(InternalErrorMessage))
        case Success(reply) =>
          if reply.hasErrors then Reply(400, ErrorBody(UnknownUserMessage))
          else
            match reply.data
            case None => Reply(500, ErrorBody(InternalErrorMessage))
            case Some(data) =>
              if data.matchedUser.None? then Reply(400, ErrorBody(UnknownUserMessage))
              else
                match FormatData(data)
                case Failure(_) => Reply(500, ErrorBody(InternalErrorMessage))
                case Success(formatted) => Reply(200, DataBody(formatted))
  }

  /** `fetchUserProfile`. `username` is `None` when the route parameter is missing or not a
      string; `upstream` is what the request to the GraphQL API comes to. */
  function FetchUserProfile(username: Option<string>, upstream: Upstream): (h: Handled<UserProfile>)
    // a missing, non-string or whitespace-only name is refused before any request
    ensures h.requested.None? <==> username.None? || AllWhitespace(username.value)
    ensures h.requested.None? ==> h.reply == Reply(400, ErrorBody(InvalidUsernameMessage))
    // otherwise the trimmed name is what is sent upstream
    ensures h.requested.Some? ==> h.requested == Some(Trim(username.value)) && h.reply == Respond(upstream)
  {
    if username.None? || |Trim(username.value)| == 0 then
      Handled(Reply(400, ErrorBody(InvalidUsernameMessage)), None)
    else
      Handled(Respond(upstream), Some(Trim(username.value)))
  }

  /** The statuses `Respond` can give, and which upstream outcomes lead to each: 400 exactly
      for an ok, decodable reply that has `errors` or lacks `matchedUser`; the upstream's own
      status exactly when it is not ok; otherwise 200 or 500. */
  lemma RespondStatuses(upstream: Upstream)
    ensures var r := Respond(upstream);
            (r == Reply(400, ErrorBody(UnknownUserMessage))) <==>
              && upstream.Responded? && IsOk(upstream.status) && upstream.body.Success?
              && (upstream.body.value.hasErrors
                  || (upstream.body.value.data.Some? && upstream.body.value.data.value.matchedUser.None?))
    ensures var r := Respond(upstream);
            (upstream.Responded? && !IsOk(upstream.status)) || r.status in {200, 400, 500}
  {
  }

  /** `fetch.js` and the gateway agree on every upstream outcome: this handler answers 200
      with a record exactly when the gateway's fetch-and-format step succeeds with that
      record, and a not-found reply, a 400 here, is a 404 there. */
  lemma AgreesWithGateway(upstream: Upstream)
    ensures Respond(upstream).status == 200 <==> FetchAndFormat(upstream).Success?
    ensures FetchAndFormat(upstream).Success? ==>
      Respond(upstream).body == DataBody(FetchAndFormat(upstream).value.1)
    ensures Respond(upstream) == Reply(400, ErrorBody(UnknownUserMessage)) ==>
      && FetchLeetCodeData(upstream) == Failure(NotFoundMessage)
      && ErrorResponse(NotFoundMessage).status == 404
  {
    RespondStatuses(upstream);
    if Respond(upstream) == Reply(400, ErrorBody(UnknownUserMessage)) {
      FetchErrorStatus(upstream);
    }
  }
}
