/** `GET /api/token`: issues a full-publish token for the running sharer
    session, when the endpoint is switched on. It never creates a session. */
module TokenEndpoint {
  import opened Wrappers
  import opened Http
  import opened Client
  import opened Grants

  /** The comment the endpoint looks for; the route spells it out literally. */
  const SHARER_COMMENTS: string := "Created from SyncFlow Sharer"

  predicate IsSharerSession(s: Session)
  {
    IsStarted(s) && s.comments == SHARER_COMMENTS
  }

  /** The index `sessions.find(...)` stops at: the first running session
      tagged by the sharer, or `None` when there is none. */
  function FindSharerSession(sessions: seq<Session>): (r: Option<nat>)
    ensures r.Some? ==> r.value < |sessions| && IsSharerSession(sessions[r.value])
    ensures r.Some? ==> forall j :: 0 <= j < r.value ==> !IsSharerSession(sessions[j])
    ensures r.None? <==> forall j :: 0 <= j < |sessions| ==> !IsSharerSession(sessions[j])
  {
    if sessions == [] then None
    else if IsSharerSession(sessions[0]) then Some(0)
    else
      match FindSharerSession(sessions[1..])
      case None => None
      case Some(k) => Some(k + 1)
  }

  /** The JSON bodies the endpoint answers with. */
  datatype TokenPayload = TokenJson(token: Token) | SuccessJson

  /** The token request for `identity` in the selected session's room. */
  function SharerTokenRequest(identity: string, session: Session): (request: TokenRequest)
    ensures request.identity == request.name == Some(identity)
    ensures request.videoGrants.room == session.name && IsFullPublish(request.videoGrants)
  {
    TokenRequest(Some(identity), Some(identity), FullPublishGrant(session.name))
  }

  /** Both checks that come before any client call: the endpoint is switched
      on with exactly `'true'`, and a non-empty identity is given. */
  predicate Passes(enableTokenEndpoint: Option<string>, query: Params)
  {
    enableTokenEndpoint == Some("true") && Truthy(Lookup(query, "identity"))
  }

  /** The handler. `enableTokenEndpoint` is `ENABLE_TOKEN_ENDPOINT` from the
      environment; `query` holds the URL's search parameters. */
  function Get(enableTokenEndpoint: Option<string>, query: Params, up: Upstream): (h: Handled<Response<TokenPayload>>)
    // the switch comes first: anything but exactly 'true' is a 401
    ensures enableTokenEndpoint != Some("true") ==>
      h.response == Refuse(HttpError(401, "Token endpoint not authorized", None)) && h.calls == []
    // then a missing or empty identity is a 400
    ensures enableTokenEndpoint == Some("true") && !Truthy(Lookup(query, "identity")) ==>
      h.response == Refuse(HttpError(400, "No identity provided", None)) && h.calls == []
    // a call is made only past both checks, and past both checks the sessions are listed first
    ensures h.calls != [] <==> Passes(enableTokenEndpoint, query)
    ensures h.calls != [] ==> h.calls[0] == ListSessions
    ensures Passes(enableTokenEndpoint, query) && up.sessions.Failure? ==>
      h.response.Refuse? && h.response.error.status == 500 && h.calls == [ListSessions]
    // no running sharer session: plain success, nothing else asked
    ensures Passes(enableTokenEndpoint, query) && up.sessions.Success? && FindSharerSession(up.sessions.value).None? ==>
      h.response == Respond(SuccessJson) && h.calls == [ListSessions]
    // otherwise exactly one token request, for the first such session
    ensures Passes(enableTokenEndpoint, query) && up.sessions.Success? && FindSharerSession(up.sessions.value).Some? ==>
      var s := up.sessions.value[FindSharerSession(up.sessions.value).value];
      var request := SharerTokenRequest(Lookup(query, "identity").value, s);
      && h.calls == [ListSessions, GenerateToken(s.id, request)]
      && h.response == match up.generateToken(s.id, request)
                       case Success(t) => Respond(TokenJson(t))
                       case Failure(_) => Refuse(HttpError(500, "Error generating token", None))
    ensures NeverCreates(h.calls)
    // a token is only ever requested for a running sharer session, in its own room, with the full grant
    ensures forall i :: 0 <= i < |h.calls| && h.calls[i].GenerateToken? ==>
      && up.sessions.Success?
      && (exists s :: s in up.sessions.value && IsSharerSession(s) && s.id == h.calls[i].sessionId
                   && h.calls[i].request.videoGrants.room == s.name)
      && IsFullPublish(h.calls[i].request.videoGrants)
      && h.calls[i].request.identity == h.calls[i].request.name == Lookup(query, "identity")
  {
    if enableTokenEndpoint != Some("true") then
      Handled(Refuse(HttpError(401, "Token endpoint not authorized", None)), [])
    else
      var identity := Lookup(query, "identity");
      if !Truthy(identity) then
        Handled(Refuse(HttpError(400, "No identity provided", None)), [])
      else
        match up.sessions
        case Failure(err) =>
          Handled(Refuse(HttpError(500, "", Some(err.detail))), [ListSessions])
        case Success(sessions) =>
          match FindSharerSession(sessions)
          case None => Handled(Respond(SuccessJson), [ListSessions])
          case Some(k) =>
            var session := sessions[k];
            var request := SharerTokenRequest(identity.value, session);
            var calls := [ListSessions, GenerateToken(session.id, request)];
            match up.generateToken(session.id, request)
            case Success(t) => Handled(Respond(TokenJson(t)), calls)
            case Failure(_) => Handled(Refuse(HttpError(500, "Error generating token", None)), calls)
  }
}
