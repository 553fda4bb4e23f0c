/** The preview page: a hidden, subscribe-only token for the operator to
    watch a running session. */
module PreviewPage {
  import opened Wrappers
  import opened Http
  import opened Client
  import opened Grants

  /** What the page receives on success. */
  datatype PreviewData = PreviewData(token: Token, session: Session, success: bool)

  /** The viewer's token request: `ROOT_USER` as identity and name. */
  function ViewerTokenRequest(rootUser: Option<string>, session: Session): (request: TokenRequest)
    ensures request.identity == request.name == rootUser
    ensures request.videoGrants.room == session.name && IsHiddenViewer(request.videoGrants)
  {
    TokenRequest(rootUser, rootUser, ViewerGrant(session.name))
  }

  /** `load`. `rootUser` is `ROOT_USER` from the environment, which may be
      unset. */
  function Load(query: Params, rootUser: Option<string>, up: Upstream): (h: Handled<Response<PreviewData>>)
    ensures !Truthy(Lookup(query, "sessionId")) ==>
      h.response == Refuse(HttpError(400, "No session ID provided", None)) && h.calls == []
    ensures Truthy(Lookup(query, "sessionId")) ==>
      var id := Lookup(query, "sessionId").value;
      && h.calls != [] && h.calls[0] == GetSession(id)
      && match up.getSession(id)
         case Failure(_) =>
           h.response.Refuse? && h.response.error.status == 500 && h.calls == [GetSession(id)]
         case Success(s) =>
           if !IsStarted(s) then
             h.response == Refuse(HttpError(400, "Session not active", None)) && h.calls == [GetSession(id)]
           else
             && h.calls == [GetSession(id), GenerateToken(id, ViewerTokenRequest(rootUser, s))]
             && match up.generateToken(id, ViewerTokenRequest(rootUser, s))
                case Success(t) => h.response == Respond(PreviewData(t, s, true))
                case Failure(_) => h.response.Refuse? && h.response.error.status == 500
    // whatever the input, every token this page asks for is a hidden viewer's,
    // for the operator, in a running session's room
    ensures forall i :: 0 <= i < |h.calls| && h.calls[i].GenerateToken? ==>
      && IsHiddenViewer(h.calls[i].request.videoGrants)
      && h.calls[i].request.identity == h.calls[i].request.name == rootUser
      && up.getSession(h.calls[i].sessionId).Success?
      && IsStarted(up.getSession(h.calls[i].sessionId).value)
      && h.calls[i].request.videoGrants.room == up.getSession(h.calls[i].sessionId).value.name
    ensures NeverCreates(h.calls)
  {
    var sessionId := Lookup(query, "sessionId");
    if !Truthy(sessionId) then
      Handled(Refuse(HttpError(400, "No session ID provided", None)), [])
    else
      var id := sessionId.value;
      match up.getSession(id)
      case Failure(err) =>
        Handled(Refuse(HttpError(500, "Error getting session", Some(err.detail))), [GetSession(id)])
      case Success(s) =>
        if !IsStarted(s) then
          Handled(Refuse(HttpError(400, "Session not active", None)), [GetSession(id)])
        else
          var request := ViewerTokenRequest(rootUser, s);
          var calls := [GetSession(id), GenerateToken(id, request)];
          match up.generateToken(id, request)
          case Success(t) => Handled(Respond(PreviewData(t, s, true)), calls)
          case Failure(err) => Handled(Refuse(HttpError(500, "Error generating token", Some(err.detail))), calls)
  }
}
