/** The home page: the list of all sessions with the current settings, and
    the form that issues a full-publish token for a chosen session. */
module HomePage {
  import opened Wrappers
  import opened Http
  import opened Client
  import opened Grants
  import opened Settings

  /** What `load` returns; `settings` is absent on failure. */
  datatype HomeData = HomeData(sessions: Option<seq<Session>>, settings: Option<SettingsJson>, error: Option<ClientError>)

  /** `load`: the listing on success, with the settings snapshot; on
      failure no sessions, no settings, and the error. */
  function Load(settings: SyncFlowSettings, up: Upstream): (h: Handled<HomeData>)
    reads settings
    ensures h.calls == [ListSessions]
    ensures up.sessions.Success? ==>
      h.response.sessions == Some(up.sessions.value) && h.response.settings == Some(settings.ToJSON()) && h.response.error.None?
    ensures up.sessions.Failure? ==>
      h.response.sessions.None? && h.response.settings.None? && h.response.error == Some(up.sessions.error)
  {
    match up.sessions
    case Success(sessions) => Handled(HomeData(Some(sessions), Some(settings.ToJSON()), None), [ListSessions])
    case Failure(err) => Handled(HomeData(None, None, Some(err)), [ListSessions])
  }

  /** The outcome of `actions.generateSessionToken`. `Thrown` is the
      exception `unwrap` raises when the session cannot be fetched, which
      leaves the action and becomes the framework's error page. */
  datatype ActionResult =
    | TokenIssued(token: Token)                          // { token, success: true }
    | ActionFailure(status: nat, syncFlowError: ClientError)   // fail(500, ...)
    | Thrown(error: ClientError)

  /** `actions.generateSessionToken` on the submitted `identity` and
      `sessionId`. */
  function GenerateSessionToken(identity: Option<string>, sessionId: string, up: Upstream): (h: Handled<ActionResult>)
    ensures h.calls != [] && h.calls[0] == GetSession(sessionId)
    ensures up.getSession(sessionId).Failure? ==>
      h.response == Thrown(up.getSession(sessionId).error) && h.calls == [GetSession(sessionId)]
    ensures up.getSession(sessionId).Success? ==>
      var request := TokenRequest(identity, identity, FullPublishGrant(up.getSession(sessionId).value.name));
      && h.calls == [GetSession(sessionId), GenerateToken(sessionId, request)]
      && h.response == match up.generateToken(sessionId, request)
                       case Success(t) => TokenIssued(t)
                       case Failure(err) => ActionFailure(500, err)
    // the token is for the submitted session, in that session's room, with the full grant
    ensures forall i :: 0 <= i < |h.calls| && h.calls[i].GenerateToken? ==>
      && h.calls[i].sessionId == sessionId
      && up.getSession(sessionId).Success?
      && h.calls[i].request.videoGrants.room == up.getSession(sessionId).value.name
      && IsFullPublish(h.calls[i].request.videoGrants)
      && h.calls[i].request.identity == h.calls[i].request.name == identity
  {
    match up.getSession(sessionId)
    case Failure(err) => Handled(Thrown(err), [GetSession(sessionId)])
    case Success(s) =>
      var request := TokenRequest(identity, identity, FullPublishGrant(s.name));
      var calls := [GetSession(sessionId), GenerateToken(sessionId, request)];
      match up.generateToken(sessionId, request)
      case Success(t) => Handled(TokenIssued(t), calls)
      case Failure(err) => Handled(ActionFailure(500, err), calls)
  }
}
