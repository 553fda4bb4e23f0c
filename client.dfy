/** The narrow view the routes have of the external project client: the
    records it exchanges, the calls a handler can make, and the outcomes
    those calls return. */
module Client {
  import opened Wrappers

  /** An error returned by the project client; its content is opaque. */
  datatype ClientError = ClientError(detail: string)

  /** An access token as the project client returns it. */
  type Token = string

  /** A session as listed or fetched from the project client. */
  datatype Session = Session(id: string, name: string, status: string, comments: string, startedAt: int)

  /** The status of a running session. */
  const STARTED: string := "Started"

  predicate IsStarted(s: Session)
  {
    s.status == STARTED
  }

  /** The media sources a participant may be allowed to publish. */
  datatype Source = Camera | ScreenShare | ScreenShareAudio | Microphone

  /** The `videoGrants` record of a token request. */
  datatype VideoGrant = VideoGrant(
    canPublish: bool,
    canPublishData: bool,
    canPublishSources: seq<Source>,
    canSubscribe: bool,
    canUpdateOwnMetadata: bool,
    hidden: bool,
    ingressAdmin: bool,
    recorder: bool,
    room: string,
    roomAdmin: bool,
    roomCreate: bool,
    roomJoin: bool,
    roomList: bool,
    roomRecord: bool)

  /** The second argument of `generateSessionToken`; identity and name may be
      `null` when they come from an absent form field or environment variable. */
  datatype TokenRequest = TokenRequest(identity: Option<string>, name: Option<string>, videoGrants: VideoGrant)

  /** The argument of `createSession`; the name is `null` when no session
      name has been configured. */
  datatype CreateRequest = CreateRequest(
    name: Option<string>,
    comments: string,
    autoRecording: bool,
    emptyTimeout: nat,
    maxParticipants: nat)

  /** One call a handler makes into the project client. */
  datatype Call =
    | ListSessions                     // getSessions()
    | ListSharerSessions               // getSyncflowSharerSessions()
    | GetSession(id: string)
    | CreateSession(create: CreateRequest)
    | GenerateToken(sessionId: string, request: TokenRequest)

  /** What the project client answers to each call. The model quantifies over
      every `Upstream`, so nothing is assumed about the remote service. */
  datatype Upstream = Upstream(
    sessions: Result<seq<Session>, ClientError>,
    sharerSessions: Result<seq<Session>, ClientError>,
    getSession: string -> Result<Session, ClientError>,
    createSession: CreateRequest -> Result<Session, ClientError>,
    generateToken: (string, TokenRequest) -> Result<Token, ClientError>)

  /** A handler's response together with the client calls it made, in order. */
  datatype Handled<+R> = Handled(response: R, calls: seq<Call>)

  /** True when the handler never asked the client to create a session. */
  predicate NeverCreates(calls: seq<Call>)
  {
    forall i :: 0 <= i < |calls| ==> !calls[i].CreateSession?
  }
}
