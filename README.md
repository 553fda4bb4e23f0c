# syncflow-sharer: a verified model of its session and token policies

syncflow-sharer is a small server-rendered web application. It lets an
operator create and watch video-conferencing sessions on an external
conferencing service (the "project client"), and it issues access tokens to
participants. Most of the repository is routing glue. This project models
the parts that hold decisions, and proves what those decisions guarantee:

- **Paginator** (`pagination.dfy`, module `Pagination`). The pager of the
  video grid. The class `Paginator` keeps `items`, `pageSize` and
  `currentPage` and moves between pages. Its views (page count, items on the
  current page, page buttons) are value-level functions that the class
  getters call.
- **Settings** (`settings.dfy`, module `Settings`). The process-wide
  `SyncFlowSettings` object: five switches and the session name, with
  setters, getters and the `toJSON` snapshot.
- **Admin page** (`admin_page.dfy`, module `AdminPage`). It splits the
  sharer's sessions into running and ended ones, newest first. It applies
  the settings form. It creates a session, with a guard against a second
  running session of the same name.
- **Token endpoint** (`token_endpoint.dfy`), **preview page**
  (`preview_page.dfy`) and **home page** (`home_page.dfy`). These build
  token requests from two fixed permission sets (`grants.dfy`). Each one
  decides which client call to make and how each outcome becomes a response.
- **Sharing page** (`session_page.dfy`). It parses the query string:
  required parameters, comma-separated device lists, `'true'`-only switches
  and defaults.

The project client is not code that can be seen here. It is the datatype
`Client.Upstream`, which holds the outcome of every call a handler can make
(`Result`s, with the remote service's answers as functions of the call's
arguments). The contracts hold for every `Upstream`. So they say which call
is made, with which arguments, and how each answer maps to a response,
whatever the remote service does. The calls made are reported as follows:

- The token endpoint, the preview page and the home page return
  `Handled(response, calls)`: the response plus the calls made, in order.
- `AdminPage.CreateSession` is a method on the settings object. It returns
  the result and the calls as two out-parameters.
- `AdminPage.UpdateSettings` makes no client call. It returns the success
  flag and the new snapshot.
- `SessionPage.Load` makes no client call. It returns a bare `Response`.

Other modelling choices:

- Environment variables (`ENABLE_TOKEN_ENDPOINT`, `ROOT_USER`) are
  parameters of type `Option<string>`.
- Query strings and form data are `map<string, string>`.
- A JavaScript `null` is `None`, and JavaScript truthiness of a string is
  `Http.Truthy`.
- The sharer's comment tag `SYNCFLOW_SHARER_SESSION_COMMENTS` and the
  sharer-session listing `getSyncflowSharerSessions` are defined outside
  this core. The tag is the parameter `marker` of `AdminPage.CreateSession`.
  The listing is `Upstream.sharerSessions`.

Some behaviour of the code that is easy to assume otherwise:

- The public token endpoint never creates a session. With no running sharer
  session it answers `{success: true}`; `TokenEndpoint.Get` proves
  `NeverCreates`.
- There are no roles. There are two literal grants, modelled as
  `Grants.FullPublishGrant` and `Grants.ViewerGrant`.
- `updateSettings` always sets all six fields, never only some of them.
- The admin name guard only checks the running sessions listed at that
  moment. It does not stop two concurrent creations under one name.
  `AdminPage.RunningNameIsTaken` states what the check does guarantee.
- `updateSettings` can leave the session name `null`. The form value is cast
  to `string` without a check, so a form with no `sessionName` field stores
  `null`. `AdminPage.UpdateSettings` models this by storing `None`;
  `SetSessionName` is only ever given a real string in the model.

## Model

| member | source | states |
|---|---|---|
| `Pagination.PageCount` | src/lib/components/video/paginator.ts:12-14 | the page count is the ceiling of length / pageSize: the least n with len <= n*pageSize, and 0 exactly when there are no items |
| `Pagination.PageSlice` | src/lib/components/video/paginator.ts:16-20 | the current page holds at most pageSize items; its length is the clamped remainder; item i is items[page*pageSize + i], so item order is kept |
| `Pagination.PageNonEmptyIffInRange` | src/lib/components/video/paginator.ts:12-20 | a page has items exactly when its index is below totalPages |
| `Pagination.PagesFromIsSuffix` | src/lib/components/video/paginator.ts:16-20 | the pages from p onward, concatenated, are the items from p*pageSize on |
| `Pagination.PagesCoverItems` | src/lib/components/video/paginator.ts:16-20 | all pages concatenated are exactly the item list: paging loses, duplicates and reorders nothing |
| `Pagination.PageWindow` | src/lib/components/video/paginator.ts:44-62 | with at most 5 pages the buttons are 1..totalPages; otherwise they are consecutive from max(0, cur-2)+1, and their number is min(total, start+5) - start; never more than 5 buttons, every name within 1..total, and a button is active iff its name is currentPage+1 |
| `Pagination.ExactlyOneActive` | src/lib/components/video/paginator.ts:44-62 | when currentPage < totalPages, exactly one button is active, and it names currentPage+1 |
| `Pagination.Paginator.TotalPages` | src/lib/components/video/paginator.ts:12-14 | the `totalPages` getter is the least n with (number of items) <= n*pageSize (the ceiling), delegating to PageCount |
| `Pagination.Paginator.CurrentItems` | src/lib/components/video/paginator.ts:16-20 | the `currentItems` getter is the clamped slice: its length is min(pageSize, (number of items) - currentPage*pageSize), or 0 past the end, and item i is items[currentPage*pageSize + i] |
| `Pagination.Paginator.GetFlowBitePages` | src/lib/components/video/paginator.ts:44-62 | with at most 5 pages the buttons name 1..totalPages; otherwise they are consecutive from WindowStart(currentPage)+1 and number min(total, start+5) - start; never more than five, each naming a page in 1..totalPages, active exactly when it names currentPage+1, and exactly one active when currentPage < totalPages |
| `Pagination.Paginator.constructor` | src/lib/components/video/paginator.ts:6-10 | stores items and pageSize, starts at page 0 and establishes the invariant (currentPage is 0 or an existing page) |
| `Pagination.Paginator.NextPage` | src/lib/components/video/paginator.ts:22-26 | advances by exactly one iff currentPage < totalPages-1, else nothing changes; items and pageSize unchanged; invariant kept |
| `Pagination.Paginator.PreviousPage` | src/lib/components/video/paginator.ts:28-32 | goes back by one iff currentPage > 0, so it never goes below 0; items and pageSize unchanged; invariant kept |
| `Pagination.Paginator.GoToPage` | src/lib/components/video/paginator.ts:34-38 | sets currentPage to p iff 0 <= p < totalPages, otherwise changes nothing; invariant kept |
| `Pagination.Paginator.Reset` | src/lib/components/video/paginator.ts:40-42 | currentPage becomes 0 from any state, so reset is idempotent; it re-establishes the invariant |
| `Pagination.Paginator.UpdateItems` | src/lib/components/video/paginator.ts:64-67 | replaces items, keeps pageSize, ends at page 0 with the invariant restored |
| `Settings.SyncFlowSettings.constructor` | src/lib/server/settings.ts:9-16 | a new object has enabled, audio, screen share and recording on, camera off, and no session name |
| `Settings.SyncFlowSettings.SetEnabled` | src/lib/server/settings.ts:18-20 | isEnabled returns the new value afterwards; the snapshot differs from the old one only in `enabled` |
| `Settings.SyncFlowSettings.SetEnableAudio` | src/lib/server/settings.ts:22-24 | isAudioEnabled returns the new value afterwards; only `enableAudio` changes |
| `Settings.SyncFlowSettings.SetEnableCamera` | src/lib/server/settings.ts:26-28 | isCameraEnabled returns the new value afterwards; only `enableCamera` changes |
| `Settings.SyncFlowSettings.SetEnableScreenShare` | src/lib/server/settings.ts:30-32 | isScreenShareEnabled returns the new value afterwards; only `enableScreenShare` changes |
| `Settings.SyncFlowSettings.SetRecordSession` | src/lib/server/settings.ts:34-36 | isSessionRecorded returns the new value afterwards; only `recordSession` changes |
| `Settings.SyncFlowSettings.SetSessionName` | src/lib/server/settings.ts:38-40 | for a string argument the session name is that string afterwards; only `sessionName` changes |
| `Settings.SyncFlowSettings.ToJSON` | src/lib/server/settings.ts:66-75 | the snapshot agrees field by field with the six getters (42-64); as a function it reads the object and changes nothing |
| `AdminPage.FilterStarted` | src/routes/admin/+page.server.ts:13-15 | a session is kept iff it is in the list and its Started-ness is the one asked for; never longer than the input |
| `AdminPage.FilterConcat` | src/routes/admin/+page.server.ts:13-15 | filtering distributes over concatenation, so input order is preserved |
| `AdminPage.FilterPartition` | src/routes/admin/+page.server.ts:10-20 | the running and the not-running filters together are a permutation of the input |
| `AdminPage.InsertByStart` | src/routes/admin/+page.server.ts:16-18 | one insertion step of the comparator `a.startedAt > b.startedAt ? -1 : 1` grows the list by one |
| `AdminPage.InsertAddsOne` | src/routes/admin/+page.server.ts:16-18 | insertion adds exactly the inserted session to the multiset |
| `AdminPage.InsertKeepsOrder` | src/routes/admin/+page.server.ts:16-18 | insertion keeps a list in non-increasing startedAt order |
| `AdminPage.SortNewestFirst` | src/routes/admin/+page.server.ts:14-18 | the sorted list has non-increasing startedAt and is a permutation of its input (tie order unspecified) |
| `AdminPage.GetSessions` | src/routes/admin/+page.server.ts:9-25 | active = exactly the Started sessions in input order; ended = exactly the others, newest first; active ++ ended is a permutation of the listing; a failed listing gives two empty lists |
| `AdminPage.Names` | src/routes/admin/+page.server.ts:60 | the name list has one entry per session, the i-th session's name |
| `AdminPage.PlanCreate` | src/routes/admin/+page.server.ts:58-78 | refuses iff the configured name is non-null and some running session has it; otherwise the request carries that name, the marker comment, autoRecording = the recording flag, emptyTimeout 20000 and maxParticipants 100 |
| `AdminPage.RunningNameIsTaken` | src/routes/admin/+page.server.ts:58-70 | once a session of the configured name is in the listing and Started, another creation under that name is refused |
| `AdminPage.CreateSession` | src/routes/admin/+page.server.ts:57-96 | on a collision: 'sessionExists', no create call, settings unchanged; otherwise exactly one create call with the planned request; on success the session name becomes the returned session's name and nothing else changes; on failure an error and settings unchanged |
| `AdminPage.UpdateSettings` | src/routes/admin/+page.server.ts:36-56 | each switch becomes (form value == "yes"), so a missing or other value is false; sessionName becomes the submitted value unconditionally; returns success with the post-update snapshot |
| `Grants.FullPublishGrant` | src/routes/api/token/+server.ts:30-45 | the full-publish grant (also built at src/routes/+page.server.ts:32-47): all four sources, publish, data, subscribe, metadata, record, recorder, ingress and all room flags on, not hidden, in the given room |
| `Grants.ViewerGrant` | src/routes/preview/+page.server.ts:22-37 | the viewer grant: no publishing, data or metadata, no sources, hidden, no record/recorder/ingress; subscribe and the four room flags on; in the given room |
| `Grants.AllSourcesListed` | src/routes/api/token/+server.ts:33 | the listed publish sources are all four sources there are |
| `TokenEndpoint.FindSharerSession` | src/routes/api/token/+server.ts:22-24 | the selected index is the first session that is Started with comments exactly 'Created from SyncFlow Sharer'; none iff no session qualifies |
| `TokenEndpoint.SharerTokenRequest` | src/routes/api/token/+server.ts:27-46 | the request has identity = name = the requested identity, room = the session's name and the full-publish grant |
| `TokenEndpoint.Get` | src/routes/api/token/+server.ts:6-57 | switch not exactly 'true': 401 and no call; missing or empty identity: 400 and no call; a client call is made iff both checks pass, the first being the listing; listing failure: 500; no sharer session: {success: true} with only the listing call; otherwise one token request for that session's id, identity = name = requested identity, room = session name, full grant; token failure 500; never creates a session |
| `PreviewPage.ViewerTokenRequest` | src/routes/preview/+page.server.ts:19-37 | the request has identity = name = ROOT_USER, room = the session's name and the hidden viewer grant |
| `PreviewPage.Load` | src/routes/preview/+page.server.ts:5-56 | missing or empty sessionId: 400 and no call; fetch failure: 500; session not Started: 400 'Session not active' and no token call; otherwise one token request for the given id as ROOT_USER with the viewer grant in the session's room; success gives {token, session, success: true}, token failure 500; every token request is a hidden viewer's |
| `HomePage.Load` | src/routes/+page.server.ts:6-21 | one listing call; on success the sessions, the settings snapshot and error null; on failure no sessions, no settings, and the error |
| `HomePage.GenerateSessionToken` | src/routes/+page.server.ts:24-61 | fetches the submitted session (a failure escapes as an exception, with no token call); then one token request for that id, identity = name = submitted identity, room = fetched session's name, full grant; token success gives {token, success: true}, failure fail(500) with the error |
| `SessionPage.Split` | src/routes/session/+page.server.ts:9-10 | `split(',')` gives one piece more than there are commas, and no piece contains a comma |
| `SessionPage.JoinSplit` | src/routes/session/+page.server.ts:9-10 | joining the pieces with ',' gives back the original string |
| `SessionPage.SplitJoin` | src/routes/session/+page.server.ts:9-10 | splitting a comma-join of comma-free pieces gives back the pieces |
| `SessionPage.Load` | src/routes/session/+page.server.ts:4-42 | 400 iff livekitUrl, token or sessionName is missing or empty; otherwise the connection is the given URL and token; identity, sessionId and sessionName are copied; device lists are the comma pieces of the parameter (or [''] when absent); the three switches are true iff exactly 'true'; codec and presets default to 'h264', 'musicHighQuality', 'h1080' unless given non-empty |

## Left out

- Login, cookies and the request hook (src/routes/login/+page.server.ts, src/hooks.server.ts): password hashing, random ids and clocks, not decision logic of this core.
- The client and object-store builders (src/lib/server/syncflow-client.ts, src/lib/server/s3-client.ts): they build SDK clients from the environment; the client is modelled as `Client.Upstream`.
- The recordings page, the publication-record endpoint and the video-grid page are not part of this model. They are pass-through chains of upstream calls, a best-effort store write with a clock-stamped path, and a fetch with `Math.random`.
- The admin `load` (src/routes/admin/+page.server.ts:27-33) only pairs `toJSON` with `getSessions`, both modelled; `endSession` and `deleteSession` (97-134) only forward to the SDK.
- The one-second pause after session creation (src/routes/admin/+page.server.ts:80) and async sequencing in general: the model is sequential.
- Error payloads: `JSON.stringify` of errors is not modelled. `HttpError.cause` stands for the serialized error, and responses carry status codes and the source's constant messages.
- TokenEndpoint.Get: a token failure is stated as status 500. Where SvelteKit's `error()` throws, the surrounding `try` catches it and raises a second 500 with a different message. The model keeps status 500 and the first message.
- HomePage.GenerateSessionToken: the `sessionId` form field is taken as a string. The model does not follow a `null` from an absent field into `getSession`. `identity` is an `Option` and is passed through as given.
- Pagination.Paginator.constructor: requires a positive page size. With 0, JavaScript's `Math.ceil(n / 0)` is `Infinity` or `NaN`, which the model does not represent.
- Pagination.Paginator.GoToPage: page numbers are integers; the non-integer numbers JavaScript would also accept are not modelled.
- AdminPage.SortNewestFirst: the model sorts by insertion, and only what every correct sort gives is claimed: non-increasing `startedAt` and a permutation. The comparator never returns 0, so the order of ties is left open, as in the source. `startedAt` is an integer.
- Pagination.Paginator: `items` is held as a value. The source keeps a reference to the caller's array, and its three fields are public. So code outside the class can change the array or the fields and break the page invariant. That aliasing and outside mutation are not modelled. The methods that move between pages require the invariant instead.
- Session status and comments are plain strings, compared exactly as in the source.
