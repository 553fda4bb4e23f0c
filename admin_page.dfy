/** The admin page: the session overview, the settings form and the
    explicit creation of a sharer session. */
module AdminPage {
  import opened Wrappers
  import opened Http
  import opened Client
  import opened Settings

  /** The sessions whose running state (`status == 'Started'`) is `started`,
      in list order: `filter` with one of the page's two predicates. */
  function FilterStarted(s: seq<Session>, started: bool): (r: seq<Session>)
    ensures |r| <= |s|
    ensures forall x :: x in r <==> x in s && IsStarted(x) == started
  {
    if s == [] then []
    else (if IsStarted(s[0]) == started then [s[0]] else []) + FilterStarted(s[1..], started)
  }

  /** Filtering keeps list order: it distributes over concatenation. */
  lemma {:induction false} FilterConcat(a: seq<Session>, b: seq<Session>, started: bool)
    ensures FilterStarted(a + b, started) == FilterStarted(a, started) + FilterStarted(b, started)
  {
    if a == [] {
      assert a + b == b;
    } else {
      assert (a + b)[0] == a[0];
      assert (a + b)[1..] == a[1..] + b;
      FilterConcat(a[1..], b, started);
    }
  }

  /** The two filters split the list: together they hold each session as
      often as the list does. */
  lemma {:induction false} FilterPartition(s: seq<Session>)
    ensures multiset(FilterStarted(s, true)) + multiset(FilterStarted(s, false)) == multiset(s)
  {
    if s != [] {
      FilterPartition(s[1..]);
      assert s == [s[0]] + s[1..];
    }
  }

  /** Newest first: `startedAt` never increases along the list. */
  predicate NewestFirst(s: seq<Session>)
  {
    forall i, j :: 0 <= i < j < |s| ==> s[i].startedAt >= s[j].startedAt
  }

  lemma HeadIsNewest(s: seq<Session>)
    requires NewestFirst(s) && s != []
    ensures forall y :: y in s[1..] ==> y.startedAt <= s[0].startedAt
  {
  }

  /** Places `x` into a newest-first list: before the first session that
      the comparator `a.startedAt > b.startedAt ? -1 : 1` does not put after
      `x`, so a tie goes after the sessions already there. */
  function InsertByStart(x: Session, s: seq<Session>): (r: seq<Session>)
    ensures |r| == |s| + 1
  {
    if s == [] then [x]
    else if x.startedAt > s[0].startedAt then [x] + s
    else [s[0]] + InsertByStart(x, s[1..])
  }

  /** Inserting adds exactly `x`. */
  lemma {:induction false} InsertAddsOne(x: Session, s: seq<Session>)
    ensures multiset(InsertByStart(x, s)) == multiset(s) + multiset{x}
  {
    if s != [] && x.startedAt <= s[0].startedAt {
      InsertAddsOne(x, s[1..]);
      assert s == [s[0]] + s[1..];
    }
  }

  /** Inserting keeps a list newest first. */
  lemma {:induction false} InsertKeepsOrder(x: Session, s: seq<Session>)
    requires NewestFirst(s)
    ensures NewestFirst(InsertByStart(x, s))
  {
    if s == [] {
    } else if x.startedAt <= s[0].startedAt {
      var rest := InsertByStart(x, s[1..]);
      InsertKeepsOrder(x, s[1..]);
      InsertAddsOne(x, s[1..]);
      HeadIsNewest(s);
      var r := [s[0]] + rest;
      assert InsertByStart(x, s) == r;
      forall i, j | 0 <= i < j < |r| ensures r[i].startedAt >= r[j].startedAt {
        if i == 0 {
          assert r[j] == rest[j - 1];
          assert rest[j - 1] in multiset(rest);
          assert rest[j - 1] == x || rest[j - 1] in s[1..];
        } else {
          assert r[i] == rest[i - 1] && r[j] == rest[j - 1];
        }
      }
    } else {
      var r := [x] + s;
      assert InsertByStart(x, s) == r;
      forall i, j | 0 <= i < j < |r| ensures r[i].startedAt >= r[j].startedAt {
        if i == 0 {
          assert r[j] == s[j - 1];
        } else {
          assert r[i] == s[i - 1] && r[j] == s[j - 1];
        }
      }
    }
  }

  /** The `sort` of the ended sessions. JavaScript does not fix the
      algorithm, so only the outcome is claimed: newest first, and the same
      sessions. */
  function SortNewestFirst(s: seq<Session>): (r: seq<Session>)
    ensures NewestFirst(r)
    ensures multiset(r) == multiset(s)
  {
    if s == [] then []
    else
      assert s == [s[0]] + s[1..];
      InsertKeepsOrder(s[0], SortNewestFirst(s[1..]));
      InsertAddsOne(s[0], SortNewestFirst(s[1..]));
      InsertByStart(s[0], SortNewestFirst(s[1..]))
  }

  /** What `getSessions` returns. */
  datatype SessionLists = SessionLists(active: seq<Session>, ended: seq<Session>)

  /** Splits the sharer's sessions into running ones (in list order) and the
      rest (newest first); a failed listing gives two empty lists. */
  function GetSessions(listing: Result<seq<Session>, ClientError>): (v: SessionLists)
    ensures listing.Failure? ==> v.active == [] && v.ended == []
    ensures listing.Success? ==> v.active == FilterStarted(listing.value, true)
    ensures listing.Success? ==> forall x :: x in v.ended <==> x in listing.value && !IsStarted(x)
    ensures listing.Success? ==> NewestFirst(v.ended)
    ensures listing.Success? ==> multiset(v.active + v.ended) == multiset(listing.value)
  {
    match listing
    case Failure(_) => SessionLists([], [])
    case Success(sessions) =>
      FilterPartition(sessions);
      var ended := SortNewestFirst(FilterStarted(sessions, false));
      assert forall x :: x in ended <==> x in multiset(FilterStarted(sessions, false));
      SessionLists(FilterStarted(sessions, true), ended)
  }

  /** The answer of `createSession`. */
  datatype CreateResult =
    | SessionExists(sessionName: Option<string>)   // errorType 'sessionExists'
    | Created(session: Session)
    | CreateFailed(error: ClientError)

  /** The decision `createSession` takes before calling the client: refuse
      when a running session already bears the configured name, otherwise
      send this creation request. */
  datatype CreatePlan = NameTaken | Send(create: CreateRequest)

  const EMPTY_TIMEOUT: nat := 20000
  const MAX_PARTICIPANTS: nat := 100

  /** `sessions.map((session) => session.name)`. */
  function Names(sessions: seq<Session>): (names: seq<string>)
    ensures |names| == |sessions|
    ensures forall i :: 0 <= i < |sessions| ==> names[i] == sessions[i].name
  {
    if sessions == [] then [] else [sessions[0].name] + Names(sessions[1..])
  }

  /** A `null` name matches no session, since session names are strings. */
  function PlanCreate(active: seq<Session>, sessionName: Option<string>, autoRecording: bool, marker: string): (p: CreatePlan)
    ensures p.NameTaken? <==> sessionName.Some? && exists i :: 0 <= i < |active| && active[i].name == sessionName.value
    ensures p.Send? ==> p.create.name == sessionName && p.create.comments == marker
    ensures p.Send? ==> p.create.autoRecording == autoRecording
    ensures p.Send? ==> p.create.emptyTimeout == 20000 && p.create.maxParticipants == 100
  {
    var names := Names(active);
    if sessionName.Some? && sessionName.value in names then NameTaken
    else Send(CreateRequest(sessionName, marker, autoRecording, EMPTY_TIMEOUT, MAX_PARTICIPANTS))
  }

  /** Once a session of the configured name has been created and is
      running, a second creation under that name is refused. */
  lemma {:induction false} RunningNameIsTaken(sessions: seq<Session>, created: Session, marker: string, autoRecording: bool)
    requires created in sessions && IsStarted(created)
    ensures PlanCreate(GetSessions(Success(sessions)).active, Some(created.name), autoRecording, marker).NameTaken?
  {
  }

  /** `actions.createSession`. `marker` is the sharer's comment tag, whose
      value is defined outside the core. */
  method CreateSession(settings: SyncFlowSettings, marker: string, up: Upstream) returns (result: CreateResult, calls: seq<Call>)
    modifies settings
    ensures var plan := PlanCreate(GetSessions(up.sharerSessions).active, old(settings.sessionName), old(settings.recordSession), marker);
      match plan
      case NameTaken =>
        && result == SessionExists(old(settings.sessionName))
        && calls == [ListSharerSessions]
        && settings.ToJSON() == old(settings.ToJSON())
      case Send(create) =>
        && calls == [ListSharerSessions, Call.CreateSession(create)]
        && match up.createSession(create)
           case Success(session) =>
             result == Created(session) && settings.ToJSON() == old(settings.ToJSON()).(sessionName := Some(session.name))
           case Failure(err) =>
             result == CreateFailed(err) && settings.ToJSON() == old(settings.ToJSON())
  {
    var activeSessions := GetSessions(up.sharerSessions).active;
    calls := [ListSharerSessions];
    var sessionName := settings.GetSessionName();
    var plan := PlanCreate(activeSessions, sessionName, settings.IsSessionRecorded(), marker);
    if plan.NameTaken? {
      return SessionExists(sessionName), calls;
    }
    calls := calls + [Call.CreateSession(plan.create)];
    var sessionResult := up.createSession(plan.create);
    match sessionResult
    case Success(session) =>
      settings.SetSessionName(session.name);
      result := Created(session);
    case Failure(err) =>
      result := CreateFailed(err);
  }

  /** `actions.updateSettings`: each switch is on exactly when its form field
      is `'yes'` (an absent field is off), and the session name is whatever
      the form holds -- `null` when the field is absent, as the unchecked
      `as string` cast lets through. */
  method UpdateSettings(settings: SyncFlowSettings, form: Params) returns (success: bool, snapshot: SettingsJson)
    modifies settings
    ensures success
    ensures snapshot == settings.ToJSON()
    ensures snapshot == SettingsJson(
      enabled := Lookup(form, "enabled") == Some("yes"),
      enableAudio := Lookup(form, "enableAudio") == Some("yes"),
      enableCamera := Lookup(form, "enableCamera") == Some("yes"),
      enableScreenShare := Lookup(form, "enableScreenShare") == Some("yes"),
      sessionName := Lookup(form, "sessionName"),
      recordSession := Lookup(form, "recordSession") == Some("yes"))
  {
    settings.SetEnabled(Lookup(form, "enabled") == Some("yes"));
    settings.SetEnableAudio(Lookup(form, "enableAudio") == Some("yes"));
    settings.SetEnableCamera(Lookup(form, "enableCamera") == Some("yes"));
    settings.SetEnableScreenShare(Lookup(form, "enableScreenShare") == Some("yes"));
    settings.SetRecordSession(Lookup(form, "recordSession") == Some("yes"));
    var sessionName := Lookup(form, "sessionName");
    if sessionName.Some? {
      settings.SetSessionName(sessionName.value);
    } else {
      // setSessionName(null): the setter stores whatever it is given
      settings.sessionName := None;
    }
    return true, settings.ToJSON();
  }
}
