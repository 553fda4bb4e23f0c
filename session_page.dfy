/** The sharing page: reads the connection details and the sharing options
    from the query string. */
module SessionPage {
  import opened Wrappers
  import opened Http

  /** Number of occurrences of `c` in `s`. */
  function Count(s: string, c: char): (n: nat)
  {
    if s == [] then 0 else (if s[0] == c then 1 else 0) + Count(s[1..], c)
  }

  /** JavaScript's `s.split(',')`: the pieces between commas, so `''` gives
      `['']` and there is always one piece more than there are commas. */
  function Split(s: string): (parts: seq<string>)
    ensures |parts| == Count(s, ',') + 1
    ensures forall i :: 0 <= i < |parts| ==> ',' !in parts[i]
  {
    if s == [] then [""]
    else
      var rest := Split(s[1..]);
      if s[0] == ',' then [""] + rest
      else [[s[0]] + rest[0]] + rest[1..]
  }

  /** `parts.join(',')`. */
  function Join(parts: seq<string>): (s: string)
    requires |parts| >= 1
  {
    if |parts| == 1 then parts[0] else parts[0] + "," + Join(parts[1..])
  }

  /** Joining the pieces with commas gives back the string. */
  lemma {:induction false} JoinSplit(s: string)
    ensures Join(Split(s)) == s
  {
    if s != [] {
      var rest := Split(s[1..]);
      JoinSplit(s[1..]);
      if s[0] == ',' {
        assert ([""] + rest)[1..] == rest;
        assert s == [','] + s[1..];
      } else {
        var parts := [[s[0]] + rest[0]] + rest[1..];
        if |rest| == 1 {
          assert s == [s[0]] + s[1..];
        } else {
          assert parts[1..] == rest[1..];
          assert Join(rest) == rest[0] + "," + Join(rest[1..]);
          assert s == [s[0]] + s[1..];
        }
      }
    }
  }

  /** Splitting a comma-join of comma-free pieces gives back the pieces. */
  lemma {:induction false} SplitJoin(parts: seq<string>)
    requires |parts| >= 1
    requires forall i :: 0 <= i < |parts| ==> ',' !in parts[i]
    ensures Split(Join(parts)) == parts
  {
    if |parts| == 1 {
      SplitCommaFree(parts[0], []);
    } else {
      SplitJoin(parts[1..]);
      SplitCommaFree(parts[0], parts[1..]);
      assert [parts[0]] + parts[1..] == parts;
    }
  }

  /** Split of a comma-free prefix `w` followed by `,` and a join of `more`. */
  lemma {:induction false} SplitCommaFree(w: string, more: seq<string>)
    requires ',' !in w
    requires |more| >= 1 ==> Split(Join(more)) == more
    ensures Split(if more == [] then w else w + "," + Join(more)) == [w] + more
  {
    var s := if more == [] then w else w + "," + Join(more);
    if w == [] {
      if more != [] {
        assert s == [','] + Join(more);
        assert s[1..] == Join(more);
      }
    } else {
      var tail := if more == [] then w[1..] else w[1..] + "," + Join(more);
      assert s[0] == w[0] && s[1..] == tail;
      SplitCommaFree(w[1..], more);
      assert [w[0]] + w[1..] == w;
    }
  }

  /** The LiveKit connection the page opens. */
  datatype Livekit = Livekit(serverUrl: string, token: string)

  /** The sharing options passed to the page. */
  datatype SharingDetails = SharingDetails(
    identity: Option<string>,
    sessionId: Option<string>,
    sessionName: string,
    videoDeviceIds: seq<string>,
    audioDeviceIds: seq<string>,
    screenShareEnabled: bool,
    enableAudio: bool,
    enableCamera: bool,
    videoCodec: string,
    audioPreset: string,
    videoPreset: string)

  datatype SessionData = SessionData(livekit: Livekit, sharingDetails: SharingDetails)

  /** `load` over the query string. */
  function Load(query: Params): (r: Response<SessionData>)
    // any of the three connection parameters missing or empty: 400
    ensures r.Refuse? <==>
      !Truthy(Lookup(query, "livekitUrl")) || !Truthy(Lookup(query, "token")) || !Truthy(Lookup(query, "sessionName"))
    ensures r.Refuse? ==> r.error == HttpError(400, "Missing required parameters", None)
    ensures r.Respond? ==>
      var d := r.payload.sharingDetails;
      && r.payload.livekit == Livekit(Lookup(query, "livekitUrl").value, Lookup(query, "token").value)
      && d.identity == Lookup(query, "identity") && d.sessionId == Lookup(query, "sessionId")
      && Some(d.sessionName) == Lookup(query, "sessionName")
      // device lists: the comma-separated pieces of the parameter, or of '' when it is absent or empty
      && |d.videoDeviceIds| == Count(OrDefault(Lookup(query, "videoDeviceIds"), ""), ',') + 1
      && |d.audioDeviceIds| == Count(OrDefault(Lookup(query, "audioDeviceIds"), ""), ',') + 1
      && Join(d.videoDeviceIds) == OrDefault(Lookup(query, "videoDeviceIds"), "")
      && Join(d.audioDeviceIds) == OrDefault(Lookup(query, "audioDeviceIds"), "")
      && (!Truthy(Lookup(query, "videoDeviceIds")) ==> d.videoDeviceIds == [""])
      && (!Truthy(Lookup(query, "audioDeviceIds")) ==> d.audioDeviceIds == [""])
      && (forall i :: 0 <= i < |d.videoDeviceIds| ==> ',' !in d.videoDeviceIds[i])
      && (forall i :: 0 <= i < |d.audioDeviceIds| ==> ',' !in d.audioDeviceIds[i])
      // switches: on only for exactly 'true'
      && (d.screenShareEnabled <==> Lookup(query, "screenShareEnabled") == Some("true"))
      && (d.enableAudio <==> Lookup(query, "enableAudio") == Some("true"))
      && (d.enableCamera <==> Lookup(query, "enableCamera") == Some("true"))
      // presets: passed through when given, default otherwise
      && d.videoCodec == (if Truthy(Lookup(query, "videoCodec")) then Lookup(query, "videoCodec").value else "h264")
      && d.audioPreset == (if Truthy(Lookup(query, "audioPreset")) then Lookup(query, "audioPreset").value else "musicHighQuality")
      && d.videoPreset == (if Truthy(Lookup(query, "videoPreset")) then Lookup(query, "videoPreset").value else "h1080")
  {
    var lkUrl := Lookup(query, "livekitUrl");
    var token := Lookup(query, "token");
    var sessionName := Lookup(query, "sessionName");
    var videoDeviceIds := Split(OrDefault(Lookup(query, "videoDeviceIds"), ""));
    var audioDeviceIds := Split(OrDefault(Lookup(query, "audioDeviceIds"), ""));
    JoinSplit(OrDefault(Lookup(query, "videoDeviceIds"), ""));
    JoinSplit(OrDefault(Lookup(query, "audioDeviceIds"), ""));
    if !Truthy(lkUrl) || !Truthy(token) || !Truthy(sessionName) then
      Refuse(HttpError(400, "Missing required parameters", None))
    else
      Respond(SessionData(
        Livekit(lkUrl.value, token.value),
        SharingDetails(
          identity := Lookup(query, "identity"),
          sessionId := Lookup(query, "sessionId"),
          sessionName := sessionName.value,
          videoDeviceIds := videoDeviceIds,
          audioDeviceIds := audioDeviceIds,
          screenShareEnabled := Lookup(query, "screenShareEnabled") == Some("true"),
          enableAudio := Lookup(query, "enableAudio") == Some("true"),
          enableCamera := Lookup(query, "enableCamera") == Some("true"),
          videoCodec := OrDefault(Lookup(query, "videoCodec"), "h264"),
          audioPreset := OrDefault(Lookup(query, "audioPreset"), "musicHighQuality"),
          videoPreset := OrDefault(Lookup(query, "videoPreset"), "h1080"))))
  }
}
