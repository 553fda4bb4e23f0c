/** The two fixed permission sets the routes put into token requests. Both
    are constants of the application: only the room comes from the request. */
module Grants {
  import opened Client

  /** Every source, in the order the routes list them. */
  const ALL_SOURCES: seq<Source> := [Camera, ScreenShare, ScreenShareAudio, Microphone]

  /** A participant that may publish every source and record: the grant that
      `src/routes/+page.server.ts` and `src/routes/api/token/+server.ts` build. */
  predicate IsFullPublish(g: VideoGrant)
  {
    && g.canPublish && g.canPublishData && g.canSubscribe && g.canUpdateOwnMetadata
    && (forall s: Source :: s in g.canPublishSources)
    && g.roomRecord && g.recorder && g.ingressAdmin
    && g.roomAdmin && g.roomCreate && g.roomJoin && g.roomList
    && !g.hidden
  }

  /** A hidden observer that may subscribe but publish nothing and never record
      or ingest: the grant of the preview page. */
  predicate IsHiddenViewer(g: VideoGrant)
  {
    && !g.canPublish && !g.canPublishData && !g.canUpdateOwnMetadata
    && g.canPublishSources == []
    && g.hidden
    && !g.roomRecord && !g.recorder && !g.ingressAdmin
    && g.canSubscribe && g.roomAdmin && g.roomJoin && g.roomList && g.roomCreate
  }

  function FullPublishGrant(room: string): (g: VideoGrant)
    ensures IsFullPublish(g) && g.room == room
    ensures g.canPublishSources == ALL_SOURCES
  {
    AllSourcesListed();
    VideoGrant(
      canPublish := true,
      canPublishData := true,
      canPublishSources := ALL_SOURCES,
      canSubscribe := true,
      canUpdateOwnMetadata := true,
      hidden := false,
      ingressAdmin := true,
      recorder := true,
      room := room,
      roomAdmin := true,
      roomCreate := true,
      roomJoin := true,
      roomList := true,
      roomRecord := true)
  }

  function ViewerGrant(room: string): (g: VideoGrant)
    ensures IsHiddenViewer(g) && g.room == room
  {
    VideoGrant(
      canPublish := false,
      canPublishData := false,
      canPublishSources := [],
      canSubscribe := true,
      canUpdateOwnMetadata := false,
      hidden := true,
      ingressAdmin := false,
      recorder := false,
      room := room,
      roomAdmin := true,
      roomCreate := true,
      roomJoin := true,
      roomList := true,
      roomRecord := false)
  }

  /** `ALL_SOURCES` names every source there is. */
  lemma AllSourcesListed()
    ensures forall s: Source :: s in ALL_SOURCES
  {
    forall s: Source ensures s in ALL_SOURCES {
      match s
      case Camera => assert ALL_SOURCES[0] == s;
      case ScreenShare => assert ALL_SOURCES[1] == s;
      case ScreenShareAudio => assert ALL_SOURCES[2] == s;
      case Microphone => assert ALL_SOURCES[3] == s;
    }
  }
}
