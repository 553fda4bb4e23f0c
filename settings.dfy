/** The process-wide settings of the sharer: five feature switches and the
    name under which the next session is created. */
module Settings {
  import opened Wrappers

  /** The record `toJSON` returns. */
  datatype SettingsJson = SettingsJson(
    enabled: bool,
    enableAudio: bool,
    enableCamera: bool,
    enableScreenShare: bool,
    sessionName: Option<string>,
    recordSession: bool)

  /** What a freshly constructed settings object holds. */
  const DEFAULTS: SettingsJson := SettingsJson(
    enabled := true,
    enableAudio := true,
    enableCamera := false,
    enableScreenShare := true,
    sessionName := None,
    recordSession := true)

  class SyncFlowSettings {
    var enabled: bool
    var enableAudio: bool
    var enableCamera: bool
    var enableScreenShare: bool
    var recordSession: bool
    var sessionName: Option<string>

    constructor ()
      ensures ToJSON() == DEFAULTS
    {
      enabled := true;
      enableAudio := true;
      enableCamera := false;
      enableScreenShare := true;
      sessionName := None;
      recordSession := true;
    }

    method SetEnabled(enabled: bool)
      modifies this
      ensures IsEnabled() == enabled
      ensures ToJSON() == old(ToJSON()).(enabled := enabled)
    {
      this.enabled := enabled;
    }

    method SetEnableAudio(enableAudio: bool)
      modifies this
      ensures IsAudioEnabled() == enableAudio
      ensures ToJSON() == old(ToJSON()).(enableAudio := enableAudio)
    {
      this.enableAudio := enableAudio;
    }

    method SetEnableCamera(enableCamera: bool)
      modifies this
      ensures IsCameraEnabled() == enableCamera
      ensures ToJSON() == old(ToJSON()).(enableCamera := enableCamera)
    {
      this.enableCamera := enableCamera;
    }

    method SetEnableScreenShare(enableScreenShare: bool)
      modifies this
      ensures IsScreenShareEnabled() == enableScreenShare
      ensures ToJSON() == old(ToJSON()).(enableScreenShare := enableScreenShare)
    {
      this.enableScreenShare := enableScreenShare;
    }

    method SetRecordSession(recordSession: bool)
      modifies this
      ensures IsSessionRecorded() == recordSession
      ensures ToJSON() == old(ToJSON()).(recordSession := recordSession)
    {
      this.recordSession := recordSession;
    }

    method SetSessionName(sessionName: string)
      modifies this
      ensures GetSessionName() == Some(sessionName)
      ensures ToJSON() == old(ToJSON()).(sessionName := Some(sessionName))
    {
      this.sessionName := Some(sessionName);
    }

    function IsEnabled(): (b: bool) reads this { enabled }
    function IsAudioEnabled(): (b: bool) reads this { enableAudio }
    function IsCameraEnabled(): (b: bool) reads this { enableCamera }
    function IsScreenShareEnabled(): (b: bool) reads this { enableScreenShare }
    function IsSessionRecorded(): (b: bool) reads this { recordSession }
    function GetSessionName(): (name: Option<string>) reads this { sessionName }

    /** The snapshot agrees field by field with the six getters. */
    function ToJSON(): (j: SettingsJson)
      reads this
      ensures j.enabled == IsEnabled() && j.enableAudio == IsAudioEnabled()
      ensures j.enableCamera == IsCameraEnabled() && j.enableScreenShare == IsScreenShareEnabled()
      ensures j.recordSession == IsSessionRecorded() && j.sessionName == GetSessionName()
    {
      SettingsJson(enabled, enableAudio, enableCamera, enableScreenShare, sessionName, recordSession)
    }
  }
}
