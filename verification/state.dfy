/**
 The state held by the page component of the realtime client: the local
 media stream, the peer connection and data channel references, the
 `hasVideo` and `isConnected` flags, the status line and the activity log.

 Besides what the component stores, a session records `effects`, the
 ordered trace of calls the component makes into the browser (capturing a
 stream, stopping its tracks, creating and closing the peer connection and
 the data channel, adding tracks, sending on the channel, raising an alert).
 The trace is what lets the model state how resources are released.
 */
module State {
  import opened Wrappers

  datatype StatusType = Info | Success | Error

  /** The status lines the page shows, one constructor per wording. */
  datatype StatusMessage =
    | ClickTestPermissions
    | TestingDevices
    | PermissionsGranted
    | MicrophoneGranted
    | MicrophoneDenied
    | GettingToken
    | SettingUpWebRtc
    | ConnectingToService
    | StartError(reason: string)
    | ConnectedSpeakNow
    | SessionEnded

  datatype Status = Status(message: StatusMessage, kind: StatusType)

  /** The origin tag of an activity-log entry; the timestamp is not modelled. */
  datatype LogType = System | User | Assistant

  /** The activity-log messages the page writes, one constructor per
      wording, with their interpolated values. */
  datatype LogMessage =
    | RequestingPermissions
    | CameraAndMicrophoneWork
    | PermissionTestFailed(reason: string)
    | MicrophoneWorks
    | CaptureError(reason: string)
    | SessionCreated(sessionId: string)
    | AudioTrackAdded
    | VideoTrackAdded
    | RecvOnlyVideoAdded
    | RemoteTrackReceived
    | ConnectionStateIs(state: string)
    | ChannelOpened
    | ChannelError(detail: string)
    | IceGatheringComplete
    | ConnectionEstablished
    | StartFailed(reason: string)
    | SessionConfirmed
    | ConfigurationUpdated
    | AssistantSaid(transcript: string)
    | UserSaid(transcript: string)
    | SpeechDetected
    | SpeechEnded
    | ResponseCompleted
    | ServerError(reason: string)
    | SessionStopped

  datatype LogEntry = LogEntry(message: LogMessage, kind: LogType)

  /** A captured local stream; `id` is the position of its `Acquire` effect. */
  datatype MediaStream = MediaStream(id: nat, audioTracks: nat, videoTracks: nat)

  /** A peer connection; `id` is the position of its `CreatePeer` effect. */
  datatype PeerConnection = PeerConnection(id: nat)

  /** A data channel; `id` is the position of its `CreateChannel` effect. */
  datatype DataChannel = DataChannel(id: nat, name: string)

  datatype TrackKind = Audio | Video

  /** Voice-activity detection settings carried by `session.update`. */
  datatype TurnDetection = TurnDetection(
    kind: string,
    threshold: real,
    prefixPaddingMs: nat,
    silenceDurationMs: nat)

  datatype SessionConfig = SessionConfig(
    instructions: string,
    voice: string,
    inputAudioFormat: string,
    outputAudioFormat: string,
    transcriptionModel: string,
    turnDetection: TurnDetection)

  /** An outbound control-channel message: its `type` tag and its payload. */
  datatype ClientEvent = ClientEvent(tag: string, session: SessionConfig)

  /** One call made into the browser. */
  datatype Effect =
    | Acquire(stream: MediaStream)
    | StopTracks(stream: MediaStream)
    | CreatePeer(pc: PeerConnection)
    | AddTrack(pc: PeerConnection, kind: TrackKind)
    | AddRecvOnlyTransceiver(pc: PeerConnection)
    | CreateChannel(channel: DataChannel)
    | Send(channel: DataChannel, event: ClientEvent)
    | CloseChannel(channel: DataChannel)
    | ClosePeer(pc: PeerConnection)
    | Alert(message: string)

  datatype Session = Session(
    stream: Option<MediaStream>,
    pc: Option<PeerConnection>,
    dc: Option<DataChannel>,
    hasVideo: bool,
    isConnected: bool,
    status: Status,
    logs: seq<LogEntry>,
    effects: seq<Effect>)

  /** The component as first rendered. */
  const Initial: Session :=
    Session(None, None, None, false, false,
            Status(ClickTestPermissions, Info), [], [])

  /** `hasVideo` is only ever raised together with holding a stream. */
  predicate Consistent(s: Session)
  {
    s.hasVideo ==> s.stream.Some?
  }

  /** Appends one entry to the activity log and changes nothing else. */
  function AddLog(s: Session, message: LogMessage, kind: LogType): (r: Session)
    ensures |r.logs| == |s.logs| + 1
    ensures s.logs <= r.logs
    ensures r.logs[|s.logs|] == LogEntry(message, kind)
    ensures r.(logs := s.logs) == s
  {
    s.(logs := s.logs + [LogEntry(message, kind)])
  }

  /** Replaces the status line and changes nothing else. */
  function UpdateStatus(s: Session, message: StatusMessage, kind: StatusType): (r: Session)
    ensures r.status == Status(message, kind)
    ensures r.(status := s.status) == s
  {
    s.(status := Status(message, kind))
  }
}
