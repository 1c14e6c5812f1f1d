/**
 The callbacks `startSession` installs: the transport-state handler, the
 data channel's open, message and error handlers, the remote-track handler,
 and `handleServerEvent`, the tag dispatch of inbound control messages.
 Each is a transition the browser may deliver at any time; none of them
 looks at the stored references.
 */
module Channel {
  import opened State
  import opened Handles

  /** The values of `RTCPeerConnection.connectionState`. */
  datatype ConnectionState = New | Connecting | Connected | Disconnected | Failed | Closed

  function StateName(c: ConnectionState): string
  {
    match c
    case New => "new"
    case Connecting => "connecting"
    case Connected => "connected"
    case Disconnected => "disconnected"
    case Failed => "failed"
    case Closed => "closed"
  }

  /** `pc.onconnectionstatechange`: one log entry; the connected flag follows
      the transport state and nothing is torn down. */
  function OnConnectionStateChange(s: Session, state: ConnectionState): (r: Session)
    ensures r.logs == s.logs + [LogEntry(ConnectionStateIs(StateName(state)), System)]
    ensures state == Connected ==> r.isConnected
    ensures state == Failed || state == Closed ==> !r.isConnected
    ensures state != Connected && state != Failed && state != Closed ==> r.isConnected == s.isConnected
    ensures && r.stream == s.stream && r.pc == s.pc && r.dc == s.dc && r.effects == s.effects
            && r.hasVideo == s.hasVideo && r.status == s.status
  {
    var logged := AddLog(s, ConnectionStateIs(StateName(state)), System);
    if state == Connected then logged.(isConnected := true)
    else if state == Failed || state == Closed then logged.(isConnected := false)
    else logged
  }

  const SessionUpdateTag: string := "session.update"

  /** The configuration message built at app/page.tsx lines 163-180. */
  function SessionUpdate(instructions: string): ClientEvent
  {
    ClientEvent(
      SessionUpdateTag,
      SessionConfig(instructions, "alloy", "pcm16", "pcm16", "whisper-1",
                    TurnDetection("server_vad", 0.5, 300, 500)))
  }

  /** `dc.onopen`: log, success status, and exactly one send on the channel
      that opened, a `session.update` carrying the given instructions. The
      connected flag is not touched. */
  function OnChannelOpen(s: Session, channel: DataChannel, instructions: string): (r: Session)
    ensures |r.effects| == |s.effects| + 1 && s.effects <= r.effects
    ensures var e := r.effects[|s.effects|];
            && e.Send? && e.channel == channel
            && e.event.tag == SessionUpdateTag
            && e.event.session.instructions == instructions
            && e.event.session.voice == "alloy"
            && e.event.session.inputAudioFormat == "pcm16" && e.event.session.outputAudioFormat == "pcm16"
            && e.event.session.transcriptionModel == "whisper-1"
            && e.event.session.turnDetection.kind == "server_vad"
            && e.event.session.turnDetection.prefixPaddingMs == 300
            && e.event.session.turnDetection.silenceDurationMs == 500
    ensures r.status == Status(ConnectedSpeakNow, Success)
    ensures r.logs == s.logs + [LogEntry(ChannelOpened, System)]
    ensures && r.stream == s.stream && r.pc == s.pc && r.dc == s.dc
            && r.hasVideo == s.hasVideo && r.isConnected == s.isConnected
  {
    var announced := UpdateStatus(AddLog(s, ChannelOpened, System), ConnectedSpeakNow, Success);
    Emit(announced, Send(channel, SessionUpdate(instructions)))
  }

  /** `dc.onerror`: one log entry, nothing else. */
  function OnChannelError(s: Session, detail: string): (r: Session)
    ensures r.logs == s.logs + [LogEntry(ChannelError(detail), System)]
    ensures r.(logs := s.logs) == s
  {
    AddLog(s, ChannelError(detail), System)
  }

  /** `pc.ontrack`: one log entry; attaching the stream to the audio
      element is not modelled. */
  function OnRemoteTrack(s: Session): (r: Session)
    ensures r.logs == s.logs + [LogEntry(RemoteTrackReceived, System)]
    ensures r.(logs := s.logs) == s
  {
    AddLog(s, RemoteTrackReceived, System)
  }

  /** An inbound control message, already parsed: its `type`, its
      `transcript` as interpolated, and its `error.message` ("" when absent
      or empty). */
  datatype ServerEvent = ServerEvent(tag: string, transcript: string, errorMessage: string)

  const SessionCreatedTag: string := "session.created"
  const SessionUpdatedTag: string := "session.updated"
  const AssistantTranscriptTag: string := "response.audio_transcript.done"
  const UserTranscriptTag: string := "conversation.item.input_audio_transcription.completed"
  const SpeechStartedTag: string := "input_audio_buffer.speech_started"
  const SpeechStoppedTag: string := "input_audio_buffer.speech_stopped"
  const ResponseDoneTag: string := "response.done"
  const ErrorTag: string := "error"

  const KnownTags: set<string> :=
    {SessionCreatedTag, SessionUpdatedTag, AssistantTranscriptTag, UserTranscriptTag,
     SpeechStartedTag, SpeechStoppedTag, ResponseDoneTag, ErrorTag}

  /** The entry `handleServerEvent` appends for a message with a listed
      tag: typed `assistant` for an assistant transcript, `user` for a user
      transcript and `system` otherwise. */
  function EventEntry(event: ServerEvent): LogEntry
    requires event.tag in KnownTags
  {
    if event.tag == SessionCreatedTag then LogEntry(SessionConfirmed, System)
    else if event.tag == SessionUpdatedTag then LogEntry(ConfigurationUpdated, System)
    else if event.tag == AssistantTranscriptTag then LogEntry(AssistantSaid(event.transcript), Assistant)
    else if event.tag == UserTranscriptTag then LogEntry(UserSaid(event.transcript), User)
    else if event.tag == SpeechStartedTag then LogEntry(SpeechDetected, System)
    else if event.tag == SpeechStoppedTag then LogEntry(SpeechEnded, System)
    else if event.tag == ResponseDoneTag then LogEntry(ResponseCompleted, System)
    else LogEntry(ServerError(if event.errorMessage != "" then event.errorMessage else "Unknown error"), System)
  }

  /** `handleServerEvent`: a recognised tag appends exactly one entry,
      typed `assistant` for an assistant transcript, `user` for a user
      transcript and `system` otherwise; any other tag changes nothing. */
  function HandleServerEvent(s: Session, event: ServerEvent): (r: Session)
    ensures event.tag !in KnownTags ==> r == s
    ensures event.tag in KnownTags ==>
              && |r.logs| == |s.logs| + 1 && s.logs <= r.logs
              && r.(logs := s.logs) == s
              && (r.logs[|s.logs|].kind == Assistant <==> event.tag == AssistantTranscriptTag)
              && (r.logs[|s.logs|].kind == User <==> event.tag == UserTranscriptTag)
    ensures event.tag == AssistantTranscriptTag ==> r.logs[|s.logs|].message == AssistantSaid(event.transcript)
    ensures event.tag == UserTranscriptTag ==> r.logs[|s.logs|].message == UserSaid(event.transcript)
    ensures event.tag == ErrorTag && event.errorMessage != "" ==>
              r.logs[|s.logs|].message == ServerError(event.errorMessage)
    ensures event.tag == ErrorTag && event.errorMessage == "" ==>
              r.logs[|s.logs|].message == ServerError("Unknown error")
  {
    if event.tag in KnownTags then
      var entry := EventEntry(event);
      AddLog(s, entry.message, entry.kind)
    else s
  }

  /** The messages of a sequence with a listed tag, in arrival order. */
  function Recognised(events: seq<ServerEvent>): (r: seq<ServerEvent>)
    ensures |r| <= |events|
    ensures forall k | 0 <= k < |r| :: r[k].tag in KnownTags
  {
    if events == [] then []
    else (if events[0].tag in KnownTags then [events[0]] else []) + Recognised(events[1..])
  }

  /** Messages handled in arrival order. */
  function HandleServerEvents(s: Session, events: seq<ServerEvent>): Session
    decreases |events|
  {
    if events == [] then s else HandleServerEvents(HandleServerEvent(s, events[0]), events[1..])
  }

  /** Over any sequence of inbound messages the log grows by exactly one
      entry per recognised message, and nothing else in the state changes. */
  lemma {:induction false} HandleServerEventsLogsRecognised(s: Session, events: seq<ServerEvent>)
    ensures var r := HandleServerEvents(s, events);
            && |r.logs| == |s.logs| + |Recognised(events)|
            && s.logs <= r.logs
            && r.(logs := s.logs) == s
    decreases |events|
  {
    if events != [] {
      var next := HandleServerEvent(s, events[0]);
      HandleServerEventsLogsRecognised(next, events[1..]);
    }
  }

  /** The entries `handleServerEvent` appends for a sequence of messages,
      one per recognised message. */
  function Entries(events: seq<ServerEvent>): seq<LogEntry>
    decreases |events|
  {
    if events == [] then []
    else (if events[0].tag in KnownTags then [EventEntry(events[0])] else []) + Entries(events[1..])
  }

  /** Handling a sequence of messages appends exactly `Entries` to the log. */
  lemma {:induction false} HandleServerEventsAppends(s: Session, events: seq<ServerEvent>)
    ensures HandleServerEvents(s, events).logs == s.logs + Entries(events)
    decreases |events|
  {
    if events != [] {
      var next := HandleServerEvent(s, events[0]);
      HandleServerEventsAppends(next, events[1..]);
      var head := if events[0].tag in KnownTags then [EventEntry(events[0])] else [];
      assert next.logs == s.logs + head;
      assert s.logs + head + Entries(events[1..]) == s.logs + (head + Entries(events[1..]));
    }
  }

  /** The k-th appended entry is the one for the k-th recognised message. */
  lemma {:induction false} EntriesFollowRecognised(events: seq<ServerEvent>)
    ensures |Entries(events)| == |Recognised(events)|
    ensures forall k | 0 <= k < |Entries(events)| :: Entries(events)[k] == EventEntry(Recognised(events)[k])
    decreases |events|
  {
    if events != [] {
      EntriesFollowRecognised(events[1..]);
      var rest := Recognised(events[1..]);
      if events[0].tag in KnownTags {
        assert Recognised(events) == [events[0]] + rest;
        assert Entries(events) == [EventEntry(events[0])] + Entries(events[1..]);
        forall k | 0 <= k < |Entries(events)|
          ensures Entries(events)[k] == EventEntry(Recognised(events)[k])
        {
          if k > 0 {
            assert Recognised(events)[k] == rest[k - 1];
          }
        }
      } else {
        assert Recognised(events) == rest;
        assert Entries(events) == Entries(events[1..]);
      }
    }
  }

  /** The entries appended are those of the recognised messages, in arrival
      order. */
  lemma HandleServerEventsEntries(s: Session, events: seq<ServerEvent>)
    ensures var r := HandleServerEvents(s, events);
            var known := Recognised(events);
            && |r.logs| == |s.logs| + |known| && s.logs <= r.logs
            && forall k | 0 <= k < |known| :: r.logs[|s.logs| + k] == EventEntry(known[k])
  {
    HandleServerEventsAppends(s, events);
    EntriesFollowRecognised(events);
    AppendedAt(s.logs, Entries(events), HandleServerEvents(s, events).logs, Recognised(events));
  }

  /** Entries appended after `before` sit at the positions that follow it. */
  lemma AppendedAt(before: seq<LogEntry>, added: seq<LogEntry>, after: seq<LogEntry>, known: seq<ServerEvent>)
    requires forall k | 0 <= k < |known| :: known[k].tag in KnownTags
    requires |added| == |known| && forall k | 0 <= k < |added| :: added[k] == EventEntry(known[k])
    requires after == before + added
    ensures |after| == |before| + |known| && before <= after
    ensures forall k | 0 <= k < |known| :: after[|before| + k] == EventEntry(known[k])
  {
  }

  /** Only the channel-open handler records an effect, and it closes nothing. */
  lemma ChannelOpenKeepsLedger(s: Session, channel: DataChannel, instructions: string)
    requires Ledger(s)
    ensures Ledger(OnChannelOpen(s, channel, instructions))
  {
    var announced := UpdateStatus(AddLog(s, ChannelOpened, System), ConnectedSpeakNow, Success);
    LedgerFrame(s, announced);
    EmitKeepsLedger(announced, Send(channel, SessionUpdate(instructions)));
  }
}
