# Realtime WebRTC video session — a Dafny model

This project models the session lifecycle of the page component in
`app/page.tsx`. The page captures the camera and microphone, asks a server
route for a short-lived credential, and opens a WebRTC peer connection
with a data channel to a realtime speech-and-vision service. It then
exchanges SDP with the service, configures the session over the channel,
logs the service's events, and tears everything down again.

The component state becomes one immutable record, `State.Session`:
- the three references (local stream, peer connection, data channel);
- `hasVideo` and `isConnected`;
- the status line;
- the append-only activity log.

Every handler of the page is a pure function from one record to the next.
Each browser or network outcome it depends on is a parameter: what
`getUserMedia` answered, what the credential route and the SDP endpoint
returned, whether ICE gathering completes, the connection state reported,
and the already-parsed inbound message.

The record also carries a trace (`effects`) of the browser calls the page
makes. These are capturing a stream, stopping its tracks,
creating/closing the connection and the channel, adding tracks, sending on
the channel, and `alert`. This is what makes resource properties
statable. Each handle is identified by the position of its creation in
the trace, so handles are fresh by construction. `Handles.Ledger` says:
- every close names a handle created earlier;
- no handle is closed twice;
- every reference the page holds names a handle that is open.

Modules, in dependency order:
- `Wrappers`: `Option`.
- `State`: the record, status and log messages (one constructor per
  wording, with its interpolated values), `addLog`/`updateStatus`.
- `Handles`: the trace, the ledger and the primitive acquire/create/close
  steps.
- `Teardown`: `stopSession`.
- `Permissions`: `testPermissions`.
- `Start`: `startSession`, split into the guard, the credential request,
  the track wiring, the negotiation and the catch block.
- `Channel`: the callbacks `startSession` installs and `handleServerEvent`.
- `View`: the media-mode summary and the three button guards.
- `Lifecycle`: clicks and callbacks as one action type, and runs of
  actions from the first render.
- `Scenarios`: whole sessions.

## Behaviours of the code worth knowing

The model follows `app/page.tsx` as written, including these behaviours:
- **`isConnected`** is raised by a transport report of `connected` alone.
  The channel opening never touches it
  (`Lifecycle.ConnectedOnlyAfterTransportReport`,
  `Scenarios.VideoCallConnects`, which connects without any channel-open
  event).
- **Transport failure.** A report of `failed` (or `closed`) only lowers
  `isConnected`. Nothing is closed, and the stream, connection and channel
  stay held (`Scenarios.TransportFailureKeepsHandles`).
- **After a transport failure** Stop is disabled, because it needs
  `isConnected`, and neither Stop nor a retest releases the held connection
  and channel. A successful retest replaces only the stream reference, and
  the old stream, the connection and the channel all stay open
  (`Scenarios.RetestAfterFailureKeepsConnection`). What a new start does
  depends on how far it gets:
  - if its credential request fails, the catch block closes the stream,
    the old channel and the old connection
    (`Scenarios.RestartFailingAtCredentialReleasesOld`);
  - if it fails at `addTrack`, the new connection has already replaced the
    old one but no new channel exists yet, so the catch block stops the
    stream and closes the old channel and the new connection, and the old
    connection is never closed (`Scenarios.RestartFailingAtAddTrackDropsOldConnection`);
  - if it fails later, both old handles have been replaced and only the
    new ones are closed (`Scenarios.RefusedExchangeReleasesEverything`);
  - if it does not fail, it replaces the connection and channel without
    closing them (`Scenarios.RestartDropsHeldConnection`).
- **ICE gathering** has no timeout. An attempt whose gathering never
  completes waits forever, holding a connection and a channel
  (`Start.StartStallsWithoutTimeout`).
- **Repeated permission tests.** A second successful `testPermissions`
  overwrites the held stream without stopping it
  (`Permissions.RetestLeavesOldStreamLive`).
- **Total capture failure** (both requests denied) leaves the old stream
  reference and `hasVideo` as they were.
- **Error status in the catch block.** The catch block sets an error status
  and then calls `stopSession`, which immediately replaces it with the
  info status "Session ended…". Only the log keeps the error
  (`Scenarios.RefusedExchangeReleasesEverything`).
- **Stream without an audio track.** When the held stream has no audio
  track, `addTrack(undefined, …)` throws inside the `try`. The thrown
  message is a parameter (`StartEnv.addTrackError`), and the attempt is
  rolled back through the catch block.

## Model

| member | source | states |
|---|---|---|
| `State.AddLog` | app/page.tsx:40-42 | appends exactly one entry, with the given message and type, after the existing log, and changes nothing else |
| `State.UpdateStatus` | app/page.tsx:44-46 | the status becomes the given message and type, and nothing else changes |
| `Permissions.TestPermissions` | app/page.tsx:48-90 | the exact log of each outcome, always starting with "Requesting permissions": combined success holds a fresh stream with `hasVideo`, sets the "permissions granted" success status and logs that camera and microphone work; combined failure is logged with its message, then audio-only success holds a fresh stream without `hasVideo`, sets the "microphone granted" success status and logs that the microphone works; double failure logs the audio-only error, keeps stream, `hasVideo` and the trace and sets the "microphone denied" error status; the connection, channel and connected flag are never touched |
| `Permissions.TestPermissionsKeepsInvariants` | app/page.tsx:48-90 | every outcome keeps the handle ledger and "`hasVideo` only with a stream" |
| `Permissions.RetestLeavesOldStreamLive` | app/page.tsx:66-80 | a successful test while a stream is held replaces the reference and never stops the old stream's tracks |
| `Start.StartSession` | app/page.tsx:92-96 | without a held stream only the alert happens: no connection, channel or log entry, nothing else changes; in every case the log and the trace only grow |
| `Start.Connect` | app/page.tsx:115-236 | the try block after the credential only extends the log and the trace |
| `Start.FailStart` | app/page.tsx:237-241 | the catch block logs the error, then ends torn down with the stop entry last, closing exactly the handles held when it began |
| `Start.StartTokenRejectedDefault` | app/page.tsx:98-113 | a credential refused by the server is reported with its `error` field, or as "Failed to get session" when that field is absent or empty; the attempt ends torn down with the error and stop entries, closing exactly the handles held |
| `Start.WireTracks` | app/page.tsx:122-156 | the wiring appends three calls and holds the new channel under the name `oai-events`; the log gains exactly "audio track added" and then "video track added" when the camera track is sent, or the receive-only video entry otherwise; stream, connection, flags and status are unchanged |
| `Start.WireTracksOrder` | app/page.tsx:122-135 | audio track first; next the camera track exactly when `hasVideo` and the stream has a video track, and the receive-only transceiver exactly otherwise; then the channel |
| `Start.StartWiresAudioThenOneVideoLeg` | app/page.tsx:119-135 | over a whole start: the connection is created, the audio track added, then exactly one video leg chosen as above, and no further video leg in the rest of the attempt |
| `Start.WiredThenNegotiated` | app/page.tsx:122-241 | the wiring survives the negotiation unchanged, and the negotiation adds no video leg |
| `Start.Negotiate` | app/page.tsx:192-236 | the offer/answer steps only extend the log and the trace |
| `Start.Exchange` | app/page.tsx:212-236 | the SDP exchange only extends the log and the trace |
| `Start.ExchangeOutcomes` | app/page.tsx:212-241 | an unreachable endpoint, a refused offer (error entry "SDP exchange failed: " followed by the response body) or an unusable answer each roll back from the state before the exchange, with that message in the error entry; an accepted answer appends only "connection established" and changes nothing else |
| `Start.NegotiateRollsBack` | app/page.tsx:192-241 | a refused offer, a failed or refused exchange, or an unusable answer ends torn down, closing exactly the handles held, with the error and stop entries last |
| `Start.NegotiateWaitsForGathering` | app/page.tsx:196-207 | while ICE gathering does not complete the attempt changes nothing further |
| `Start.NegotiateSucceeds` | app/page.tsx:209-236 | a successful negotiation adds the two log entries and the connecting status, and touches neither references nor trace |
| `Start.NegotiateOnlyCloses` | app/page.tsx:192-241 | negotiation appends either nothing or exactly the closes of the held handles |
| `Start.NegotiateAddsNoVideoLeg` | app/page.tsx:192-241 | negotiation keeps the trace so far and appends no video leg |
| `Start.StartFailureTearsDown` | app/page.tsx:98-241 | any failure after the guard (credential, missing audio track, offer, exchange, answer) ends torn down with the error entry then the stop entry last |
| `Start.StartStallsWithoutTimeout` | app/page.tsx:196-207 | gathering that never completes leaves a fresh connection and channel held, the flags unchanged and the "Setting up WebRTC" status: there is no timeout |
| `Start.StartCompletesPending` | app/page.tsx:98-236 | a start that runs to the end holds a fresh connection and channel, ends in the connecting status with "connection established" last, and does not raise `isConnected` |
| `Start.StartNeverConnects` | app/page.tsx:92-241 | no outcome of a start raises `isConnected` |
| `Start.PendingStartClosesNothing` | app/page.tsx:115-236 | a start that does not fail closes nothing |
| `Start.PendingStartKeepsOpen` | app/page.tsx:115-236 | a start that does not fail leaves every handle that was open still open |
| `Start.StartKeepsInvariants` | app/page.tsx:92-241 | every outcome of a start keeps the handle ledger and "`hasVideo` only with a stream" |
| `Start.ConnectKeepsInvariants` | app/page.tsx:115-241 | the same for the try block after the credential |
| `Start.FailKeepsLedger` | app/page.tsx:237-241 | the catch block keeps the ledger |
| `Start.WireKeepsLedger` | app/page.tsx:119-156 | creating the connection's tracks and channel keeps the ledger |
| `Start.NegotiateKeepsLedger` | app/page.tsx:192-241 | the negotiation keeps the ledger |
| `Channel.OnConnectionStateChange` | app/page.tsx:145-152 | exactly one log entry naming the state; `connected` raises the flag, `failed` and `closed` lower it, any other state leaves it; nothing else changes, in particular nothing is closed |
| `Channel.OnChannelOpen` | app/page.tsx:158-181 | exactly one call appended: a send on the channel that opened of a `session.update` carrying the instructions the open event delivers (the value the handler captured), voice `alloy`, `pcm16` input and output audio, `whisper-1` transcription and `server_vad` turn detection with 300 ms / 500 ms; success status; one log entry; references and flags unchanged |
| `Channel.ChannelOpenKeepsLedger` | app/page.tsx:158-181 | the configuration send keeps the ledger |
| `Channel.OnChannelError` | app/page.tsx:188-190 | one log entry with the error, nothing else changes |
| `Channel.OnRemoteTrack` | app/page.tsx:138-143 | one log entry, nothing else changes |
| `Channel.HandleServerEvent` | app/page.tsx:244-271 | a tag outside the eight listed leaves the state unchanged; a listed tag appends exactly one entry, typed `assistant` exactly for the assistant transcript and `user` exactly for the user transcript; transcripts are carried through and an error without a message reads "Unknown error" |
| `Channel.HandleServerEventsLogsRecognised` | app/page.tsx:183-186 | over any sequence of inbound messages the log grows by exactly one entry per recognised message and nothing else changes |
| `Channel.HandleServerEventsAppends` | app/page.tsx:183-186 | handling a sequence of messages appends exactly their entries, in arrival order, after the existing log |
| `Channel.EntriesFollowRecognised` | app/page.tsx:244-271 | there is one entry per message with a listed tag, and the k-th entry is the one `handleServerEvent` writes for the k-th such message |
| `Channel.HandleServerEventsEntries` | app/page.tsx:183-186 | after a sequence of messages, the log position k past the old end holds the entry for the k-th recognised message |
| `Teardown.ClosesFor` | app/page.tsx:274-287 | one close per held reference, each a close, and every held stream, channel and connection is among them |
| `Teardown.ReleaseAll` | app/page.tsx:274-287 | all three references end empty, and the trace gains exactly the closes of what was held |
| `Teardown.StopSession` | app/page.tsx:273-301 | ends with no stream, channel or connection, not connected, no video, the info status "Session ended"; one log entry; exactly the held handles are closed |
| `Teardown.StopKeepsLedger` | app/page.tsx:273-301 | teardown keeps the ledger: each handle it closes was open, and it is closed once |
| `Teardown.StopIsIdempotent` | app/page.tsx:273-301 | a second stop closes nothing and changes nothing but the log, which gains one more stop entry |
| `Teardown.RepeatedStopClosesOnce` | app/page.tsx:273-301 | any number n ≥ 1 of stops ends torn down with the trace of a single stop, the old log followed by exactly n stop entries, and every other field as after the first stop |
| `Handles.ReleaseStreamKeepsLedger` | app/page.tsx:274-277 | stopping the held stream's tracks and dropping the reference keeps the ledger |
| `Handles.ReleaseChannelKeepsLedger` | app/page.tsx:279-282 | closing the held channel and dropping the reference keeps the ledger |
| `Handles.ReleasePeerKeepsLedger` | app/page.tsx:284-287 | closing the held connection and dropping the reference keeps the ledger |
| `View.MediaModeReadsState` | app/page.tsx:325-337 | with "`hasVideo` only with a stream": "Not ready" exactly when no stream is held, "Video + Audio" exactly when `hasVideo`, "Audio only" exactly when a stream is held without it |
| `View.StartEnabledWhenMediaReady` | app/page.tsx:461 | Start is enabled exactly when the connection reads "Idle" and the media mode is not "Not ready" |
| `View.TestAndStopAlternate` | app/page.tsx:447-475 | exactly one of Test and Stop is enabled; Stop exactly when the connection reads "Live" |
| `Lifecycle.Apply` | app/page.tsx:445-475 | a click on a disabled button, or an open event from a channel that is not live, changes nothing; any step only extends the log and the trace |
| `Lifecycle.Run` | app/page.tsx:445-475 | any run of actions only extends the log and the trace |
| `Lifecycle.ApplyKeepsInvariants` | app/page.tsx:48-301 | every click and callback keeps the ledger and "`hasVideo` only with a stream" |
| `Lifecycle.RunKeepsInvariants` | app/page.tsx:48-301 | so does every run |
| `Lifecycle.EveryRunClosesEachHandleAtMostOnce` | app/page.tsx:273-287 | from the first render, whatever happens, no handle is closed twice, each close comes after the creation of the very handle it closes (tracks stopped on a captured stream, a created channel or connection closed), and held references name open handles |
| `Lifecycle.EveryRunShowsHeldMedia` | app/page.tsx:325-337 | from the first render, whatever happens, the media card reads "Not ready" exactly when no stream is held and "Video + Audio" only while one is, and Start is enabled exactly when the page is idle and the card does not read "Not ready" |
| `Lifecycle.ChannelOpensOnce` | app/page.tsx:158-181 | the open handler runs at most once per channel: it sends one configuration, and a second open event on that channel changes nothing |
| `Lifecycle.ApplyConnectsOnlyOnTransport` | app/page.tsx:145-152 | the only step that raises `isConnected` is a transport report of `connected` |
| `Lifecycle.ConnectedOnlyAfterTransportReport` | app/page.tsx:145-152 | a run that ends connected started connected or contained a transport report of `connected` |
| `Scenarios.ConfirmedThenConnected` | app/page.tsx:145-152 | the two session confirmations and a `connected` report leave the page connected with media, references and trace unchanged |
| `Scenarios.VideoCallConnects` | app/page.tsx:48-152 | camera and microphone granted, a completed start, the confirmations and `connected`: live, "Video + Audio", Stop enabled, the camera track sent |
| `Scenarios.AudioOnlyStart` | app/page.tsx:127-135 | a completed start without `hasVideo` adds the audio track then the receive-only transceiver, and no local video track |
| `Scenarios.AudioOnlyCallReceivesVideo` | app/page.tsx:71-135 | camera refused, microphone granted, a completed start: "Audio only", audio track then receive-only transceiver, no local video track sent |
| `Scenarios.RefusedExchangeReleasesEverything` | app/page.tsx:225-241 | an offer refused by the SDP endpoint, whatever connection and channel were held before, ends torn down with the error entry kept, the exact trace "create, add audio, add video, open channel, stop tracks, close channel, close connection" (only the new handles are closed), and the stop status |
| `Scenarios.TransportFailureKeepsHandles` | app/page.tsx:145-152 | `failed` while connected lowers the flag and closes nothing; Stop becomes disabled and Start enabled |
| `Scenarios.RetestAfterFailureKeepsConnection` | app/page.tsx:66-80 | after a transport failure Stop is disabled and Test enabled; a successful retest replaces only the stream, and the old stream, connection and channel all stay open |
| `Scenarios.RestartFailingAtCredentialReleasesOld` | app/page.tsx:98-113 | after a transport failure Start is enabled, and a start whose credential request fails ends torn down, closing exactly the held stream, the old channel and the old connection |
| `Scenarios.RestartFailingAtAddTrackDropsOldConnection` | app/page.tsx:115-124 | after a transport failure, a start with a stream lacking an audio track creates a connection, then closes the stream, the old channel and the new connection; the old connection is never closed |
| `Scenarios.RestartDropsHeldConnection` | app/page.tsx:119-156 | after a transport failure, a start that does not fail replaces the connection and channel while both remain open in the trace |

## Left out

- Rendering: the JSX, the status theme table and CSS classes
  (`app/page.tsx:309-322`, `361-657`) are presentation only. The video
  track label and the connection card's detail text are not modelled.
- DOM sink assignments (`srcObject` of the local video and remote audio
  elements) are side effects on elements outside the component state.
- Log timestamps (`new Date()`) are a clock value.
- The requested capture constraints are passed through to the browser
  unchanged. The capture result is an input.
- The SDP text, the credential's secret, the request bodies and the model
  name carry no logic here. Only the outcomes of `createOffer`,
  `setLocalDescription`, the SDP `fetch` and `setRemoteDescription` are
  modelled. `setLocalDescription` and `createOffer` share one outcome.
- `JSON.parse` of inbound messages: events arrive already parsed as tag,
  transcript and error message.
- The voice-activity threshold `0.5` is kept as a `real` literal. No
  property depends on it.
- The local `<video>` element's handlers (`app/page.tsx:423-426`) append
  "Video loaded: <width>x<height>" and "Video element started playing" to
  the log. They depend on the browser's media playback and are not
  modelled, so a real log can hold these entries between the modelled ones.
- The instructions text box: its default text, its edits, and the
  `instructions` value the open handler captures when Start is clicked
  (`app/page.tsx:166`). `Session` holds no instructions. The channel-open
  action carries the instructions to send, so `Channel.OnChannelOpen`
  states that they are sent unchanged but not that they equal the box's
  text at the click.
- React specifics: batching of `setState`, closures that capture a stale
  `hasVideo` or `instructions`, and the unmount effect that calls
  `stopSession` (`app/page.tsx:303-307`). The model applies each handler to
  the current state, one at a time, and never interleaves two handlers.
- Callbacks of a connection the page has already dropped (one replaced by
  a second start) can in reality still report transport states. The model
  lets any transport report reach the page. It delivers a channel-open
  event only for a channel that was created, not closed and not yet sent
  on, since a channel opens once.
- `app/api/session/route.ts` (the credential proxy) and `app/layout.tsx`
  are not part of this model. The proxy's answer is the `TokenResponse`
  input.
- `Start.Negotiate`: its contract states only that the log and trace grow.
  The outcomes are stated by the lemmas `NegotiateRollsBack`,
  `NegotiateWaitsForGathering` and `NegotiateSucceeds`.
- `Start.Exchange`: its contract states only that the log and trace grow.
  The outcomes are stated by `ExchangeOutcomes`.
- `Start.Connect`: its contract states only that the log and trace grow.
  The outcomes are stated by `StartFailureTearsDown`,
  `StartStallsWithoutTimeout` and `StartCompletesPending`.
