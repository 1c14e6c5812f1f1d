/**
 `startSession`: the guard on a held stream, the credential request, the
 peer connection with its track wiring and data channel, the offer, the
 wait for ICE gathering, the answer exchange, and the failure path that
 routes every rejection into `stopSession`.

 Every browser or network answer is a field of `StartEnv`. The sequence is
 modelled as uninterrupted: events delivered on the new connection or
 channel are separate transitions (module Channel).
 */
module Start {
  import opened Wrappers
  import opened State
  import opened Handles
  import opened Teardown

  /** The answer of the credential endpoint: an issued session, a non-ok
      response with its `error` field ("" when absent or empty), or a
      rejected request or unreadable body. */
  datatype TokenResponse =
    | TokenIssued(sessionId: string)
    | TokenRejected(error: string)
    | TokenUnavailable(message: string)

  /** A browser promise that resolves or rejects with a message. */
  datatype Outcome = Resolved | Rejected(message: string)

  /** The answer of the signaling endpoint to the offer. */
  datatype AnswerResponse =
    | AnswerReceived
    | AnswerRejected(body: string)
    | AnswerUnavailable(message: string)

  /** The outcomes of every external step of one start attempt, in order.
      `addTrackError` is what `addTrack` throws when the stream has no audio
      track; `iceGatheringCompletes` is false when gathering never reaches
      `complete`, in which case the attempt waits forever. */
  datatype StartEnv = StartEnv(
    token: TokenResponse,
    addTrackError: string,
    offer: Outcome,
    iceGatheringCompletes: bool,
    answer: AnswerResponse,
    remoteDescription: Outcome)

  const PermissionsFirstAlert: string := "Please test permissions first"
  const ChannelName: string := "oai-events"
  const DefaultTokenError: string := "Failed to get session"

  /** The attempt reaches the catch block. */
  predicate Fails(env: StartEnv, stream: MediaStream)
  {
    || !env.token.TokenIssued?
    || stream.audioTracks == 0
    || env.offer.Rejected?
    || (env.iceGatheringCompletes && (!env.answer.AnswerReceived? || env.remoteDescription.Rejected?))
  }

  /** The attempt waits for ICE gathering that never completes. */
  predicate Stalls(env: StartEnv, stream: MediaStream)
  {
    && env.token.TokenIssued?
    && stream.audioTracks > 0
    && env.offer.Resolved?
    && !env.iceGatheringCompletes
  }

  /** The attempt runs to its last statement. */
  predicate Completes(env: StartEnv, stream: MediaStream)
  {
    && env.token.TokenIssued?
    && stream.audioTracks > 0
    && env.offer.Resolved?
    && env.iceGatheringCompletes
    && env.answer.AnswerReceived?
    && env.remoteDescription.Resolved?
  }

  /** A video leg: the local camera track or the receive-only placeholder. */
  predicate IsVideoLeg(e: Effect)
  {
    (e.AddTrack? && e.kind == Video) || e.AddRecvOnlyTransceiver?
  }

  /** The catch block: log, error status, then the one teardown path. */
  function FailStart(s: Session, reason: string): (r: Session)
    ensures TornDown(r)
    ensures r.logs == s.logs + [LogEntry(StartFailed(reason), System), StoppedEntry]
    ensures r.effects == s.effects + ClosesFor(s)
  {
    StopSession(UpdateStatus(AddLog(s, StartFailed(reason), System), StartError(reason), Error))
  }

  /** The message thrown for a non-ok credential response. */
  function TokenError(error: string): string
  {
    if error == "" then DefaultTokenError else error
  }

  /** The last steps of a failed attempt, seen from the state `s` the
      failing step started in: the handles `s` held are closed, the state is
      torn down, and the log ends with the error entry and the stop entry. */
  predicate RolledBack(s: Session, r: Session)
  {
    && EndsInRollback(r)
    && r.effects == s.effects + ClosesFor(s)
    && s.logs <= r.logs && |r.logs| >= |s.logs| + 2
  }

  /** Torn down, with the log ending in the error entry and the stop entry. */
  predicate EndsInRollback(r: Session)
  {
    && TornDown(r)
    && |r.logs| >= 2
    && r.logs[|r.logs| - 2].message.StartFailed? && r.logs[|r.logs| - 2].kind == System
    && r.logs[|r.logs| - 1] == StoppedEntry
  }

  /** Nothing appended to the trace after position `n` closes a handle. */
  predicate NoClosesAfter(effects: seq<Effect>, n: nat)
  {
    forall i | n <= i < |effects| :: !IsClose(effects[i])
  }

  /** A started attempt that has not failed: the stream and flags are as
      before, and a fresh connection and channel are held; a connection held
      before is dropped without being closed. */
  predicate Pending(s: Session, r: Session)
  {
    && r.stream == s.stream && r.hasVideo == s.hasVideo && r.isConnected == s.isConnected
    && r.pc == Some(PeerConnection(|s.effects|))
    && r.dc == Some(DataChannel(|s.effects| + 3, ChannelName))
    && |r.effects| == |s.effects| + 4
  }

  /** `startSession` with the outcomes of its external steps. */
  function StartSession(s: Session, env: StartEnv): (r: Session)
    // the guard: without a stream only the alert happens
    ensures s.stream.None? ==>
              && r.effects == s.effects + [Alert(PermissionsFirstAlert)]
              && r.logs == s.logs && r.status == s.status
              && r.pc == s.pc && r.dc == s.dc && r.stream == s.stream
              && r.hasVideo == s.hasVideo && r.isConnected == s.isConnected
    ensures s.logs <= r.logs && s.effects <= r.effects
  {
    if s.stream.None? then Emit(s, Alert(PermissionsFirstAlert))
    else
      var fetching := UpdateStatus(s, GettingToken, Info);
      match env.token
      case TokenUnavailable(message) => FailStart(fetching, message)
      case TokenRejected(error) => FailStart(fetching, TokenError(error))
      case TokenIssued(sessionId) => Connect(fetching, sessionId, env)
  }

  /** The try block after a credential was issued: a new connection, its
      tracks and channel, then the negotiation. */
  function Connect(s: Session, sessionId: string, env: StartEnv): (r: Session)
    requires s.stream.Some?
    ensures s.logs <= r.logs && s.effects <= r.effects
  {
    var peer := CreatedPeer(s, sessionId);
    if s.stream.value.audioTracks == 0 then FailStart(peer, env.addTrackError)
    else Negotiate(WireTracks(peer), env)
  }

  /** app/page.tsx lines 115-120: the session is logged and a connection is created. */
  function CreatedPeer(s: Session, sessionId: string): Session
  {
    OpenPeer(UpdateStatus(AddLog(s, SessionCreated(sessionId), System), SettingUpWebRtc, Info))
  }

  /** app/page.tsx lines 122-135 and 155-156: the audio track, then one
      video leg, then the data channel. `s` holds the stream and the new
      connection and the stream has an audio track. */
  function WireTracks(s: Session): (r: Session)
    requires s.stream.Some? && s.pc.Some? && s.stream.value.audioTracks > 0
    ensures s.effects <= r.effects && |r.effects| == |s.effects| + 3
    ensures r.logs == s.logs + [LogEntry(AudioTrackAdded, System),
                                LogEntry(if s.hasVideo && s.stream.value.videoTracks > 0 then VideoTrackAdded
                                         else RecvOnlyVideoAdded, System)]
    ensures r.dc == Some(DataChannel(|s.effects| + 2, ChannelName))
    ensures && r.stream == s.stream && r.pc == s.pc
            && r.hasVideo == s.hasVideo && r.isConnected == s.isConnected && r.status == s.status
  {
    var stream := s.stream.value;
    var pc := s.pc.value;
    var audio := AddLog(Emit(s, AddTrack(pc, Audio)), AudioTrackAdded, System);
    var wired :=
      if s.hasVideo && stream.videoTracks > 0 then
        AddLog(Emit(audio, AddTrack(pc, Video)), VideoTrackAdded, System)
      else
        AddLog(Emit(audio, AddRecvOnlyTransceiver(pc)), RecvOnlyVideoAdded, System);
    OpenChannel(wired, ChannelName)
  }

  /** The order of the wiring: audio first, then the camera track exactly
      when `hasVideo` holds and the stream has a video track, else the
      receive-only transceiver, then the channel. */
  lemma WireTracksOrder(s: Session)
    requires s.stream.Some? && s.pc.Some? && s.stream.value.audioTracks > 0
    ensures var r := WireTracks(s);
            var n := |s.effects|;
            var pc := s.pc.value;
            var camera := s.hasVideo && s.stream.value.videoTracks > 0;
            && r.effects[n] == AddTrack(pc, Audio)
            && (r.effects[n + 1] == AddTrack(pc, Video) <==> camera)
            && (r.effects[n + 1] == AddRecvOnlyTransceiver(pc) <==> !camera)
            && r.effects[n + 2] == CreateChannel(DataChannel(n + 2, ChannelName))
  {
  }

  /** From the offer to the end of the try block. */
  function Negotiate(s: Session, env: StartEnv): (r: Session)
    ensures s.logs <= r.logs && s.effects <= r.effects
  {
    match env.offer
    case Rejected(message) => FailStart(s, message)
    case Resolved =>
      if !env.iceGatheringCompletes then s
      else Exchange(Gathered(s), env)
  }

  /** app/page.tsx lines 209-210: gathering completed. */
  function Gathered(s: Session): Session
  {
    UpdateStatus(AddLog(s, IceGatheringComplete, System), ConnectingToService, Info)
  }

  /** Posting the offer and applying the answer. */
  function Exchange(s: Session, env: StartEnv): (r: Session)
    ensures s.logs <= r.logs && s.effects <= r.effects
  {
    match env.answer
    case AnswerUnavailable(message) => FailStart(s, message)
    case AnswerRejected(body) => FailStart(s, "SDP exchange failed: " + body)
    case AnswerReceived =>
      match env.remoteDescription
      case Rejected(message) => FailStart(s, message)
      case Resolved => AddLog(s, ConnectionEstablished, System)
  }

  /** A rejected offer, a failed exchange or an unusable answer rolls the
      attempt back from wherever the negotiation started. */
  lemma NegotiateRollsBack(s: Session, env: StartEnv)
    requires || env.offer.Rejected?
             || (env.iceGatheringCompletes && (!env.answer.AnswerReceived? || env.remoteDescription.Rejected?))
    ensures RolledBack(s, Negotiate(s, env))
  {
    match env.offer
    case Rejected(message) =>
      FailRollsBack(s, message);
    case Resolved =>
      var g := Gathered(s);
      assert ClosesFor(g) == ClosesFor(s);
      match env.answer
      case AnswerUnavailable(message) =>
        FailRollsBack(g, message);
      case AnswerRejected(body) =>
        FailRollsBack(g, "SDP exchange failed: " + body);
      case AnswerReceived =>
        FailRollsBack(g, env.remoteDescription.message);
  }

  /** Failing rolls back from the state the failure happened in. */
  lemma FailRollsBack(s: Session, reason: string)
    ensures RolledBack(s, FailStart(s, reason))
  {
  }

  /** The answer exchange: each refusal rolls back with its own message in
      the error entry, and an accepted answer only records the established
      connection. */
  lemma ExchangeOutcomes(s: Session, env: StartEnv)
    ensures var r := Exchange(s, env);
            && (!env.answer.AnswerReceived? || env.remoteDescription.Rejected? ==> RolledBack(s, r))
            && (env.answer.AnswerUnavailable? ==>
                  r.logs[|s.logs|] == LogEntry(StartFailed(env.answer.message), System))
            && (env.answer.AnswerRejected? ==>
                  r.logs[|s.logs|] == LogEntry(StartFailed("SDP exchange failed: " + env.answer.body), System))
            && (env.answer.AnswerReceived? && env.remoteDescription.Rejected? ==>
                  r.logs[|s.logs|] == LogEntry(StartFailed(env.remoteDescription.message), System))
            && (env.answer.AnswerReceived? && env.remoteDescription.Resolved? ==>
                  && r.logs == s.logs + [LogEntry(ConnectionEstablished, System)]
                  && r.(logs := s.logs) == s)
  {
    match env.answer
    case AnswerUnavailable(message) => FailRollsBack(s, message);
    case AnswerRejected(body) => FailRollsBack(s, "SDP exchange failed: " + body);
    case AnswerReceived =>
      match env.remoteDescription
      case Rejected(message) => FailRollsBack(s, message);
      case Resolved =>
  }

  /** There is no timeout: while gathering does not complete the attempt
      changes nothing further. */
  lemma NegotiateWaitsForGathering(s: Session, env: StartEnv)
    requires env.offer.Resolved? && !env.iceGatheringCompletes
    ensures Negotiate(s, env) == s
  {
  }

  /** A negotiation that succeeds adds two log entries, sets the connecting
      status, and touches neither the references nor the trace. */
  lemma NegotiateSucceeds(s: Session, env: StartEnv)
    requires env.offer.Resolved? && env.iceGatheringCompletes
    requires env.answer.AnswerReceived? && env.remoteDescription.Resolved?
    ensures var r := Negotiate(s, env);
            && r.stream == s.stream && r.pc == s.pc && r.dc == s.dc && r.effects == s.effects
            && r.hasVideo == s.hasVideo && r.isConnected == s.isConnected
            && r.status == Status(ConnectingToService, Info)
            && r.logs == s.logs + [LogEntry(IceGatheringComplete, System), LogEntry(ConnectionEstablished, System)]
  {
  }

  /** Negotiation appends nothing to the trace, or exactly the closes of
      what was held when it started. */
  lemma NegotiateOnlyCloses(s: Session, env: StartEnv)
    ensures var r := Negotiate(s, env);
            r.effects == s.effects || r.effects == s.effects + ClosesFor(s)
  {
    if env.offer.Resolved? && env.iceGatheringCompletes {
      assert ClosesFor(Gathered(s)) == ClosesFor(s);
    }
  }

  /** Negotiation keeps the trace so far and adds no video leg to it. */
  lemma NegotiateAddsNoVideoLeg(s: Session, env: StartEnv)
    ensures var r := Negotiate(s, env);
            && r.effects[..|s.effects|] == s.effects
            && forall i | |s.effects| <= i < |r.effects| :: !IsVideoLeg(r.effects[i])
  {
    NegotiateOnlyCloses(s, env);
    ClosesAreNotVideoLegs(s.effects, ClosesFor(s));
  }

  lemma ClosesAreNotVideoLegs(before: seq<Effect>, closes: seq<Effect>)
    requires forall i | 0 <= i < |closes| :: IsClose(closes[i])
    ensures (before + closes)[..|before|] == before
    ensures forall i | |before| <= i < |before + closes| :: !IsVideoLeg((before + closes)[i])
  {
    forall i | |before| <= i < |before + closes|
      ensures !IsVideoLeg((before + closes)[i])
    {
      assert (before + closes)[i] == closes[i - |before|];
    }
  }

  /** Any failure after the guard (credential, missing audio track, offer,
      exchange, answer) logs the error and ends in the teardown state. */
  lemma StartFailureTearsDown(s: Session, env: StartEnv)
    requires s.stream.Some? && Fails(env, s.stream.value)
    ensures EndsInRollback(StartSession(s, env))
  {
    var fetching := UpdateStatus(s, GettingToken, Info);
    if env.token.TokenIssued? {
      var peer := CreatedPeer(fetching, env.token.sessionId);
      if s.stream.value.audioTracks > 0 {
        NegotiateRollsBack(WireTracks(peer), env);
      }
    }
  }

  /** A credential refused by the server is reported with its `error`
      field, or with "Failed to get session" when that field is absent or
      empty, and the attempt is rolled back before any connection exists. */
  lemma StartTokenRejectedDefault(s: Session, env: StartEnv)
    requires s.stream.Some? && env.token.TokenRejected?
    ensures var r := StartSession(s, env);
            var error := env.token.error;
            && r.logs == s.logs + [LogEntry(StartFailed(if error == "" then DefaultTokenError else error), System),
                                   StoppedEntry]
            && r.effects == s.effects + ClosesFor(s)
            && TornDown(r)
  {
  }

  /** Gathering that never completes leaves the attempt waiting forever:
      connection and channel held, no error, no teardown. */
  lemma StartStallsWithoutTimeout(s: Session, env: StartEnv)
    requires s.stream.Some? && Stalls(env, s.stream.value)
    ensures var r := StartSession(s, env);
            Pending(s, r) && r.status == Status(SettingUpWebRtc, Info)
  {
    var peer := CreatedPeer(UpdateStatus(s, GettingToken, Info), env.token.sessionId);
    NegotiateWaitsForGathering(WireTracks(peer), env);
  }

  /** A start that runs to the end holds a fresh connection and channel but
      does not itself set `isConnected`: only the transport state does. */
  lemma StartCompletesPending(s: Session, env: StartEnv)
    requires s.stream.Some? && Completes(env, s.stream.value)
    ensures var r := StartSession(s, env);
            && Pending(s, r)
            && r.status == Status(ConnectingToService, Info)
            && r.logs[|r.logs| - 1] == LogEntry(ConnectionEstablished, System)
  {
    var peer := CreatedPeer(UpdateStatus(s, GettingToken, Info), env.token.sessionId);
    NegotiateSucceeds(WireTracks(peer), env);
  }

  /** Every attempt with a stream either fails, stalls or completes. */
  lemma StartOutcomesCover(env: StartEnv, stream: MediaStream)
    ensures Fails(env, stream) || Stalls(env, stream) || Completes(env, stream)
    ensures Fails(env, stream) ==> !Stalls(env, stream) && !Completes(env, stream)
    ensures !(Stalls(env, stream) && Completes(env, stream))
  {
  }

  /** Starting never raises the connected flag, whatever happens: it is
      lowered by a failure and otherwise left as it was. */
  lemma StartNeverConnects(s: Session, env: StartEnv)
    ensures StartSession(s, env).isConnected ==> s.isConnected
  {
    if s.stream.Some? {
      StartOutcomesCover(env, s.stream.value);
      if Fails(env, s.stream.value) {
        StartFailureTearsDown(s, env);
      } else if Stalls(env, s.stream.value) {
        StartStallsWithoutTimeout(s, env);
      } else {
        StartCompletesPending(s, env);
      }
    }
  }

  /** A start that does not fail records only creations and track calls. */
  lemma PendingStartClosesNothing(s: Session, env: StartEnv)
    requires s.stream.Some? && !Fails(env, s.stream.value)
    ensures var r := StartSession(s, env);
            s.effects <= r.effects && NoClosesAfter(r.effects, |s.effects|)
  {
    var wired := Wired(s, env.token.sessionId);
    StartReachesNegotiate(s, env);
    WiredClosesNothing(s, env.token.sessionId);
    assert Negotiate(wired, env).effects == wired.effects;
  }

  /** A start that does not fail leaves every handle that was open still
      open. */
  lemma PendingStartKeepsOpen(s: Session, env: StartEnv, id: nat)
    requires s.stream.Some? && !Fails(env, s.stream.value) && NeverClosed(s.effects, id)
    ensures NeverClosed(StartSession(s, env).effects, id)
  {
    var r := StartSession(s, env);
    PendingStartClosesNothing(s, env);
    forall i | |s.effects| <= i < |r.effects|
      ensures CloseTarget(r.effects[i]) != Some(id)
    {
      assert !IsClose(r.effects[i]);
    }
    OpenThroughSuffix(s.effects, r.effects, id);
  }

  /** The state a start with an issued credential reaches once the tracks
      and the channel are wired, before the offer is created. */
  function Wired(s: Session, sessionId: string): Session
    requires s.stream.Some? && s.stream.value.audioTracks > 0
  {
    WireTracks(CreatedPeer(UpdateStatus(s, GettingToken, Info), sessionId))
  }

  /** With an issued credential and an audio track a start goes on to the
      negotiation. */
  lemma StartReachesNegotiate(s: Session, env: StartEnv)
    requires s.stream.Some? && s.stream.value.audioTracks > 0 && env.token.TokenIssued?
    ensures StartSession(s, env) == Negotiate(Wired(s, env.token.sessionId), env)
  {
  }

  /** Wiring records only a creation and track calls. */
  lemma WiredClosesNothing(s: Session, sessionId: string)
    requires s.stream.Some? && s.stream.value.audioTracks > 0
    ensures var w := Wired(s, sessionId);
            s.effects <= w.effects && NoClosesAfter(w.effects, |s.effects|)
  {
    var n := |s.effects|;
    var peer := CreatedPeer(UpdateStatus(s, GettingToken, Info), sessionId);
    assert peer.effects == s.effects + [CreatePeer(PeerConnection(n))];
    var wired := WireTracks(peer);
    WireTracksOrder(peer);
    forall i | n <= i < |wired.effects|
      ensures !IsClose(wired.effects[i])
    {
      if i == n {
        assert wired.effects[i] == peer.effects[n];
      }
    }
  }

  /** A handle open before a stretch of the trace that does not close it
      is still open after it. */
  lemma OpenThroughSuffix(effects: seq<Effect>, longer: seq<Effect>, id: nat)
    requires effects <= longer && NeverClosed(effects, id)
    requires forall i | |effects| <= i < |longer| :: CloseTarget(longer[i]) != Some(id)
    ensures NeverClosed(longer, id)
  {
    forall i | 0 <= i < |longer|
      ensures CloseTarget(longer[i]) != Some(id)
    {
      if i < |effects| {
        assert longer[i] == effects[i];
      }
    }
  }

  /** Track wiring as seen in the trace of a start: the connection is
      created, the audio track is added first, then exactly one video leg
      (the camera track if `hasVideo` and the stream has a video track, a
      receive-only transceiver otherwise), and no other video leg follows. */
  lemma StartWiresAudioThenOneVideoLeg(s: Session, env: StartEnv)
    requires s.stream.Some? && env.token.TokenIssued? && s.stream.value.audioTracks > 0
    ensures var r := StartSession(s, env);
            var n := |s.effects|;
            var pc := PeerConnection(n);
            var camera := s.hasVideo && s.stream.value.videoTracks > 0;
            && |r.effects| >= n + 4
            && r.effects[n] == CreatePeer(pc)
            && r.effects[n + 1] == AddTrack(pc, Audio)
            && (r.effects[n + 2] == AddTrack(pc, Video) <==> camera)
            && (r.effects[n + 2] == AddRecvOnlyTransceiver(pc) <==> !camera)
            && (forall i | n + 3 <= i < |r.effects| :: !IsVideoLeg(r.effects[i]))
  {
    var peer := CreatedPeer(UpdateStatus(s, GettingToken, Info), env.token.sessionId);
    WiredThenNegotiated(peer, env);
    assert peer.effects[|s.effects|] == CreatePeer(PeerConnection(|s.effects|));
  }

  /** The wiring of `WireTracks` survives the negotiation that follows it. */
  lemma WiredThenNegotiated(s: Session, env: StartEnv)
    requires s.stream.Some? && s.pc.Some? && s.stream.value.audioTracks > 0
    ensures var r := Negotiate(WireTracks(s), env);
            var m := |s.effects|;
            var pc := s.pc.value;
            var camera := s.hasVideo && s.stream.value.videoTracks > 0;
            && |r.effects| >= m + 3
            && r.effects[..m] == s.effects
            && r.effects[m] == AddTrack(pc, Audio)
            && (r.effects[m + 1] == AddTrack(pc, Video) <==> camera)
            && (r.effects[m + 1] == AddRecvOnlyTransceiver(pc) <==> !camera)
            && (forall i | m + 2 <= i < |r.effects| :: !IsVideoLeg(r.effects[i]))
  {
    var wired := WireTracks(s);
    WireTracksOrder(s);
    NegotiateAddsNoVideoLeg(wired, env);
  }

  /** Starting keeps the handle ledger and the link between `hasVideo` and
      the stream reference. */
  lemma StartKeepsInvariants(s: Session, env: StartEnv)
    requires Ledger(s) && Consistent(s)
    ensures var r := StartSession(s, env);
            Ledger(r) && Consistent(r)
  {
    if s.stream.None? {
      EmitKeepsLedger(s, Alert(PermissionsFirstAlert));
    } else {
      var fetching := UpdateStatus(s, GettingToken, Info);
      LedgerFrame(s, fetching);
      match env.token
      case TokenUnavailable(message) =>
        FailKeepsLedger(fetching, message);
      case TokenRejected(error) =>
        FailKeepsLedger(fetching, TokenError(error));
      case TokenIssued(id) =>
        ConnectKeepsInvariants(fetching, id, env);
    }
  }

  lemma ConnectKeepsInvariants(s: Session, sessionId: string, env: StartEnv)
    requires s.stream.Some? && Ledger(s) && Consistent(s)
    ensures var r := Connect(s, sessionId, env);
            Ledger(r) && Consistent(r)
  {
    var logged := UpdateStatus(AddLog(s, SessionCreated(sessionId), System), SettingUpWebRtc, Info);
    LedgerFrame(s, logged);
    OpenPeerKeepsLedger(logged);
    var peer := CreatedPeer(s, sessionId);
    assert peer == OpenPeer(logged);
    if s.stream.value.audioTracks == 0 {
      FailKeepsLedger(peer, env.addTrackError);
      assert Connect(s, sessionId, env) == FailStart(peer, env.addTrackError);
    } else {
      WiredNegotiationKeepsInvariants(peer, env);
      assert Connect(s, sessionId, env) == Negotiate(WireTracks(peer), env);
    }
  }

  /** Wiring and negotiating from a state holding a new connection keeps the ledger. */
  lemma WiredNegotiationKeepsInvariants(s: Session, env: StartEnv)
    requires s.stream.Some? && s.pc.Some? && s.stream.value.audioTracks > 0
    requires Ledger(s) && Consistent(s)
    ensures var r := Negotiate(WireTracks(s), env);
            Ledger(r) && Consistent(r)
  {
    var wired := WireTracks(s);
    WireKeepsLedger(s);
    NegotiateKeepsLedger(wired, env);
    NegotiateOnlyCloses(wired, env);
  }

  lemma FailKeepsLedger(s: Session, reason: string)
    requires Ledger(s)
    ensures Ledger(FailStart(s, reason))
  {
    var logged := UpdateStatus(AddLog(s, StartFailed(reason), System), StartError(reason), Error);
    LedgerFrame(s, logged);
    StopKeepsLedger(logged);
  }

  lemma WireKeepsLedger(s: Session)
    requires s.stream.Some? && s.pc.Some? && s.stream.value.audioTracks > 0
    requires Ledger(s)
    ensures Ledger(WireTracks(s))
  {
    var pc := s.pc.value;
    var withAudio := Emit(s, AddTrack(pc, Audio));
    EmitKeepsLedger(s, AddTrack(pc, Audio));
    var audio := AddLog(withAudio, AudioTrackAdded, System);
    LedgerFrame(withAudio, audio);
    var leg := if s.hasVideo && s.stream.value.videoTracks > 0 then AddTrack(pc, Video) else AddRecvOnlyTransceiver(pc);
    var withLeg := Emit(audio, leg);
    EmitKeepsLedger(audio, leg);
    var wired := AddLog(withLeg, if leg.AddTrack? then VideoTrackAdded else RecvOnlyVideoAdded, System);
    LedgerFrame(withLeg, wired);
    OpenChannelKeepsLedger(wired, ChannelName);
    assert WireTracks(s) == OpenChannel(wired, ChannelName);
  }

  lemma NegotiateKeepsLedger(s: Session, env: StartEnv)
    requires Ledger(s)
    ensures Ledger(Negotiate(s, env))
  {
    match env.offer
    case Rejected(message) =>
      FailKeepsLedger(s, message);
    case Resolved =>
      if env.iceGatheringCompletes {
        var g := Gathered(s);
        LedgerFrame(s, g);
        match env.answer
        case AnswerUnavailable(message) => FailKeepsLedger(g, message);
        case AnswerRejected(body) => FailKeepsLedger(g, "SDP exchange failed: " + body);
        case AnswerReceived =>
          match env.remoteDescription
          case Rejected(message) => FailKeepsLedger(g, message);
          case Resolved => LedgerFrame(g, Exchange(g, env));
      }
  }
}
