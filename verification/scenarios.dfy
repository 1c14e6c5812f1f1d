/**
 Whole sessions from the first render: a video call, an audio-only call, a
 call whose signaling exchange is refused, and a call whose transport fails
 after connecting.
 */
module Scenarios {
  import opened Wrappers
  import opened State
  import opened Handles
  import opened Teardown
  import opened Permissions
  import opened Start
  import opened Channel
  import opened View
  import opened Lifecycle

  /** Running `a` first and then the rest. */
  lemma RunStep(s: Session, a: Action, rest: seq<Action>)
    ensures Run(s, [a] + rest) == Run(Apply(s, a), rest)
  {
    assert ([a] + rest)[1..] == rest;
  }

  /** The two session confirmations and a transport report of `connected`
      leave the page connected and change neither the media nor the trace. */
  lemma ConfirmedThenConnected(s: Session, created: ServerEvent, updated: ServerEvent)
    requires created.tag == SessionCreatedTag && updated.tag == SessionUpdatedTag
    ensures var r := Run(s, [ChannelMessage(created), ChannelMessage(updated), TransportChange(Connected)]);
            && r.isConnected
            && r.stream == s.stream && r.hasVideo == s.hasVideo && r.pc == s.pc && r.dc == s.dc
            && r.effects == s.effects
  {
    var s1 := Apply(s, ChannelMessage(created));
    var s2 := Apply(s1, ChannelMessage(updated));
    RunStep(s, ChannelMessage(created), [ChannelMessage(updated), TransportChange(Connected)]);
    RunStep(s1, ChannelMessage(updated), [TransportChange(Connected)]);
    RunStep(s2, TransportChange(Connected), []);
  }

  /** Camera and microphone granted, a start that completes, the two
      session confirmations and a transport report of `connected`: the page
      is live in video mode, Stop is the enabled button, and the camera
      track was sent. */
  lemma VideoCallConnects(audio: nat, video: nat, env: StartEnv, created: ServerEvent, updated: ServerEvent)
    requires audio > 0 && video > 0 && Completes(env, MediaStream(0, audio, video))
    requires created.tag == SessionCreatedTag && updated.tag == SessionUpdatedTag
    ensures var r := Run(Initial, [ClickTest(Granted(audio, video), Denied("")), ClickStart(env),
                                   ChannelMessage(created), ChannelMessage(updated),
                                   TransportChange(Connected)]);
            && r.isConnected
            && MediaModeLabel(MediaModeOf(r)) == "Video + Audio"
            && StopEnabled(r) && !StartEnabled(r)
            && |r.effects| > 3 && r.effects[3] == AddTrack(PeerConnection(1), Video)
  {
    var s1 := Apply(Initial, ClickTest(Granted(audio, video), Denied("")));
    assert s1.stream == Some(MediaStream(0, audio, video)) && s1.hasVideo && !s1.isConnected;
    var s2 := Apply(s1, ClickStart(env));
    StartCompletesPending(s1, env);
    StartWiresAudioThenOneVideoLeg(s1, env);
    var tail := [ChannelMessage(created), ChannelMessage(updated), TransportChange(Connected)];
    ConfirmedThenConnected(s2, created, updated);
    RunStep(Initial, ClickTest(Granted(audio, video), Denied("")), [ClickStart(env)] + tail);
    RunStep(s1, ClickStart(env), tail);
  }

  /** Camera refused, microphone granted, a start that completes: the page
      reads "Audio only", the audio track is added and the video leg is the
      receive-only transceiver; no local video track is ever sent. */
  lemma AudioOnlyCallReceivesVideo(reason: string, audio: nat, video: nat, env: StartEnv)
    requires audio > 0 && Completes(env, MediaStream(0, audio, video))
    ensures var r := Run(Initial, [ClickTest(Denied(reason), Granted(audio, video)), ClickStart(env)]);
            var pc := PeerConnection(1);
            && MediaModeLabel(MediaModeOf(r)) == "Audio only"
            && |r.effects| > 3
            && r.effects[2] == AddTrack(pc, Audio)
            && r.effects[3] == AddRecvOnlyTransceiver(pc)
            && (forall i | 1 <= i < |r.effects| :: r.effects[i] != AddTrack(pc, Video))
  {
    var s1 := Apply(Initial, ClickTest(Denied(reason), Granted(audio, video)));
    MicrophoneOnlyGranted(reason, audio, video);
    RunStep(Initial, ClickTest(Denied(reason), Granted(audio, video)), [ClickStart(env)]);
    RunStep(s1, ClickStart(env), []);
    AudioOnlyStart(s1, env);
  }

  /** The first click on "Test Permissions" with only the microphone granted. */
  lemma MicrophoneOnlyGranted(reason: string, audio: nat, video: nat)
    ensures var s := Apply(Initial, ClickTest(Denied(reason), Granted(audio, video)));
            && s.stream == Some(MediaStream(0, audio, video)) && !s.hasVideo
            && !s.isConnected && |s.effects| == 1
  {
  }

  /** A completed start without `hasVideo`: audio track, then the
      receive-only transceiver, and no local video track anywhere after the
      start began. */
  lemma AudioOnlyStart(s: Session, env: StartEnv)
    requires s.stream.Some? && !s.hasVideo && Completes(env, s.stream.value)
    ensures var r := StartSession(s, env);
            var n := |s.effects|;
            var pc := PeerConnection(n);
            && !r.hasVideo && r.stream == s.stream
            && |r.effects| > n + 2
            && r.effects[n + 1] == AddTrack(pc, Audio)
            && r.effects[n + 2] == AddRecvOnlyTransceiver(pc)
            && (forall i | n <= i < |r.effects| :: r.effects[i] != AddTrack(pc, Video))
  {
    var r := StartSession(s, env);
    var n := |s.effects|;
    StartCompletesPending(s, env);
    StartWiresAudioThenOneVideoLeg(s, env);
    forall i | n <= i < |r.effects|
      ensures r.effects[i] != AddTrack(PeerConnection(n), Video)
    {
      if n + 3 <= i {
        assert !IsVideoLeg(r.effects[i]);
      }
    }
  }


  /** A start from a state holding a stream with both kinds of track (as a
      granted permission test leaves it, with or without a connection and
      channel left over from an earlier attempt), whose offer the signaling
      endpoint refuses: the page ends torn down with the error entry in its
      log, the stream and every handle the start created are closed exactly
      once in the order stream, channel, connection, and the error status is
      already replaced by the stop status. Leftover handles were replaced
      before the failure and are not closed. */
  lemma RefusedExchangeReleasesEverything(s: Session, env: StartEnv, body: string)
    requires s.stream.Some? && s.hasVideo
    requires s.stream.value.audioTracks > 0 && s.stream.value.videoTracks > 0
    requires && env.token.TokenIssued? && env.offer.Resolved? && env.iceGatheringCompletes
             && env.answer == AnswerRejected(body)
    ensures var r := StartSession(s, env);
            var n := |s.effects|;
            var pc := PeerConnection(n);
            var dc := DataChannel(n + 3, ChannelName);
            && TornDown(r) && r.status == SessionEndedStatus
            && |r.logs| >= 2
            && r.logs[|r.logs| - 2] == LogEntry(StartFailed("SDP exchange failed: " + body), System)
            && r.effects == s.effects + [CreatePeer(pc), AddTrack(pc, Audio), AddTrack(pc, Video),
                                         CreateChannel(dc), StopTracks(s.stream.value), CloseChannel(dc), ClosePeer(pc)]
  {
    var n := |s.effects|;
    var g := BeforeExchange(s, env.token.sessionId);
    StartReachesExchange(s, env);
    CameraThroughGathering(s, env.token.sessionId);
    var pc := PeerConnection(n);
    var dc := DataChannel(n + 3, ChannelName);
    var f := FailStart(g, "SDP exchange failed: " + body);
    assert Exchange(g, env) == f;
    assert ClosesFor(g) == [StopTracks(s.stream.value), CloseChannel(dc), ClosePeer(pc)];
    assert f.effects == s.effects + [CreatePeer(pc), AddTrack(pc, Audio), AddTrack(pc, Video),
                                     CreateChannel(dc), StopTracks(s.stream.value), CloseChannel(dc), ClosePeer(pc)];
    assert f.logs[|f.logs| - 2] == LogEntry(StartFailed("SDP exchange failed: " + body), System);
  }

  /** The state a start with an issued credential reaches when ICE
      gathering completes, just before the answer exchange. */
  function BeforeExchange(s: Session, sessionId: string): Session
    requires s.stream.Some? && s.stream.value.audioTracks > 0
  {
    Gathered(Wired(s, sessionId))
  }

  /** A start whose credential, offer and gathering all succeed ends in the
      answer exchange. */
  lemma StartReachesExchange(s: Session, env: StartEnv)
    requires s.stream.Some? && s.stream.value.audioTracks > 0
    requires env.token.TokenIssued? && env.offer.Resolved? && env.iceGatheringCompletes
    ensures StartSession(s, env) == Exchange(BeforeExchange(s, env.token.sessionId), env)
  {
  }

  /** The calls a start makes up to the exchange when the camera is used. */
  lemma CameraThroughGathering(s: Session, sessionId: string)
    requires s.stream.Some? && s.hasVideo
    requires s.stream.value.audioTracks > 0 && s.stream.value.videoTracks > 0
    ensures var g := BeforeExchange(s, sessionId);
            var n := |s.effects|;
            var pc := PeerConnection(n);
            && g.stream == s.stream
            && g.pc == Some(pc) && g.dc == Some(DataChannel(n + 3, ChannelName))
            && g.effects == s.effects + [CreatePeer(pc), AddTrack(pc, Audio), AddTrack(pc, Video),
                                         CreateChannel(DataChannel(n + 3, ChannelName))]
  {
    var peer := CreatedPeer(UpdateStatus(s, GettingToken, Info), sessionId);
    assert peer.effects == s.effects + [CreatePeer(PeerConnection(|s.effects|))];
    CameraWiring(peer);
  }

  /** Wiring a stream with a camera track while `hasVideo` holds. */
  lemma CameraWiring(s: Session)
    requires s.stream.Some? && s.pc.Some? && s.hasVideo
    requires s.stream.value.audioTracks > 0 && s.stream.value.videoTracks > 0
    ensures var pc := s.pc.value;
            WireTracks(s).effects
              == s.effects + [AddTrack(pc, Audio), AddTrack(pc, Video), CreateChannel(DataChannel(|s.effects| + 2, ChannelName))]
  {
    WireTracksOrder(s);
  }


  /** A transport report of `failed` while connected lowers the flag and
      nothing else: the stream, connection and channel stay held, nothing
      is closed, Stop becomes disabled and Start enabled again. */
  lemma TransportFailureKeepsHandles(s: Session)
    requires s.isConnected && s.stream.Some?
    ensures var r := Apply(s, TransportChange(Failed));
            && !r.isConnected
            && r.stream == s.stream && r.pc == s.pc && r.dc == s.dc && r.effects == s.effects
            && !StopEnabled(r) && StartEnabled(r)
  {
  }

  /** After such a failure Stop stays disabled and Test is enabled. A
      successful retest replaces only the stream: the old stream, the held
      connection and the held channel all stay open, and nothing is closed. */
  lemma RetestAfterFailureKeepsConnection(s: Session, combined: Capture, audioOnly: Capture)
    requires Ledger(s) && s.isConnected && s.stream.Some? && s.pc.Some? && s.dc.Some?
    requires combined.Granted? || audioOnly.Granted?
    ensures var failed := Apply(s, TransportChange(Failed));
            var r := Apply(failed, ClickTest(combined, audioOnly));
            && TestEnabled(failed) && !StopEnabled(failed)
            && r.stream.Some? && r.stream != s.stream && r.pc == s.pc && r.dc == s.dc
            && NeverClosed(r.effects, s.stream.value.id)
            && NeverClosed(r.effects, s.pc.value.id)
            && NeverClosed(r.effects, s.dc.value.id)
  {
    var failed := OnConnectionStateChange(s, Failed);
    LedgerFrame(s, failed);
    RetestLeavesOldStreamLive(failed, combined, audioOnly);
    var r := TestPermissions(failed, combined, audioOnly);
    assert NoClosesAfter(r.effects, |failed.effects|);
    OpenThroughSuffix(failed.effects, r.effects, s.pc.value.id);
    OpenThroughSuffix(failed.effects, r.effects, s.dc.value.id);
  }

  /** A start after such a failure whose credential request fails runs the
      catch block before any new handle exists, so `stopSession` closes the
      held stream, the old channel and the old connection. */
  lemma RestartFailingAtCredentialReleasesOld(s: Session, env: StartEnv)
    requires s.isConnected && s.stream.Some? && s.pc.Some? && s.dc.Some?
    requires !env.token.TokenIssued?
    ensures var failed := Apply(s, TransportChange(Failed));
            var r := Apply(failed, ClickStart(env));
            && StartEnabled(failed) && TornDown(r)
            && r.effects == s.effects + [StopTracks(s.stream.value), CloseChannel(s.dc.value), ClosePeer(s.pc.value)]
  {
    var failed := OnConnectionStateChange(s, Failed);
    assert ClosesFor(failed) == [StopTracks(s.stream.value), CloseChannel(s.dc.value), ClosePeer(s.pc.value)];
  }

  /** A start after such a failure with a stream lacking an audio track
      fails at `addTrack`, after the new connection replaced the old one but
      before a new channel exists: the catch block closes the stream, the
      old channel and the new connection, and the old connection is dropped
      without ever being closed. */
  lemma RestartFailingAtAddTrackDropsOldConnection(s: Session, env: StartEnv)
    requires Ledger(s) && s.isConnected && s.pc.Some? && s.dc.Some?
    requires s.stream.Some? && s.stream.value.audioTracks == 0
    requires env.token.TokenIssued?
    ensures var failed := Apply(s, TransportChange(Failed));
            var r := Apply(failed, ClickStart(env));
            var newPeer := PeerConnection(|s.effects|);
            && TornDown(r)
            && r.effects == s.effects + [CreatePeer(newPeer), StopTracks(s.stream.value),
                                         CloseChannel(s.dc.value), ClosePeer(newPeer)]
            && NeverClosed(r.effects, s.pc.value.id)
  {
    var failed := OnConnectionStateChange(s, Failed);
    assert Apply(s, TransportChange(Failed)) == failed;
    assert Apply(failed, ClickStart(env)) == StartSession(failed, env);
    AddTrackFailure(failed, env);
    var added := [CreatePeer(PeerConnection(|s.effects|)), StopTracks(s.stream.value),
                  CloseChannel(s.dc.value), ClosePeer(PeerConnection(|s.effects|))];
    OldPeerNotAmong(s, added);
    var r := s.effects + added;
    forall i | |s.effects| <= i < |r|
      ensures CloseTarget(r[i]) != Some(s.pc.value.id)
    {
      assert r[i] == added[i - |s.effects|];
    }
    OpenThroughSuffix(s.effects, r, s.pc.value.id);
  }

  /** A start with a held stream lacking an audio track fails at `addTrack`
      right after creating its connection. */
  lemma AddTrackFailure(s: Session, env: StartEnv)
    requires s.pc.Some? && s.dc.Some? && s.stream.Some? && s.stream.value.audioTracks == 0
    requires env.token.TokenIssued?
    ensures var r := StartSession(s, env);
            var newPeer := PeerConnection(|s.effects|);
            && TornDown(r)
            && r.effects == s.effects + [CreatePeer(newPeer), StopTracks(s.stream.value),
                                         CloseChannel(s.dc.value), ClosePeer(newPeer)]
  {
    var fetching := UpdateStatus(s, GettingToken, Info);
    var peer := CreatedPeer(fetching, env.token.sessionId);
    var newPeer := PeerConnection(|s.effects|);
    assert peer.effects == s.effects + [CreatePeer(newPeer)];
    assert ClosesFor(peer) == [StopTracks(s.stream.value), CloseChannel(s.dc.value), ClosePeer(newPeer)];
  }

  /** None of the four calls of a failed `addTrack` start closes the old
      connection: the channel and the stream are other handles, and the new
      connection sits at a later position. */
  lemma OldPeerNotAmong(s: Session, added: seq<Effect>)
    requires Ledger(s) && s.pc.Some? && s.dc.Some? && s.stream.Some?
    requires added == [CreatePeer(PeerConnection(|s.effects|)), StopTracks(s.stream.value),
                       CloseChannel(s.dc.value), ClosePeer(PeerConnection(|s.effects|))]
    ensures forall i | 0 <= i < |added| :: CloseTarget(added[i]) != Some(s.pc.value.id)
  {
    assert s.effects[s.pc.value.id] == CreatePeer(s.pc.value);
  }

  /** A start after such a failure that does not fail replaces the held
      connection and channel without closing them, so they stay open with no
      reference left to close them by. */
  lemma RestartDropsHeldConnection(s: Session, env: StartEnv)
    requires Ledger(s) && Consistent(s)
    requires s.stream.Some? && s.pc.Some? && s.dc.Some? && StartEnabled(s)
    requires !Fails(env, s.stream.value)
    ensures var r := Apply(s, ClickStart(env));
            && r.pc.Some? && r.pc != s.pc && r.dc.Some? && r.dc != s.dc
            && NeverClosed(r.effects, s.pc.value.id) && NeverClosed(r.effects, s.dc.value.id)
  {
    var r := StartSession(s, env);
    StartOutcomesCover(env, s.stream.value);
    if Stalls(env, s.stream.value) {
      StartStallsWithoutTimeout(s, env);
    } else {
      StartCompletesPending(s, env);
    }
    assert Apply(s, ClickStart(env)) == r;
    PendingStartKeepsOpen(s, env, s.pc.value.id);
    PendingStartKeepsOpen(s, env, s.dc.value.id);
  }
}
