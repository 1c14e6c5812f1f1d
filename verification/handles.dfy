/**
 Creating and releasing the three resources the page holds (local stream,
 peer connection, data channel), and the ledger invariant over the effect
 trace: every close follows the creation of what it closes, nothing is
 closed twice, and every handle still referenced is open.
 */
module Handles {
  import opened Wrappers
  import opened State

  /** The id of the handle an effect closes, if it closes one. */
  function CloseTarget(e: Effect): Option<nat>
  {
    match e
    case StopTracks(st) => Some(st.id)
    case CloseChannel(dc) => Some(dc.id)
    case ClosePeer(pc) => Some(pc.id)
    case _ => None
  }

  predicate IsClose(e: Effect)
  {
    CloseTarget(e).Some?
  }

  predicate NeverClosed(effects: seq<Effect>, id: nat)
  {
    forall i | 0 <= i < |effects| :: CloseTarget(effects[i]) != Some(id)
  }

  /** `creation` is the call that created the handle `close` closes: a
      stream's tracks are stopped after it was captured, a channel or a
      connection is closed after it was created. */
  predicate CreatedBy(creation: Effect, close: Effect)
  {
    match close
    case StopTracks(st) => creation == Acquire(st)
    case CloseChannel(dc) => creation == CreateChannel(dc)
    case ClosePeer(pc) => creation == CreatePeer(pc)
    case _ => false
  }

  /** A close names a handle created earlier in the trace, and the position
      it names holds that handle's creation. */
  predicate ClosesFollowCreation(effects: seq<Effect>)
  {
    forall i | 0 <= i < |effects| && IsClose(effects[i]) ::
      && CloseTarget(effects[i]).value < i
      && CreatedBy(effects[CloseTarget(effects[i]).value], effects[i])
  }

  /** No handle is closed twice. */
  predicate ClosedAtMostOnce(effects: seq<Effect>)
  {
    forall i, j | 0 <= i < j < |effects| && IsClose(effects[i]) ::
      CloseTarget(effects[i]) != CloseTarget(effects[j])
  }

  predicate StreamOpen(s: Session)
  {
    s.stream.Some? ==>
      var st := s.stream.value;
      st.id < |s.effects| && s.effects[st.id] == Acquire(st) && NeverClosed(s.effects, st.id)
  }

  predicate PeerOpen(s: Session)
  {
    s.pc.Some? ==>
      var pc := s.pc.value;
      pc.id < |s.effects| && s.effects[pc.id] == CreatePeer(pc) && NeverClosed(s.effects, pc.id)
  }

  predicate ChannelOpen(s: Session)
  {
    s.dc.Some? ==>
      var dc := s.dc.value;
      dc.id < |s.effects| && s.effects[dc.id] == CreateChannel(dc) && NeverClosed(s.effects, dc.id)
  }

  predicate Ledger(s: Session)
  {
    && ClosesFollowCreation(s.effects)
    && ClosedAtMostOnce(s.effects)
    && StreamOpen(s)
    && PeerOpen(s)
    && ChannelOpen(s)
  }

  /** Records a browser call that creates or closes nothing held. */
  function Emit(s: Session, e: Effect): Session
  {
    s.(effects := s.effects + [e])
  }

  /** A successful capture: the new stream replaces the reference, the previous
      stream (if any) is dropped without its tracks being stopped. */
  function AcquireStream(s: Session, audioTracks: nat, videoTracks: nat): Session
  {
    var st := MediaStream(|s.effects|, audioTracks, videoTracks);
    s.(stream := Some(st), effects := s.effects + [Acquire(st)])
  }

  /** `new RTCPeerConnection()` stored in the reference; a previous connection
      is dropped without being closed. */
  function OpenPeer(s: Session): Session
  {
    var pc := PeerConnection(|s.effects|);
    s.(pc := Some(pc), effects := s.effects + [CreatePeer(pc)])
  }

  /** `pc.createDataChannel(name)` stored in the reference. */
  function OpenChannel(s: Session, name: string): Session
  {
    var dc := DataChannel(|s.effects|, name);
    s.(dc := Some(dc), effects := s.effects + [CreateChannel(dc)])
  }

  /** Stops the held stream's tracks and clears the reference. */
  function ReleaseStream(s: Session): Session
  {
    if s.stream.Some? then
      s.(stream := None, effects := s.effects + [StopTracks(s.stream.value)])
    else s
  }

  /** Closes the held data channel and clears the reference. */
  function ReleaseChannel(s: Session): Session
  {
    if s.dc.Some? then
      s.(dc := None, effects := s.effects + [CloseChannel(s.dc.value)])
    else s
  }

  /** Closes the held peer connection and clears the reference. */
  function ReleasePeer(s: Session): Session
  {
    if s.pc.Some? then
      s.(pc := None, effects := s.effects + [ClosePeer(s.pc.value)])
    else s
  }

  /** Appending a call that closes nothing keeps the trace well formed and
      every open handle open. */
  lemma AppendQuiet(effects: seq<Effect>, e: Effect)
    requires ClosesFollowCreation(effects) && ClosedAtMostOnce(effects) && !IsClose(e)
    ensures ClosesFollowCreation(effects + [e]) && ClosedAtMostOnce(effects + [e])
    ensures forall id | NeverClosed(effects, id) :: NeverClosed(effects + [e], id)
  {
    var t := effects + [e];
    assert forall i | 0 <= i < |effects| :: t[i] == effects[i];
  }

  /** Appending the first close of a handle created earlier keeps the trace
      well formed; every other open handle stays open. */
  lemma AppendClose(effects: seq<Effect>, e: Effect)
    requires ClosesFollowCreation(effects) && ClosedAtMostOnce(effects)
    requires IsClose(e) && CloseTarget(e).value < |effects| && NeverClosed(effects, CloseTarget(e).value)
    requires CreatedBy(effects[CloseTarget(e).value], e)
    ensures ClosesFollowCreation(effects + [e]) && ClosedAtMostOnce(effects + [e])
    ensures forall id | NeverClosed(effects, id) && id != CloseTarget(e).value :: NeverClosed(effects + [e], id)
  {
    var t := effects + [e];
    assert forall i | 0 <= i < |effects| :: t[i] == effects[i];
  }

  /** Appending leaves every earlier position as it was. */
  lemma AppendKeepsPositions(effects: seq<Effect>, e: Effect)
    ensures forall i | 0 <= i < |effects| :: (effects + [e])[i] == effects[i]
  {
  }

  /** Recording a creation at position |effects| leaves the new handle
      never closed. */
  lemma AppendCreation(effects: seq<Effect>, e: Effect)
    requires ClosesFollowCreation(effects) && ClosedAtMostOnce(effects) && !IsClose(e)
    ensures NeverClosed(effects + [e], |effects|)
  {
    AppendQuiet(effects, e);
  }

  /** Changing anything but the references and the trace keeps the ledger. */
  lemma LedgerFrame(s: Session, r: Session)
    requires Ledger(s)
    requires r.stream == s.stream && r.pc == s.pc && r.dc == s.dc && r.effects == s.effects
    ensures Ledger(r)
  {
  }

  /** Recording a call that closes nothing keeps the ledger. */
  lemma EmitKeepsLedger(s: Session, e: Effect)
    requires Ledger(s) && !IsClose(e)
    ensures Ledger(Emit(s, e))
  {
    AppendKeepsPositions(s.effects, e);
    AppendCreation(s.effects, e);
  }

  /** A captured stream is fresh: nothing in the trace has closed it yet. */
  lemma AcquireKeepsLedger(s: Session, audioTracks: nat, videoTracks: nat)
    requires Ledger(s)
    ensures Ledger(AcquireStream(s, audioTracks, videoTracks))
  {
    AppendKeepsPositions(s.effects, Acquire(MediaStream(|s.effects|, audioTracks, videoTracks)));
    AppendCreation(s.effects, Acquire(MediaStream(|s.effects|, audioTracks, videoTracks)));
  }

  lemma OpenPeerKeepsLedger(s: Session)
    requires Ledger(s)
    ensures Ledger(OpenPeer(s))
  {
    AppendKeepsPositions(s.effects, CreatePeer(PeerConnection(|s.effects|)));
    AppendCreation(s.effects, CreatePeer(PeerConnection(|s.effects|)));
  }

  lemma OpenChannelKeepsLedger(s: Session, name: string)
    requires Ledger(s)
    ensures Ledger(OpenChannel(s, name))
  {
    AppendKeepsPositions(s.effects, CreateChannel(DataChannel(|s.effects|, name)));
    AppendCreation(s.effects, CreateChannel(DataChannel(|s.effects|, name)));
  }

  /** Closing a held handle once and dropping its reference keeps the ledger. */
  lemma ReleaseStreamKeepsLedger(s: Session)
    requires Ledger(s)
    ensures Ledger(ReleaseStream(s))
  {
    if s.stream.Some? {
      var e := StopTracks(s.stream.value);
      AppendClose(s.effects, e);
      AppendKeepsPositions(s.effects, e);
    }
  }

  lemma ReleaseChannelKeepsLedger(s: Session)
    requires Ledger(s)
    ensures Ledger(ReleaseChannel(s))
  {
    if s.dc.Some? {
      var e := CloseChannel(s.dc.value);
      AppendClose(s.effects, e);
      AppendKeepsPositions(s.effects, e);
    }
  }

  lemma ReleasePeerKeepsLedger(s: Session)
    requires Ledger(s)
    ensures Ledger(ReleasePeer(s))
  {
    if s.pc.Some? {
      var e := ClosePeer(s.pc.value);
      AppendClose(s.effects, e);
      AppendKeepsPositions(s.effects, e);
    }
  }
}
