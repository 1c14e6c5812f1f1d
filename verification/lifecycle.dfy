/**
 The page as a whole: the user's clicks (each allowed only while its button
 is enabled) and the browser's callbacks, applied one after another to the
 component state.
 */
module Lifecycle {
  import opened State
  import opened Handles
  import opened Teardown
  import opened Permissions
  import opened Start
  import opened Channel
  import opened View

  /** One thing that can happen to the page. The outcomes of the browser
      and network calls a click triggers travel with the click. */
  datatype Action =
    | ClickTest(combined: Capture, audioOnly: Capture)
    | ClickStart(env: StartEnv)
    | ClickStop
    | TransportChange(state: ConnectionState)
    | ChannelOpenEvent(channel: DataChannel, instructions: string)
    | ChannelMessage(event: ServerEvent)
    | ChannelFailure(detail: string)
    | RemoteTrack

  /** A channel the page created, has not closed and has not yet sent on:
      only such a channel can report that it opened, since a channel opens
      once and the page sends on it only from its open handler. */
  predicate LiveChannel(effects: seq<Effect>, channel: DataChannel)
  {
    channel.id < |effects| && effects[channel.id] == CreateChannel(channel)
    && NeverClosed(effects, channel.id)
    && NeverSentOn(effects, channel)
  }

  predicate NeverSentOn(effects: seq<Effect>, channel: DataChannel)
  {
    forall i | 0 <= i < |effects| :: !(effects[i].Send? && effects[i].channel == channel)
  }

  /** One step. A click on a disabled button and an open event from a
      channel that is not live do nothing. */
  function Apply(s: Session, a: Action): (r: Session)
    ensures s.logs <= r.logs && s.effects <= r.effects
    ensures || (a.ClickTest? && !TestEnabled(s))
            || (a.ClickStart? && !StartEnabled(s))
            || (a.ClickStop? && !StopEnabled(s))
            || (a.ChannelOpenEvent? && !LiveChannel(s.effects, a.channel))
            ==> r == s
  {
    match a
    case ClickTest(combined, audioOnly) =>
      if TestEnabled(s) then TestPermissions(s, combined, audioOnly) else s
    case ClickStart(env) =>
      if StartEnabled(s) then StartSession(s, env) else s
    case ClickStop =>
      if StopEnabled(s) then StopSession(s) else s
    case TransportChange(state) => OnConnectionStateChange(s, state)
    case ChannelOpenEvent(channel, instructions) =>
      if LiveChannel(s.effects, channel) then OnChannelOpen(s, channel, instructions) else s
    case ChannelMessage(event) => HandleServerEvent(s, event)
    case ChannelFailure(detail) => OnChannelError(s, detail)
    case RemoteTrack => OnRemoteTrack(s)
  }

  /** A sequence of steps, in order. The log and the trace only grow. */
  function Run(s: Session, actions: seq<Action>): (r: Session)
    ensures s.logs <= r.logs && s.effects <= r.effects
    decreases |actions|
  {
    if actions == [] then s else Run(Apply(s, actions[0]), actions[1..])
  }

  /** Every step keeps the handle ledger and the link between `hasVideo`
      and the stream reference. */
  lemma ApplyKeepsInvariants(s: Session, a: Action)
    requires Ledger(s) && Consistent(s)
    ensures Ledger(Apply(s, a)) && Consistent(Apply(s, a))
  {
    match a
    case ClickTest(combined, audioOnly) =>
      TestPermissionsKeepsInvariants(s, combined, audioOnly);
    case ClickStart(env) =>
      StartKeepsInvariants(s, env);
    case ClickStop =>
      StopKeepsLedger(s);
    case TransportChange(state) =>
      LedgerFrame(s, OnConnectionStateChange(s, state));
    case ChannelOpenEvent(channel, instructions) =>
      ChannelOpenKeepsLedger(s, channel, instructions);
    case ChannelMessage(event) =>
      LedgerFrame(s, HandleServerEvent(s, event));
    case ChannelFailure(detail) =>
      LedgerFrame(s, OnChannelError(s, detail));
    case RemoteTrack =>
      LedgerFrame(s, OnRemoteTrack(s));
  }

  lemma {:induction false} RunKeepsInvariants(s: Session, actions: seq<Action>)
    requires Ledger(s) && Consistent(s)
    ensures Ledger(Run(s, actions)) && Consistent(Run(s, actions))
    decreases |actions|
  {
    if actions != [] {
      ApplyKeepsInvariants(s, actions[0]);
      RunKeepsInvariants(Apply(s, actions[0]), actions[1..]);
    }
  }

  /** Whatever the user clicks and the browser reports, from the first
      render on: every close names a handle created earlier, no handle is
      closed twice, the held references name open handles, and `hasVideo`
      is only set while a stream is held. */
  lemma EveryRunClosesEachHandleAtMostOnce(actions: seq<Action>)
    ensures var r := Run(Initial, actions);
            && ClosesFollowCreation(r.effects) && ClosedAtMostOnce(r.effects)
            && StreamOpen(r) && PeerOpen(r) && ChannelOpen(r)
            && Consistent(r)
  {
    RunKeepsInvariants(Initial, actions);
  }

  /** The open handler runs at most once per channel: after it the channel
      is no longer live, and a second open event on it changes nothing. */
  lemma ChannelOpensOnce(s: Session, channel: DataChannel, first: string, second: string)
    requires LiveChannel(s.effects, channel)
    ensures var afterOpen := Apply(s, ChannelOpenEvent(channel, first));
            && |afterOpen.effects| == |s.effects| + 1
            && !LiveChannel(afterOpen.effects, channel)
            && Apply(afterOpen, ChannelOpenEvent(channel, second)) == afterOpen
  {
    var afterOpen := Apply(s, ChannelOpenEvent(channel, first));
    assert afterOpen.effects[|s.effects|].Send? && afterOpen.effects[|s.effects|].channel == channel;
  }

  /** Whatever happens from the first render on, the media card reads
      "Not ready" exactly when no stream is held and "Video + Audio" only
      while one is, and Start is enabled exactly when the connection card
      reads "Idle" and the media card does not read "Not ready". */
  lemma EveryRunShowsHeldMedia(actions: seq<Action>)
    ensures var r := Run(Initial, actions);
            && (MediaModeOf(r) == NotReady <==> r.stream.None?)
            && (MediaModeOf(r) == VideoAndAudio ==> r.stream.Some?)
            && (StartEnabled(r) <==> ConnectionLabel(r) == "Idle" && MediaModeOf(r) != NotReady)
  {
    var r := Run(Initial, actions);
    RunKeepsInvariants(Initial, actions);
    MediaModeReadsState(r);
    StartEnabledWhenMediaReady(r);
  }

  /** Only a transport report of `connected` raises the connected flag:
      neither a start that completes nor a channel that opens does. */
  lemma ApplyConnectsOnlyOnTransport(s: Session, a: Action)
    ensures Apply(s, a).isConnected && !s.isConnected ==> a == TransportChange(Connected)
  {
    match a
    case ClickStart(env) =>
      if StartEnabled(s) {
        StartNeverConnects(s, env);
      }
    case _ =>
  }

  /** If a run ends connected, it started connected or some step was a
      transport report of `connected`. */
  lemma {:induction false} ConnectedOnlyAfterTransportReport(s: Session, actions: seq<Action>)
    ensures Run(s, actions).isConnected ==>
              s.isConnected || TransportChange(Connected) in actions
    decreases |actions|
  {
    if actions != [] {
      var next := Apply(s, actions[0]);
      ApplyConnectsOnlyOnTransport(s, actions[0]);
      ConnectedOnlyAfterTransportReport(next, actions[1..]);
      assert actions == [actions[0]] + actions[1..];
    }
  }
}
