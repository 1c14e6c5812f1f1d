/**
 `stopSession`: the single teardown path, used by the Stop button and by the
 failure path of `startSession`.
 */
module Teardown {
  import opened State
  import opened Handles

  const SessionEndedStatus: Status := Status(SessionEnded, Info)

  const StoppedEntry: LogEntry := LogEntry(SessionStopped, System)

  /** The state every teardown ends in. */
  predicate TornDown(s: Session)
  {
    && s.stream.None? && s.pc.None? && s.dc.None?
    && !s.isConnected && !s.hasVideo
    && s.status == SessionEndedStatus
  }

  /** How many of the three references are set. */
  function HeldCount(s: Session): nat
  {
    (if s.stream.Some? then 1 else 0) + (if s.dc.Some? then 1 else 0) + (if s.pc.Some? then 1 else 0)
  }

  /** The closes a teardown issues for the handles `s` holds, in the order
      stream tracks, channel, connection. */
  function ClosesFor(s: Session): (closes: seq<Effect>)
    ensures |closes| == HeldCount(s)
    ensures forall i | 0 <= i < |closes| :: IsClose(closes[i])
    ensures s.stream.Some? ==> StopTracks(s.stream.value) in closes
    ensures s.dc.Some? ==> CloseChannel(s.dc.value) in closes
    ensures s.pc.Some? ==> ClosePeer(s.pc.value) in closes
  {
    (if s.stream.Some? then [StopTracks(s.stream.value)] else [])
    + (if s.dc.Some? then [CloseChannel(s.dc.value)] else [])
    + (if s.pc.Some? then [ClosePeer(s.pc.value)] else [])
  }

  /** Releases the three references in the order the page does. */
  function ReleaseAll(s: Session): (r: Session)
    ensures r.stream.None? && r.pc.None? && r.dc.None?
    ensures r.effects == s.effects + ClosesFor(s)
  {
    ReleasePeer(ReleaseChannel(ReleaseStream(s)))
  }

  /** Releases whatever is held (stream tracks, then channel, then connection),
      lowers both flags, sets the info status and logs one entry. */
  function StopSession(s: Session): (r: Session)
    ensures TornDown(r)
    ensures r.logs == s.logs + [StoppedEntry]
    ensures r.effects == s.effects + ClosesFor(s)
  {
    var lowered := ReleaseAll(s).(isConnected := false, hasVideo := false);
    AddLog(UpdateStatus(lowered, SessionEndedStatus.message, SessionEndedStatus.kind),
           StoppedEntry.message, StoppedEntry.kind)
  }

  /** Teardown closes each held handle once and keeps the ledger. */
  lemma StopKeepsLedger(s: Session)
    requires Ledger(s)
    ensures Ledger(StopSession(s))
  {
    var s1 := ReleaseStream(s);
    ReleaseStreamKeepsLedger(s);
    var s2 := ReleaseChannel(s1);
    ReleaseChannelKeepsLedger(s1);
    var s3 := ReleasePeer(s2);
    ReleasePeerKeepsLedger(s2);
    LedgerFrame(s3, StopSession(s));
  }

  /** A second stop finds nothing held: it closes nothing and leaves every
      field but the log as the first stop left it. */
  lemma StopIsIdempotent(s: Session)
    ensures var once := StopSession(s);
            var twice := StopSession(once);
            && twice.effects == once.effects
            && twice.(logs := once.logs) == once
            && twice.logs == once.logs + [StoppedEntry]
  {
    var once := StopSession(s);
    assert HeldCount(once) == 0;
  }

  /** `n` consecutive stops. */
  function StopTimes(s: Session, n: nat): Session
    decreases n
  {
    if n == 0 then s else StopTimes(StopSession(s), n - 1)
  }

  /** Stopping a torn-down page only logs one more stop entry. */
  lemma StopTornDown(t: Session)
    requires TornDown(t)
    ensures StopSession(t) == t.(logs := t.logs + [StoppedEntry])
  {
    assert ClosesFor(t) == [];
  }

  /** Any number of stops on a torn-down page only log that many stop
      entries. */
  lemma {:induction false} StopTimesTornDown(t: Session, m: nat)
    requires TornDown(t)
    ensures StopTimes(t, m) == t.(logs := t.logs + seq(m, _ => StoppedEntry))
    decreases m
  {
    if m > 0 {
      StopTornDown(t);
      var next := t.(logs := t.logs + [StoppedEntry]);
      StopTimesTornDown(next, m - 1);
      assert seq(m, _ => StoppedEntry) == [StoppedEntry] + seq(m - 1, _ => StoppedEntry);
      assert next.logs + seq(m - 1, _ => StoppedEntry) == t.logs + seq(m, _ => StoppedEntry);
    }
  }

  /** The facts about `m` further stops on a torn-down page, stated field
      by field. */
  lemma StopsAfterTornDown(t: Session, m: nat, logs: seq<LogEntry>)
    requires TornDown(t) && logs == t.logs + seq(m, _ => StoppedEntry)
    ensures var r := StopTimes(t, m);
            && TornDown(r) && r.effects == t.effects && r.logs == logs
            && r.(logs := t.logs) == t
  {
    StopTimesTornDown(t, m);
  }

  /** However many times stop runs (at least once), each held handle is
      closed exactly by the first run, every run appends one stop entry, and
      every other field is as the first run left it. */
  lemma RepeatedStopClosesOnce(s: Session, n: nat)
    requires n >= 1
    ensures var r := StopTimes(s, n);
            && TornDown(r)
            && r.effects == StopSession(s).effects
            && r.logs == s.logs + seq(n, _ => StoppedEntry)
            && r.(logs := StopSession(s).logs) == StopSession(s)
  {
    var once := StopSession(s);
    var logs := s.logs + seq(n, _ => StoppedEntry);
    assert seq(n, _ => StoppedEntry) == [StoppedEntry] + seq(n - 1, _ => StoppedEntry);
    assert logs == once.logs + seq(n - 1, _ => StoppedEntry);
    StopsAfterTornDown(once, n - 1, logs);
    assert StopTimes(s, n) == StopTimes(once, n - 1);
  }
}
