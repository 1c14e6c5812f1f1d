/**
 `testPermissions`: ask for camera and microphone together, fall back to
 the microphone alone, or report that neither is available.
 */
module Permissions {
  import opened Wrappers
  import opened State
  import opened Handles

  /** What one `getUserMedia` request resolved or rejected with. */
  datatype Capture = Granted(audioTracks: nat, videoTracks: nat) | Denied(message: string)

  /** `combined` is the answer to the audio+video request; `audioOnly` the
      answer to the microphone-only request, consulted only when `combined`
      is denied. */
  function TestPermissions(s: Session, combined: Capture, audioOnly: Capture): (r: Session)
    // the transport side and the connected flag are not touched
    ensures r.pc == s.pc && r.dc == s.dc && r.isConnected == s.isConnected
    // combined success: a fresh stream replaces the reference, the old one is not stopped
    ensures combined.Granted? ==>
              && r.stream == Some(MediaStream(|s.effects|, combined.audioTracks, combined.videoTracks))
              && r.effects == s.effects + [Acquire(r.stream.value)]
              && r.hasVideo && r.status == Status(PermissionsGranted, Success)
              && r.logs == s.logs + [LogEntry(RequestingPermissions, System), LogEntry(CameraAndMicrophoneWork, System)]
    // fallback to audio only
    ensures combined.Denied? && audioOnly.Granted? ==>
              && r.stream == Some(MediaStream(|s.effects|, audioOnly.audioTracks, audioOnly.videoTracks))
              && r.effects == s.effects + [Acquire(r.stream.value)]
              && !r.hasVideo && r.status == Status(MicrophoneGranted, Success)
              && r.logs == s.logs + [LogEntry(RequestingPermissions, System),
                                     LogEntry(PermissionTestFailed(combined.message), System),
                                     LogEntry(MicrophoneWorks, System)]
    // total failure: references and the video flag are left as they were
    ensures combined.Denied? && audioOnly.Denied? ==>
              && r.stream == s.stream && r.hasVideo == s.hasVideo
              && r.effects == s.effects
              && r.status == Status(MicrophoneDenied, Error)
              && r.logs == s.logs + [LogEntry(RequestingPermissions, System),
                                     LogEntry(PermissionTestFailed(combined.message), System),
                                     LogEntry(CaptureError(audioOnly.message), System)]
  {
    var asking := AddLog(UpdateStatus(s, TestingDevices, Info), RequestingPermissions, System);
    match combined
    case Granted(audioTracks, videoTracks) =>
      var captured := AcquireStream(asking, audioTracks, videoTracks).(hasVideo := true);
      UpdateStatus(AddLog(captured, CameraAndMicrophoneWork, System), PermissionsGranted, Success)
    case Denied(reason) =>
      var failed := AddLog(asking, PermissionTestFailed(reason), System);
      match audioOnly
      case Granted(audioTracks, videoTracks) =>
        var captured := AcquireStream(failed, audioTracks, videoTracks).(hasVideo := false);
        UpdateStatus(AddLog(captured, MicrophoneWorks, System), MicrophoneGranted, Success)
      case Denied(audioReason) =>
        AddLog(UpdateStatus(failed, MicrophoneDenied, Error), CaptureError(audioReason), System)
  }

  /** Whatever the devices answer, the handle ledger and the link between
      `hasVideo` and the stream reference survive a permission test. */
  lemma TestPermissionsKeepsInvariants(s: Session, combined: Capture, audioOnly: Capture)
    requires Ledger(s) && Consistent(s)
    ensures var r := TestPermissions(s, combined, audioOnly);
            Ledger(r) && Consistent(r)
  {
    var asking := AddLog(UpdateStatus(s, TestingDevices, Info), RequestingPermissions, System);
    LedgerFrame(s, asking);
    match combined
    case Granted(a, v) =>
      var captured := AcquireStream(asking, a, v);
      AcquireKeepsLedger(asking, a, v);
      LedgerFrame(captured, TestPermissions(s, combined, audioOnly));
    case Denied(reason) =>
      var failed := AddLog(asking, PermissionTestFailed(reason), System);
      LedgerFrame(asking, failed);
      match audioOnly
      case Granted(a, v) =>
        var captured := AcquireStream(failed, a, v);
        AcquireKeepsLedger(failed, a, v);
        LedgerFrame(captured, TestPermissions(s, combined, audioOnly));
      case Denied(_) =>
        LedgerFrame(failed, TestPermissions(s, combined, audioOnly));
  }

  /** A second successful test replaces the held stream with a fresh one
      and never stops the old one: its tracks stay live with no reference
      left to stop them by. */
  lemma RetestLeavesOldStreamLive(s: Session, combined: Capture, audioOnly: Capture)
    requires Ledger(s) && s.stream.Some?
    requires combined.Granted? || audioOnly.Granted?
    ensures var r := TestPermissions(s, combined, audioOnly);
            && r.stream.Some? && r.stream != s.stream
            && NeverClosed(r.effects, s.stream.value.id)
  {
    var r := TestPermissions(s, combined, audioOnly);
    var e := Acquire(r.stream.value);
    AppendKeepsPositions(s.effects, e);
  }
}
