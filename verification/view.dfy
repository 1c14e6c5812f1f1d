/**
 What the page derives from the session state for display: the media mode
 summary, the connection summary and which of the three buttons is enabled.
 */
module View {
  import opened State

  /** The "Media Mode" summary card. */
  datatype MediaMode = VideoAndAudio | AudioOnly | NotReady

  /** `hasAnyMedia` is "a stream is held"; audio-only is a stream without
      `hasVideo`; `hasVideo` alone decides the video mode. */
  function MediaModeOf(s: Session): MediaMode
  {
    if s.hasVideo then VideoAndAudio
    else if s.stream.Some? then AudioOnly
    else NotReady
  }

  function MediaModeLabel(m: MediaMode): string
  {
    match m
    case VideoAndAudio => "Video + Audio"
    case AudioOnly => "Audio only"
    case NotReady => "Not ready"
  }

  /** The "Connection" summary card. */
  function ConnectionLabel(s: Session): string
  {
    if s.isConnected then "Live" else "Idle"
  }

  /** "Test Permissions" is disabled while connected. */
  predicate TestEnabled(s: Session)
  {
    !s.isConnected
  }

  /** "Start Session" is disabled while connected or while no stream is held. */
  predicate StartEnabled(s: Session)
  {
    !s.isConnected && s.stream.Some?
  }

  /** "Stop Session" is enabled only while connected. */
  predicate StopEnabled(s: Session)
  {
    s.isConnected
  }

  /** In a consistent state the media mode is an exact reading of the
      references: not ready exactly when no stream is held, video exactly
      when `hasVideo`, audio only exactly when a stream is held without it. */
  lemma MediaModeReadsState(s: Session)
    requires Consistent(s)
    ensures MediaModeOf(s) == NotReady <==> s.stream.None?
    ensures MediaModeOf(s) == VideoAndAudio <==> s.hasVideo
    ensures MediaModeOf(s) == AudioOnly <==> (s.stream.Some? && !s.hasVideo)
  {
  }

  /** Start is enabled exactly when the session is idle and the media mode
      is not "Not ready". */
  lemma StartEnabledWhenMediaReady(s: Session)
    requires Consistent(s)
    ensures StartEnabled(s) <==> (ConnectionLabel(s) == "Idle" && MediaModeOf(s) != NotReady)
  {
  }

  /** At every state exactly one of "Test Permissions" and "Stop Session"
      can be clicked, and Stop is enabled exactly when the connection reads
      "Live". */
  lemma TestAndStopAlternate(s: Session)
    ensures TestEnabled(s) != StopEnabled(s)
    ensures StopEnabled(s) <==> ConnectionLabel(s) == "Live"
  {
  }
}
