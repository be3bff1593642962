/**
 * The state hook behind the participant panels: the values it derives from
 * a participant that may be undefined, the split of the participant's
 * tracks by source, and the choice of the local participant. What the SDK's
 * hooks return (connection quality, track references, the participant list)
 * are inputs.
 */
module LivekitState {
  import opened Js
  import opened LiveKit

  /**
   * A participant as the hook reads it. `isLocal` is `isLocalParticipant(p)`;
   * an enabled flag is `None` when the spread object does not carry it.
   */
  datatype Participant = Participant(
    isLocal: bool,
    isMicrophoneEnabled: Option<bool>,
    isScreenShareEnabled: Option<bool>,
    isCameraEnabled: Option<bool>,
    audioLevel: real,
    sid: string,
    lastSpokeAt: Option<int>,
    joinedAt: Option<int>,
    lastMicrophoneError: Option<string>,
    lastCameraError: Option<string>)

  /** A track reference, with the source it was published from. */
  datatype TrackRef = TrackRef(source: TrackSource, publicationSid: string)

  datatype TrackLists = TrackLists(
    microphoneTracks: seq<TrackRef>,
    cameraTracks: seq<TrackRef>,
    screenShareTracks: seq<TrackRef>,
    screenShareAudioTracks: seq<TrackRef>,
    unknownTracks: seq<TrackRef>)

  datatype Errors = Errors(lastMicrophoneError: Option<string>, lastCameraError: Option<string>)

  datatype ParticipantState = ParticipantState(
    isLocal: bool,
    isMicrophoneEnabled: bool,
    isScreenShareEnabled: bool,
    isCameraEnabled: bool,
    connectionQuality: ConnectionQuality,
    audioLevel: real,
    sid: string,
    lastSpokeAt: Option<int>,
    joinedAt: Option<int>,
    tracks: TrackLists,
    errors: Errors)

  /** `tracks.filter((track) => track.source === source)` */
  function TracksFrom(tracks: seq<TrackRef>, source: TrackSource): (r: seq<TrackRef>)
    ensures forall t | t in r :: t in tracks && t.source == source
  {
    Js.Filter(tracks, (t: TrackRef) => t.source == source)
  }

  /** The object the hook's first `useMemo` returns. */
  datatype MemoizedFields = MemoizedFields(
    isLocal: bool,
    isMicrophoneEnabled: Option<bool>,
    isScreenShareEnabled: Option<bool>,
    isCameraEnabled: Option<bool>,
    audioLevel: real,
    sid: string,
    lastSpokeAt: Option<int>,
    joinedAt: Option<int>)

  /** The defaults for an undefined participant, or the participant's own fields with `isLocal` recomputed. */
  function Memoized(participant: Option<Participant>): MemoizedFields {
    match participant
    case None => MemoizedFields(false, Some(false), Some(false), Some(false), 0.0, "", None, None)
    case Some(p) => MemoizedFields(p.isLocal, p.isMicrophoneEnabled, p.isScreenShareEnabled, p.isCameraEnabled,
                                   p.audioLevel, p.sid, p.lastSpokeAt, p.joinedAt)
  }

  /** `x || false` */
  function OrFalse(x: Option<bool>): bool {
    x.GetOr(false)
  }

  /**
   * `useLivekitParticipantState(participant)`, given what the quality hook
   * and the track hook return for that participant.
   */
  function ParticipantStateOf(participant: Option<Participant>, quality: Option<ConnectionQuality>, tracks: seq<TrackRef>)
    : (s: ParticipantState)
    ensures participant.None? ==>
      && !s.isLocal && !s.isMicrophoneEnabled && !s.isScreenShareEnabled && !s.isCameraEnabled
      && s.audioLevel == 0.0 && s.sid == "" && s.lastSpokeAt.None? && s.joinedAt.None?
    ensures participant.Some? ==>
      && s.isLocal == participant.value.isLocal
      && (s.isMicrophoneEnabled <==> participant.value.isMicrophoneEnabled == Some(true))
      && (s.isScreenShareEnabled <==> participant.value.isScreenShareEnabled == Some(true))
      && (s.isCameraEnabled <==> participant.value.isCameraEnabled == Some(true))
      && s.audioLevel == participant.value.audioLevel && s.sid == participant.value.sid
      && s.lastSpokeAt == participant.value.lastSpokeAt && s.joinedAt == participant.value.joinedAt
    ensures s.tracks == TrackLists(
      TracksFrom(tracks, Microphone), TracksFrom(tracks, Camera), TracksFrom(tracks, ScreenShare),
      TracksFrom(tracks, ScreenShareAudio), TracksFrom(tracks, UnknownSource))
    ensures s.connectionQuality == if quality.Some? then quality.value else Unknown
    ensures s.errors.lastMicrophoneError.Some? ==> participant.Some? && participant.value.isLocal
    ensures s.errors.lastCameraError.Some? ==> participant.Some? && participant.value.isLocal
    ensures participant.Some? && participant.value.isLocal ==>
      s.errors == Errors(participant.value.lastMicrophoneError, participant.value.lastCameraError)
  {
    var m := Memoized(participant);
    var lastMicrophoneError := if participant.None? || !m.isLocal then None else participant.value.lastMicrophoneError;
    var lastCameraError := if participant.None? || !m.isLocal then None else participant.value.lastCameraError;
    ParticipantState(
      m.isLocal, OrFalse(m.isMicrophoneEnabled), OrFalse(m.isScreenShareEnabled), OrFalse(m.isCameraEnabled),
      quality.GetOr(Unknown),
      m.audioLevel, m.sid, m.lastSpokeAt, m.joinedAt,
      TrackLists(
        TracksFrom(tracks, Microphone),
        TracksFrom(tracks, Camera),
        TracksFrom(tracks, ScreenShare),
        TracksFrom(tracks, ScreenShareAudio),
        TracksFrom(tracks, UnknownSource)),
      Errors(lastMicrophoneError, lastCameraError))
  }

  /** Each per-source list keeps the order of `tracks`. */
  lemma TrackListsKeepOrder(tracks: seq<TrackRef>, source: TrackSource)
    ensures IsSubsequence(TracksFrom(tracks, source), tracks)
  {
    FilterIsSubsequence(tracks, (t: TrackRef) => t.source == source);
  }

  /** Lists of different sources share no track. */
  lemma TrackListsDisjoint(tracks: seq<TrackRef>, a: TrackSource, b: TrackSource)
    requires a != b
    ensures multiset(TracksFrom(tracks, a)) * multiset(TracksFrom(tracks, b)) == multiset{}
  {
    var ma, mb := multiset(TracksFrom(tracks, a)), multiset(TracksFrom(tracks, b));
    forall t ensures (ma * mb)[t] == 0 {
      FilterCount(tracks, (t: TrackRef) => t.source == a, t);
      FilterCount(tracks, (t: TrackRef) => t.source == b, t);
    }
  }

  /** Together the five lists hold every track exactly once: they partition `tracks`. */
  lemma TrackListsCoverAll(tracks: seq<TrackRef>)
    ensures multiset(TracksFrom(tracks, Microphone)) + multiset(TracksFrom(tracks, Camera))
          + multiset(TracksFrom(tracks, ScreenShare)) + multiset(TracksFrom(tracks, ScreenShareAudio))
          + multiset(TracksFrom(tracks, UnknownSource)) == multiset(tracks)
    ensures |TracksFrom(tracks, Microphone)| + |TracksFrom(tracks, Camera)| + |TracksFrom(tracks, ScreenShare)|
          + |TracksFrom(tracks, ScreenShareAudio)| + |TracksFrom(tracks, UnknownSource)| == |tracks|
  {
    var sum := multiset(TracksFrom(tracks, Microphone)) + multiset(TracksFrom(tracks, Camera))
             + multiset(TracksFrom(tracks, ScreenShare)) + multiset(TracksFrom(tracks, ScreenShareAudio))
             + multiset(TracksFrom(tracks, UnknownSource));
    forall t ensures sum[t] == multiset(tracks)[t] {
      FilterCount(tracks, (t: TrackRef) => t.source == Microphone, t);
      FilterCount(tracks, (t: TrackRef) => t.source == Camera, t);
      FilterCount(tracks, (t: TrackRef) => t.source == ScreenShare, t);
      FilterCount(tracks, (t: TrackRef) => t.source == ScreenShareAudio, t);
      FilterCount(tracks, (t: TrackRef) => t.source == UnknownSource, t);
    }
    assert sum == multiset(tracks);
  }

  /** `participants.find((p) => isLocalParticipant(p))` */
  function FindLocal(participants: seq<Participant>): (r: Option<Participant>)
    ensures r.None? <==> forall p | p in participants :: !p.isLocal
    ensures r.Some? ==> exists i | 0 <= i < |participants| ::
      && participants[i] == r.value
      && r.value.isLocal
      && forall j | 0 <= j < i :: !participants[j].isLocal
  {
    if participants == [] then None
    else if participants[0].isLocal then Some(participants[0])
    else
      var r := FindLocal(participants[1..]);
      assert forall p | p in participants[1..] :: p in participants;
      assert r.Some? ==> exists i | 1 <= i < |participants| ::
        && participants[i] == r.value
        && r.value.isLocal
        && forall j | 0 <= j < i :: !participants[j].isLocal;
      r
  }

  /** `useLivekitState().localParticipant`: the state of the first local participant. */
  function LocalParticipantState(participants: seq<Participant>, quality: Option<ConnectionQuality>, tracks: seq<TrackRef>)
    : (s: ParticipantState)
    ensures (forall p | p in participants :: !p.isLocal) ==>
      && !s.isLocal && !s.isMicrophoneEnabled && !s.isScreenShareEnabled && !s.isCameraEnabled
      && s.audioLevel == 0.0 && s.sid == "" && s.lastSpokeAt.None? && s.joinedAt.None?
      && s.errors == Errors(None, None)
    ensures (exists p | p in participants :: p.isLocal) ==> s.isLocal
  {
    ParticipantStateOf(FindLocal(participants), quality, tracks)
  }
}
