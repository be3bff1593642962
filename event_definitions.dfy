/**
 * The table of room events the console logs: for each event its level, its
 * source, its message and the payload fields its detail view shows. A level
 * or a message is either fixed or computed from the payload.
 *
 * Each payload field that a message interpolates is held as the text a
 * template string prints for it.
 */
module EventDefinitions {
  import opened Js
  import LiveKit
  import opened EventRegistry

  /** The keys of the table. */
  datatype RoomEvent =
    | Connected | Reconnecting | SignalReconnecting | Reconnected | Disconnected
    | ConnectionStateChanged | MediaDevicesChanged
    | ParticipantConnected | ParticipantDisconnected
    | TrackPublished | TrackSubscribed | TrackSubscriptionFailed | TrackUnpublished
    | TrackUnsubscribed | TrackMuted | TrackUnmuted | LocalTrackPublished
    | DataReceived | ChatMessage | ConnectionQualityChanged

  /** A participant as the messages see it; `isAgent` is the result of `isAgent(participant)`. */
  datatype Participant = Participant(identity: string, isAgent: bool)

  /** The fields of the room events' payloads that the table reads. */
  datatype Payload = Payload(
    participant: Participant,
    code: string,
    reason: string,
    state: string,
    publicationKind: string,
    publicationSource: string,
    trackSource: string,
    trackSid: string,
    byteCount: string,
    packetKind: string,
    sender: Option<string>,
    topic: Option<string>,
    chatText: string,
    quality: LiveKit.ConnectionQuality)

  /** A field that is either a constant or an arrow function of the payload. */
  datatype Spec<T> = Fixed(value: T) | FromPayload(compute: Payload -> T)

  function Resolve<T>(spec: Spec<T>, p: Payload): T {
    match spec
    case Fixed(v) => v
    case FromPayload(f) => f(p)
  }

  /** `render` is `renderJson` of the listed payload fields; `None` when the entry has no `render`. */
  datatype RoomEventDefinition = RoomEventDefinition(
    level: Spec<Level>,
    source: Source,
    message: Spec<string>,
    render: Option<seq<string>>)

  /** What `${x}` prints for a value that may be undefined. */
  function Interpolate(x: Option<string>): string {
    x.GetOr("undefined")
  }

  /** "An agent" or "A remote participant", followed by the quoted identity. */
  function Who(participant: Participant, remote: string): string {
    (if participant.isAgent then "An agent" else remote) + " \"" + participant.identity + "\""
  }

  /** `roomEventRegistry[e]` */
  function Definition(e: RoomEvent): (d: RoomEventDefinition)
    ensures d.level.FromPayload? <==> e == ConnectionQualityChanged
    ensures d.source == Server <==>
      e in {ParticipantConnected, ParticipantDisconnected, TrackPublished, TrackSubscribed,
            TrackSubscriptionFailed, TrackUnpublished, DataReceived, ConnectionQualityChanged}
    ensures d.source != System
  {
    match e
    case Connected =>
      RoomEventDefinition(Fixed(Info), Client, Fixed("You are connected to the room"), None)
    case Reconnecting =>
      RoomEventDefinition(Fixed(Info), Client, Fixed("You are reconnecting to the room"), None)
    case SignalReconnecting =>
      RoomEventDefinition(Fixed(Info), Client, Fixed("You are reconnecting to the room"), None)
    case Reconnected =>
      RoomEventDefinition(Fixed(Info), Client, Fixed("You have reconnected to the room"), None)
    case Disconnected =>
      RoomEventDefinition(Fixed(Info), Client,
        FromPayload((p: Payload) => "You have disconnected from the room with code " + p.code + " because \"" + p.reason + "\""),
        Some(["reason", "code"]))
    case ConnectionStateChanged =>
      RoomEventDefinition(Fixed(Info), Client,
        FromPayload((p: Payload) => "Your connection state has changed to " + p.state),
        Some(["state"]))
    case MediaDevicesChanged =>
      RoomEventDefinition(Fixed(Info), Client, Fixed("Your media devices have changed"), None)
    case ParticipantConnected =>
      RoomEventDefinition(Fixed(Info), Server,
        FromPayload((p: Payload) => Who(p.participant, "A new remote participant") + " has joined the room"),
        Some(["participant"]))
    case ParticipantDisconnected =>
      RoomEventDefinition(Fixed(Info), Server,
        FromPayload((p: Payload) => Who(p.participant, "A remote participant") + " has left the room"),
        Some(["participant"]))
    case TrackPublished =>
      RoomEventDefinition(Fixed(Info), Server,
        FromPayload((p: Payload) => Who(p.participant, "A remote participant") + " has published a " + p.publicationKind
          + " track from " + p.publicationSource + " source"),
        Some(["publication", "participant"]))
    case TrackSubscribed =>
      RoomEventDefinition(Fixed(Info), Server,
        FromPayload((p: Payload) => p.participant.identity + " subscribed to " + p.trackSource + " track"),
        Some(["track", "publication", "participant"]))
    case TrackSubscriptionFailed =>
      RoomEventDefinition(Fixed(Error), Server,
        FromPayload((p: Payload) => "Track subscription from " + p.participant.identity + " failed for " + p.trackSid + ": " + p.reason),
        Some(["trackSid", "participant", "reason"]))
    case TrackUnpublished =>
      RoomEventDefinition(Fixed(Info), Server,
        FromPayload((p: Payload) => p.participant.identity + " unpublished " + p.publicationKind + " track"),
        Some(["publication", "participant"]))
    case TrackUnsubscribed =>
      RoomEventDefinition(Fixed(Info), Client,
        FromPayload((p: Payload) => "Unsubscribed from " + p.trackSource + " track by " + p.participant.identity),
        Some(["track", "publication", "participant"]))
    case TrackMuted =>
      RoomEventDefinition(Fixed(Warn), Client,
        FromPayload((p: Payload) => p.participant.identity + " muted " + p.publicationKind + " track"),
        Some(["publication", "participant"]))
    case TrackUnmuted =>
      RoomEventDefinition(Fixed(Info), Client,
        FromPayload((p: Payload) => p.participant.identity + " unmuted " + p.publicationKind + " track"),
        Some(["publication", "participant"]))
    case LocalTrackPublished =>
      RoomEventDefinition(Fixed(Info), Client,
        FromPayload((p: Payload) => "Published local " + p.publicationKind + " track from " + p.publicationSource),
        Some(["publication", "participant"]))
    case DataReceived =>
      RoomEventDefinition(Fixed(Info), Server,
        FromPayload((p: Payload) => "Received data packet (" + p.packetKind + ", " + p.byteCount + " bytes) from "
          + Interpolate(p.sender) + " on topic " + Interpolate(p.topic)),
        Some(["payload", "participant", "kind", "topic"]))
    case ChatMessage =>
      // the detail view spreads the chat message's own fields and adds the participant
      RoomEventDefinition(Fixed(Info), Client,
        FromPayload((p: Payload) => "Chat: " + p.chatText),
        Some(["...message", "participant"]))
    case ConnectionQualityChanged =>
      RoomEventDefinition(
        FromPayload((p: Payload) => if p.quality == LiveKit.Excellent then Info else Warn),
        Server,
        FromPayload((p: Payload) => p.participant.identity + " connection quality: " + LiveKit.QualityName(p.quality)),
        Some(["quality", "participant"]))
  }

  /** The level the table assigns to an event of type `e` with payload `p`. */
  function LevelOf(e: RoomEvent, p: Payload): (l: Level)
    ensures Definition(e).level.Fixed? ==> l == Definition(e).level.value
    ensures l == Error ==> e == TrackSubscriptionFailed
    ensures l == Warn ==> e == TrackMuted || e == ConnectionQualityChanged
  {
    Resolve(Definition(e).level, p)
  }

  /** The message an event of type `e` with payload `p` is logged with. */
  function MessageOf(e: RoomEvent, p: Payload): (m: string)
    ensures Definition(e).message.Fixed? ==> m == Definition(e).message.value
    ensures |m| > 0
  {
    Resolve(Definition(e).message, p)
  }

  /** A failed track subscription is the only event with the fixed level Error, and no payload gives any other event that level. */
  lemma OnlySubscriptionFailureIsError(e: RoomEvent, p: Payload)
    ensures (Definition(e).level.Fixed? && Definition(e).level.value == Error) <==> e == TrackSubscriptionFailed
    ensures LevelOf(e, p) == Error <==> e == TrackSubscriptionFailed
  {
  }

  /** A muted track is logged as a warning. */
  lemma TrackMutedIsWarn()
    ensures Definition(TrackMuted).level.Fixed? && Definition(TrackMuted).level.value == Warn
  {
  }

  /** A quality change is Info exactly when the new quality is Excellent, and Warn otherwise. */
  lemma QualityChangeLevel(p: Payload)
    ensures Definition(ConnectionQualityChanged).level.FromPayload?
    ensures LevelOf(ConnectionQualityChanged, p) == Info <==> p.quality == LiveKit.Excellent
    ensures LevelOf(ConnectionQualityChanged, p) == Warn <==> p.quality != LiveKit.Excellent
  {
  }

  /** Every event other than the three above has the fixed level Info. */
  lemma OtherEventsAreInfo(e: RoomEvent)
    requires e != TrackSubscriptionFailed && e != TrackMuted && e != ConnectionQualityChanged
    ensures Definition(e).level.Fixed? && Definition(e).level.value == Info
  {
  }

  /** Both kinds of reconnection carry the same fixed message. */
  lemma ReconnectingMessagesAgree(p: Payload, q: Payload)
    ensures Definition(Reconnecting).message.Fixed? && Definition(SignalReconnecting).message.Fixed?
    ensures MessageOf(Reconnecting, p) == MessageOf(SignalReconnecting, q) == "You are reconnecting to the room"
  {
  }

  /** A joining participant is announced as an agent or as a new remote participant, by identity. */
  lemma ParticipantConnectedMessage(p: Payload)
    ensures p.participant.isAgent ==>
      MessageOf(ParticipantConnected, p) == "An agent \"" + p.participant.identity + "\" has joined the room"
    ensures !p.participant.isAgent ==>
      MessageOf(ParticipantConnected, p) == "A new remote participant \"" + p.participant.identity + "\" has joined the room"
    ensures Includes(MessageOf(ParticipantConnected, p), p.participant.identity)
  {
    var intro := if p.participant.isAgent then "An agent" else "A new remote participant";
    var before, after := intro + " \"", "\" has joined the room";
    var m := MessageOf(ParticipantConnected, p);
    assert m == Who(p.participant, "A new remote participant") + " has joined the room";
    assert Who(p.participant, "A new remote participant") == before + p.participant.identity + "\"";
    assert m == before + p.participant.identity + after;
    IncludesMiddle(before, p.participant.identity, after);
  }

  /** The disconnection message names both the close code and the reason. */
  lemma DisconnectedMessageEmbeds(p: Payload)
    ensures Includes(MessageOf(Disconnected, p), p.code)
    ensures Includes(MessageOf(Disconnected, p), p.reason)
  {
    var m := MessageOf(Disconnected, p);
    var head := "You have disconnected from the room with code ";
    assert m == head + p.code + (" because \"" + p.reason + "\"");
    IncludesMiddle(head, p.code, " because \"" + p.reason + "\"");
    assert m == (head + p.code + " because \"") + p.reason + "\"";
    IncludesMiddle(head + p.code + " because \"", p.reason, "\"");
  }

  /** A subscription is reported by the server, an unsubscription by the client. */
  lemma SubscriptionSources()
    ensures Definition(TrackSubscribed).source == Server
    ensures Definition(TrackUnsubscribed).source == Client
  {
  }

  /** The events without a detail view are exactly the five connection and device notices. */
  lemma EventsWithoutDetailView(e: RoomEvent)
    ensures Definition(e).render.None? <==>
      e in {Connected, Reconnecting, SignalReconnecting, Reconnected, MediaDevicesChanged}
  {
  }
}
