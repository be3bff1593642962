/**
 * The enumerations of the LiveKit client SDK that the console's logic
 * switches on. Values only; the SDK's behaviour is not modelled.
 */
module LiveKit {

  /** `ConnectionState` of the room. */
  datatype ConnectionState = Disconnected | Connecting | Connected | Reconnecting | SignalReconnecting

  /** `ConnectionQuality` of a participant. */
  datatype ConnectionQuality = Excellent | Good | Poor | Lost | Unknown

  /** The string value of each `ConnectionQuality` member, as a template string prints it. */
  function QualityName(q: ConnectionQuality): string {
    match q
    case Excellent => "excellent"
    case Good => "good"
    case Poor => "poor"
    case Lost => "lost"
    case Unknown => "unknown"
  }

  /** `Track.Source`: where a track comes from. */
  datatype TrackSource = Camera | Microphone | ScreenShare | ScreenShareAudio | UnknownSource
}
