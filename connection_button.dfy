/**
 * The connect/disconnect button: its label, whether it is disabled, and what
 * a click does, each decided by the room's connection state.
 */
module ConnectionButton {
  import opened LiveKit

  /** `reconnectingStates`: the states in which a connection attempt is under way. */
  const ReconnectingStates: seq<ConnectionState> := [Connecting, Reconnecting, SignalReconnecting]

  /**
   * `reconnectingStates.includes(connectionState)`: the click guard, and the
   * button's `disabled` property.
   */
  function IsReconnecting(state: ConnectionState): (r: bool)
    ensures r <==> state == Connecting || state == Reconnecting || state == SignalReconnecting
  {
    state in ReconnectingStates
  }

  datatype Icon = CircleCheck | SignalHigh

  /** What `getButtonContent` renders: an icon with its classes and a label. */
  datatype ButtonContent = ButtonContent(icon: Icon, iconClass: string, text: string)

  /** The callback a click invokes, if any. */
  datatype ClickAction = DoNothing | CallConnect | CallDisconnect

  /** `getButtonContent()` */
  function GetButtonContent(state: ConnectionState): (c: ButtonContent)
    ensures c.text == "Disconnect" <==> state == Connected
    ensures c.text == "Connecting..." <==> IsReconnecting(state)
    ensures c.text == "Connect" <==> state != Connected && !IsReconnecting(state)
  {
    match state
    case Connected => ButtonContent(CircleCheck, "w-4 h-4 text-green-500", "Disconnect")
    case Connecting => ButtonContent(SignalHigh, "w-4 h-4 animate-pulse text-yellow-500", "Connecting...")
    case Reconnecting => ButtonContent(SignalHigh, "w-4 h-4 animate-pulse text-yellow-500", "Connecting...")
    case SignalReconnecting => ButtonContent(SignalHigh, "w-4 h-4 animate-pulse text-yellow-500", "Connecting...")
    case Disconnected => ButtonContent(SignalHigh, "w-4 h-4 text-gray-500", "Connect")
  }

  /** `handleConnectionButtonClick`: ignored while connecting, disconnects when connected, connects otherwise. */
  function HandleClick(state: ConnectionState): (a: ClickAction)
    ensures a == DoNothing <==> IsReconnecting(state)
    ensures a == CallDisconnect <==> state == Connected
    ensures a == CallConnect <==> state == Disconnected
  {
    if IsReconnecting(state) then DoNothing
    else if state == Connected then CallDisconnect
    else CallConnect
  }


  /** The label announces what a click will do: "Disconnect" disconnects, "Connect" connects, "Connecting..." does nothing. */
  lemma LabelAnnouncesClick(state: ConnectionState)
    ensures GetButtonContent(state).text == "Disconnect" <==> HandleClick(state) == CallDisconnect
    ensures GetButtonContent(state).text == "Connect" <==> HandleClick(state) == CallConnect
    ensures GetButtonContent(state).text == "Connecting..." <==> HandleClick(state) == DoNothing
  {
  }

  /** A click on an enabled button always calls exactly one of connect and disconnect; a disabled one calls neither. */
  lemma ClickWhenEnabled(state: ConnectionState)
    ensures IsReconnecting(state) <==> HandleClick(state) == DoNothing
    ensures !IsReconnecting(state) ==> (HandleClick(state) == CallConnect) != (HandleClick(state) == CallDisconnect)
  {
  }
}
