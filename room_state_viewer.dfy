/**
 * The room state card: the colour of the connection-state badge, the
 * parsing of the room metadata, the server details and their badges, and
 * the JSON previews with their empty state.
 */
module RoomStateViewer {
  import opened Js
  import LiveKit
  import MetricBadge
  import ConnectionButton

  const GreenBadge := "bg-green-500/15 text-green-700 dark:text-green-400"
  const YellowBadge := "bg-yellow-500/15 text-yellow-700 dark:text-yellow-400"
  const RedBadge := "bg-red-500/15 text-red-700 dark:text-red-400"
  const GrayBadge := "bg-gray-500/15 text-gray-700 dark:text-gray-400"

  /** `getConnectionStateColor`: green when connected, yellow while connecting, red when disconnected, gray otherwise. */
  function ConnectionStateColor(state: LiveKit.ConnectionState): (c: string)
    ensures c == GreenBadge <==> state == LiveKit.Connected
    ensures c == YellowBadge <==> state == LiveKit.Connecting
    ensures c == RedBadge <==> state == LiveKit.Disconnected
    ensures c == GrayBadge <==> state == LiveKit.Reconnecting || state == LiveKit.SignalReconnecting
  {
    match state
    case Connected => GreenBadge
    case Connecting => YellowBadge
    case Disconnected => RedBadge
    case _ => GrayBadge
  }

  /**
   * The status badge and the connect button agree: the badge is green exactly
   * when the button offers "Disconnect", red exactly when it offers "Connect",
   * and yellow or gray while the button reads "Connecting...".
   */
  lemma StatusColorMatchesButton(state: LiveKit.ConnectionState)
    ensures ConnectionStateColor(state) == GreenBadge <==> ConnectionButton.GetButtonContent(state).text == "Disconnect"
    ensures ConnectionStateColor(state) == RedBadge <==> ConnectionButton.GetButtonContent(state).text == "Connect"
    ensures ConnectionStateColor(state) in {YellowBadge, GrayBadge} <==> ConnectionButton.GetButtonContent(state).text == "Connecting..."
  {
  }

  /** The object `safeParseJSON` returns for text that does not parse. */
  function InvalidJson(data: string): JsValue {
    Object([("error", Str("Invalid JSON format")), ("rawData", Str(data))])
  }

  /**
   * `safeParseJSON(data)`: null for undefined or empty input, the parsed
   * value, or the error object when `JSON.parse` (the parameter `parse`,
   * `None` when it throws) rejects the text. It never throws.
   */
  function SafeParseJson(data: Option<string>, parse: string -> Option<JsValue>): (r: JsValue)
    ensures data.None? || data.value == "" ==> r == Null
    ensures data.Some? && data.value != "" && parse(data.value).None? ==> r == InvalidJson(data.value)
    ensures data.Some? && data.value != "" && parse(data.value).Some? ==> r == parse(data.value).value
  {
    if data.None? || data.value == "" then Null
    else
      match parse(data.value)
      case Some(v) => v
      case None => InvalidJson(data.value)
  }

  /** What `JsonPreview` shows: the pretty-printed JSON, or a placeholder. */
  datatype Preview = Pretty(json: string) | Placeholder(text: string)

  /**
   * `JsonPreview`: falsy data shows "No " and the lower-cased title; other
   * data is pretty-printed. `lower` is `toLowerCase`, `stringify` is
   * `JSON.stringify(data, null, 2)`.
   */
  function JsonPreview(title: string, data: JsValue, lower: string -> string, stringify: JsValue -> string): (p: Preview)
    ensures p.Placeholder? <==> !Truthy(data)
    ensures p.Placeholder? ==> p.text == "No " + lower(title)
    ensures p.Pretty? ==> p.json == stringify(data)
  {
    if Truthy(data) then Pretty(stringify(data)) else Placeholder("No " + lower(title))
  }

  /** Missing or empty room metadata shows the "No room metadata" placeholder; metadata that fails to parse is shown as the error object. */
  lemma MetadataPreview(metadata: Option<string>, parse: string -> Option<JsValue>, lower: string -> string, stringify: JsValue -> string)
    ensures metadata.None? || metadata.value == "" ==>
      JsonPreview("Room Metadata", SafeParseJson(metadata, parse), lower, stringify) == Placeholder("No " + lower("Room Metadata"))
    ensures metadata.Some? && metadata.value != "" && parse(metadata.value).None? ==>
      JsonPreview("Room Metadata", SafeParseJson(metadata, parse), lower, stringify) == Pretty(stringify(InvalidJson(metadata.value)))
  {
  }

  /** The fields of the server's `serverInfo` that the card shows. */
  datatype ServerInfo = ServerInfo(protocol: JsValue, region: JsValue, nodeId: JsValue, version: JsValue)

  /** `serverDetails`: each field is `serverInfo?.field`, undefined without server info. */
  function ServerDetails(serverInfo: Option<ServerInfo>): (d: ServerInfo)
    ensures serverInfo.None? ==> d.protocol == d.region == d.nodeId == d.version == Undefined
    ensures serverInfo.Some? ==> d == serverInfo.value
  {
    match serverInfo
    case None => ServerInfo(Undefined, Undefined, Undefined, Undefined)
    case Some(info) => info
  }

  /** This card's own `MetricBadge` text; it agrees with the standalone metric badge's. */
  function BadgeText(value: JsValue, numberToString: real -> string): (s: string)
    ensures s == MetricBadge.DisplayValue(value, numberToString)
  {
    if value == Undefined || value == Null then "N/A"
    else if value.Bool? then (if value.b then "Yes" else "No")
    else ToJsString(value, numberToString)
  }

  /** Without server info every server badge reads "N/A". */
  lemma NoServerInfoBadges(numberToString: real -> string)
    ensures var d := ServerDetails(None);
      && BadgeText(d.protocol, numberToString) == "N/A"
      && BadgeText(d.region, numberToString) == "N/A"
      && BadgeText(d.nodeId, numberToString) == "N/A"
      && BadgeText(d.version, numberToString) == "N/A"
  {
  }
}
