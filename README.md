# Agent console event log and decision rules, in Dafny

This project models the logic core of the agent console, a browser console for watching a LiveKit conferencing room.

**The event registry.** `createEventRegistry` turns a table of event definitions into three things:
- a log store that keeps entries newest first, with `appendLog`, `clear` and a case-insensitive `filter`;
- resolvers for an entry's level, message and detail view.

It is modelled as a `LoggerStore` class over a `seq` of entries and a `Registry` datatype that holds the table.

**The pure rules around it:**
- the log panel's display filter and its selected-level count;
- the table of room events with its levels, sources and messages;
- the connect button's label and click behaviour, and when it is disabled;
- how the control bar derives which controls are visible;
- the participant-state hook's defaults and its split of tracks by source;
- the JSON editor's state cells and its height clamp;
- the room state card's colours, metadata parsing and previews;
- the metric badge.

There is one module per source file. Two support modules sit beside them:
- `Js` models the JavaScript built-ins the code relies on: `Array.prototype.filter`, `String.prototype.includes`, `String.prototype.split`, truthiness and `String(value)`.
- `LiveKit` holds the SDK enumerations.

Some host functions are passed in as parameters rather than modelled:
- `toLowerCase`, `JSON.stringify`, `JSON.parse` and number formatting;
- `new Date()` (the timestamp is a parameter);
- `supportsScreenSharing()`.

A lemma that needs a fact about one of them states it as a precondition, for example that lower-casing the empty string gives the empty string.

The model follows the code in three choices:
- A definition without `render` makes `renderEventLog` return `undefined`, which `RenderEventLog` gives as `Ok(None)`.
- An entry's source is the explicit `appendLog` argument or `"system"`. It is never taken from the definition.
- `render` is always a function of the payload.

Two facts about the code are worth knowing:
- The resolvers destructure the definition they look up. For an event type that the table does not hold and that is not an inherited object property, that definition is undefined and the lookup throws. The resolvers return `UndefinedDefinition(eventType)` in that case.
- `filteredLogs` resolves each entry's message while building the search fields, so one unregistered entry makes `getEventMessage` throw and with it the whole filter. `FilteredLogs` reports the first such entry.

## Model

| member | source | states |
|---|---|---|
| EventRegistry.Registry.RenderEventLog | agent-console/lib/event-registry.tsx:68-73 | fails exactly when the event type is not in the table; otherwise it is `render(data)` when the definition has `render` and undefined when it has none |
| EventRegistry.Registry.GetEventLevel | agent-console/lib/event-registry.tsx:75-80 | fails exactly for an unknown event type; otherwise it is the definition's `level`, unchanged and independent of the payload |
| EventRegistry.Registry.GetEventMessage | agent-console/lib/event-registry.tsx:82-87 | fails exactly for an unknown event type; otherwise it is the literal message, or the message function applied to the payload |
| EventRegistry.LoggerStore.constructor | agent-console/lib/event-registry.tsx:42-45 | a new store is empty and accepts exactly the table's event types |
| EventRegistry.LoggerStore.AppendLog | agent-console/lib/event-registry.tsx:46-49 | the new entry (with timestamp `now`, and source `"system"` unless one is given) becomes the first element; the previous list follows unchanged and in order; no event type is checked, so every entry keeps a registered event type exactly when the appended one is registered |
| EventRegistry.LoggerStore.Clear | agent-console/lib/event-registry.tsx:50 | the list is empty whatever it held |
| EventRegistry.LoggerStore.Filter | agent-console/lib/event-registry.tsx:51-58 | the result is an order-preserving subsequence of the stored list; it holds every copy of each entry whose lower-cased event type or serialized payload contains the lower-cased query, and no copy of any other entry |
| EventRegistry.CreateEventRegistry | agent-console/lib/event-registry.tsx:24-95 | builds resolvers over the given table and a fresh, empty store whose accepted event types are the table's keys |
| EventRegistry.FilterKeepsExactlyMatches | agent-console/lib/event-registry.tsx:52-56 | a stored entry is in `filter(query)` if and only if it matches the lower-cased query |
| EventRegistry.FilterEmptyQuery | agent-console/lib/event-registry.tsx:51-58 | `filter("")` returns the whole list, in order |
| EventRegistry.FilterOfEmptyStore | agent-console/lib/event-registry.tsx:50-58 | after `clear`, every query finds nothing |
| EventRegistry.StoredEntriesResolve | agent-console/lib/event-registry.tsx:68-87 | no resolver fails on an entry of a store built from the same table |
| EventRegistry.ResolversIgnoreTimestampAndSource | agent-console/lib/event-registry.tsx:68-87 | the resolvers read only the event type and payload; the level reads only the event type |
| ConsoleContainer.NumSelectedLevels | agent-console/app/_components/console-container.tsx:38-42 | the number of level toggles that are on; between 0 and 3 |
| ConsoleContainer.FirstUnregistered | agent-console/app/_components/console-container.tsx:44-47 | none exactly when every entry's event type is in the table; otherwise the event type of the first entry whose type is not in the table |
| ConsoleContainer.FilteredLogs | agent-console/app/_components/console-container.tsx:44-59 | fails exactly when some entry's type is unregistered, naming the first such entry; otherwise the result is an order-preserving subsequence holding every copy of each entry whose message, level, type or payload contains the query and whose level's toggle is on, and no copy of any other entry |
| ConsoleContainer.AppendedUnregisteredEntryFails | agent-console/app/_components/console-container.tsx:44-74 | after an entry with an unregistered event type is prepended, the panel's filter fails, naming that type, whatever the rest of the list, the query and the toggles |
| ConsoleContainer.NoLevelSelectedShowsNothing | agent-console/app/_components/console-container.tsx:53-57 | with all three toggles off nothing is listed |
| ConsoleContainer.EmptyQueryAllLevelsShowsAll | agent-console/app/_components/console-container.tsx:44-59 | with an empty query and all toggles on every entry is listed, in order |
| ConsoleContainer.StoreMatchIsQueryMatch | agent-console/app/_components/console-container.tsx:45-52 | an entry the store's `filter` keeps also passes the panel's query test |
| EventDefinitions.Definition | agent-console/lib/event-definitions.tsx:7-147 | the `roomEventRegistry` table: only `connectionQualityChanged` has a payload-dependent level; the server reports exactly the participant, publication, subscription, unpublication, data and quality events; no entry has the system source |
| EventDefinitions.LevelOf | agent-console/lib/event-definitions.tsx:7-147 | a fixed level is returned whatever the payload; the table assigns Error only to `trackSubscriptionFailed`, and Warn only to `trackMuted` and `connectionQualityChanged` |
| EventDefinitions.MessageOf | agent-console/lib/event-definitions.tsx:7-147 | a fixed message is returned whatever the payload; no message is empty, whatever the payload |
| EventDefinitions.OnlySubscriptionFailureIsError | agent-console/lib/event-definitions.tsx:81-83 | `trackSubscriptionFailed` is the only event with the fixed level Error, and no payload gives any other event level Error |
| EventDefinitions.TrackMutedIsWarn | agent-console/lib/event-definitions.tsx:103-104 | `trackMuted` has the fixed level Warn |
| EventDefinitions.QualityChangeLevel | agent-console/lib/event-definitions.tsx:140-142 | `connectionQualityChanged` has a payload-dependent level: Info exactly when the quality is Excellent, Warn otherwise |
| EventDefinitions.OtherEventsAreInfo | agent-console/lib/event-definitions.tsx:7-147 | every other event has the fixed level Info |
| EventDefinitions.ReconnectingMessagesAgree | agent-console/lib/event-definitions.tsx:13-22 | `reconnecting` and `signalReconnecting` both carry the fixed message "You are reconnecting to the room" |
| EventDefinitions.ParticipantConnectedMessage | agent-console/lib/event-definitions.tsx:46-52 | the agent wording for an agent, the new-remote-participant wording otherwise; both contain the identity |
| EventDefinitions.DisconnectedMessageEmbeds | agent-console/lib/event-definitions.tsx:28-32 | the disconnection message contains both the code and the reason |
| EventDefinitions.SubscriptionSources | agent-console/lib/event-definitions.tsx:73-97 | `trackSubscribed` comes from the server and `trackUnsubscribed` from the client |
| EventDefinitions.EventsWithoutDetailView | agent-console/lib/event-definitions.tsx:7-147 | exactly connected, reconnecting, signalReconnecting, reconnected and mediaDevicesChanged have no `render` |
| ConnectionButton.IsReconnecting | agent-console/app/_components/connection-button.tsx:15 | membership in `reconnectingStates` holds exactly for connecting, reconnecting and signalReconnecting |
| ConnectionButton.GetButtonContent | agent-console/app/_components/connection-button.tsx:28-61 | the label is "Disconnect" exactly when connected, "Connecting..." exactly in the three reconnecting states, and "Connect" exactly otherwise |
| ConnectionButton.HandleClick | agent-console/app/_components/connection-button.tsx:63-71 | a click does nothing exactly in the reconnecting states, disconnects exactly when connected, and connects exactly when disconnected |
| ConnectionButton.LabelAnnouncesClick | agent-console/app/_components/connection-button.tsx:28-71 | the label names what a click does: "Disconnect" disconnects, "Connect" connects, "Connecting..." does nothing |
| ConnectionButton.ClickWhenEnabled | agent-console/app/_components/connection-button.tsx:63-77 | the button is disabled exactly when a click does nothing; an enabled click calls exactly one of connect and disconnect |
| ControlBar.VisibleControlsOf | agent-console/app/_components/control-bar.tsx:28-43 | `leave` defaults to true; without permissions camera, chat, microphone and screen share are false; with permissions an unspecified camera, microphone or screen share takes `canPublish`; an unspecified chat is never truthy |
| ControlBar.ComputeVisibleControls | agent-console/app/_components/control-bar.tsx:28-43 | the step-by-step construction with spread and `??=` yields the visibility rule |
| ControlBar.ExplicitChoicesKept | agent-console/app/_components/control-bar.tsx:39-42 | with permissions, a control the caller specified keeps the caller's value |
| ControlBar.UnspecifiedChatHidden | agent-console/app/_components/control-bar.tsx:42 | an unspecified chat control is never truthy, whatever `canPublishData` is |
| ControlBar.LeaveDefaultsToShown | agent-console/app/_components/control-bar.tsx:28 | `leave` is true unless the caller set it |
| ControlBar.RenderedControls | agent-console/app/_components/control-bar.tsx:58-90 | the microphone and camera are rendered exactly when visible; screen share exactly when visible and the browser supports it |
| ControlBar.NoPermissionsRendersNothing | agent-console/app/_components/control-bar.tsx:33-37 | without permissions no media control is rendered, whatever `controls` asks for |
| ControlBar.DefaultsFollowPublishPermission | agent-console/app/_components/control-bar.tsx:39-41 | with `controls` omitted, the microphone and camera are rendered exactly when the participant may publish; screen share needs browser support as well |
| LivekitState.TracksFrom | agent-console/hooks/use-livekit/use-livekit-state.tsx:85-91 | every track in a per-source list is one of the participant's tracks and has that list's source |
| LivekitState.ParticipantStateOf | agent-console/hooks/use-livekit/use-livekit-state.tsx:40-143 | for an undefined participant: not local, every flag false, audio level 0, sid empty, no timestamps; for a participant: its own local flag, audio level, sid and timestamps, with the enabled flags normalised by `\|\| false`; quality defaults to Unknown; the track lists are the five per-source filters of the track list; the last errors are present only for a local participant and then are the participant's |
| LivekitState.TrackListsKeepOrder | agent-console/hooks/use-livekit/use-livekit-state.tsx:85-91 | each per-source list keeps the order of the track list |
| LivekitState.TrackListsDisjoint | agent-console/hooks/use-livekit/use-livekit-state.tsx:85-91 | lists of different sources share no track |
| LivekitState.TrackListsCoverAll | agent-console/hooks/use-livekit/use-livekit-state.tsx:74-91 | the five lists together hold every track exactly once |
| LivekitState.FindLocal | agent-console/hooks/use-livekit/use-livekit-state.tsx:149 | none exactly when no participant is local; otherwise the first local participant |
| LivekitState.LocalParticipantState | agent-console/hooks/use-livekit/use-livekit-state.tsx:146-155 | with no local participant: not local, every enabled flag false, audio level 0, sid empty, no timestamps and no errors; with one, the state is local |
| JsonEditor.LineCount | agent-console/components/json-editor.tsx:46-49 | at least 1; equal to the number of newline-separated pieces and to the number of line breaks plus one |
| JsonEditor.EditorHeight | agent-console/components/json-editor.tsx:51 | always within [50, 300]; `lineCount*19+30` when that lies within the bounds, otherwise the nearer bound |
| JsonEditor.EditorHeightMonotone | agent-console/components/json-editor.tsx:51 | the height never decreases as lines are added |
| JsonEditor.EditorHeightBounds | agent-console/components/json-editor.tsx:51 | one line gives 50, 14 lines give 296, and 15 or more lines give 300 |
| JsonEditor.EditorHeightOfText | agent-console/components/json-editor.tsx:46-51 | text without a line break gets height 50; text with 14 or more line breaks gets 300 |
| JsonEditor.JsonEditor.constructor | agent-console/components/json-editor.tsx:25-30 | the value defaults to "{}"; the line count starts at 1 and the text starts valid |
| JsonEditor.JsonEditor.SyncLineCount | agent-console/components/json-editor.tsx:46-49 | after the effect, `lineCount` is the line count of the current text |
| JsonEditor.JsonEditor.OnChange | agent-console/components/json-editor.tsx:75-77 | an undefined change is stored as the empty string; any other value is stored as given |
| JsonEditor.JsonEditor.HandleValidate | agent-console/components/json-editor.tsx:53-55 | the text is valid exactly when the validator reports no markers |
| MetricBadge.DisplayValue | agent-console/components/metric-badge.tsx:10-14 | "N/A" for undefined or null; "Yes"/"No" for booleans; `String(value)` for everything else |
| MetricBadge.FalsyNumbersAndStringsShown | agent-console/components/metric-badge.tsx:13 | 0 and the empty string are shown as themselves, not as "N/A" |
| MetricBadge.UnitShown | agent-console/components/metric-badge.tsx:21 | the unit is rendered exactly when it is a non-empty string |
| RoomStateViewer.ConnectionStateColor | agent-console/app/_components/room-state-viewer.tsx:9-20 | green exactly when connected, yellow exactly when connecting, red exactly when disconnected, gray exactly in the two reconnecting states |
| RoomStateViewer.StatusColorMatchesButton | agent-console/app/_components/room-state-viewer.tsx:9-20 | the status badge is green exactly when the connect button offers "Disconnect", red exactly when it offers "Connect", and yellow or gray exactly when it reads "Connecting..." |
| RoomStateViewer.SafeParseJson | agent-console/app/_components/room-state-viewer.tsx:95-101 | never fails: null for undefined or empty input; `{error: "Invalid JSON format", rawData}` for text that does not parse; the parsed value otherwise |
| RoomStateViewer.JsonPreview | agent-console/app/_components/room-state-viewer.tsx:113-124 | shows "No " and the lower-cased title exactly when the data is falsy; otherwise it pretty-prints the data |
| RoomStateViewer.MetadataPreview | agent-console/app/_components/room-state-viewer.tsx:95-124 | missing or empty metadata shows the "No room metadata" placeholder; metadata that does not parse shows the pretty-printed error object `{error: "Invalid JSON format", rawData}` |
| RoomStateViewer.ServerDetails | agent-console/app/_components/room-state-viewer.tsx:27-32 | every field is undefined without server info; otherwise every field is the server's |
| RoomStateViewer.BadgeText | agent-console/app/_components/room-state-viewer.tsx:126-131 | this card's badge text agrees with the standalone metric badge's on every value |
| RoomStateViewer.NoServerInfoBadges | agent-console/app/_components/room-state-viewer.tsx:82-88 | without server info all four server badges read "N/A" |

## Left out

- The React, zustand and SDK hooks are not modelled: reactivity, subscriptions, effects scheduling and re-rendering. What the hooks return is an input. That covers the connection state, the participant list, the connection quality and the participant's tracks.
- `toLowerCase`, `JSON.stringify`, `JSON.parse`, number formatting and `supportsScreenSharing()` are parameters, and `new Date()` is the `now` parameter. Unicode case mapping and JSON syntax are not modelled.
- EventRegistry.Registry.RenderEventLog, EventRegistry.Registry.GetEventLevel, EventRegistry.Registry.GetEventMessage: an event type that names an inherited object property, such as `constructor`, is reported as `UndefinedDefinition`. In the source `config[eventType]` finds the inherited value there, and all three resolvers return `undefined` without throwing. The model's table is a map with no prototype. `FilteredLogs` is not affected, because lower-casing the undefined message throws in the source as well.
- EventRegistry.LoggerStore.Filter: `JSON.stringify` is a total parameter. A payload it cannot serialize, such as one with a cycle or a BigInt, makes `filter` throw in the source when the event type does not match. The model does not have that error path. The same holds for `ConsoleContainer.FilteredLogs`, which serializes every entry's payload.
- EventRegistry.Definition: the registry table's `level` is a plain value, as the registry types it. The event table's payload-dependent level lives in `EventDefinitions`, and the two tables are not joined. The event table imports `defineEvent` and `renderJson` from the registry file, which does not export them.
- EventDefinitions: each payload field a message interpolates is held as the text a template string prints for it. That covers the publication's kind and source, the track source, the packet kind and the byte count. The SDK objects behind them are not modelled.
- The detail views are not modelled. The event table records the names of the payload fields each `render` serializes, and the registry's `render` result is an opaque value.
- ConnectionButton.GetButtonContent: the `default` branch is unreachable with the SDK's five connection states, so it is not modelled.
- ControlBar: the component's `leave` and `chat` visibility is computed but not rendered, so `RenderedControls` covers only the three media controls. The `MediaDeviceControl` toggles, device selection and saving of user choices are not modelled. An omitted `controls` prop is modelled as a record with every property absent.
- LivekitState: the hook also returns values that only pass through another SDK hook: speaking, permissions, identity, name, metadata, attributes and the muted flags. These are not modelled. Neither is the room-state hook, which only forwards the room's fields.
- LivekitState.TrackListsCoverAll: holds because the track hook is asked for exactly the five sources. Track sources outside those five do not exist in the model.
- JsonEditor: the Monaco editor's theme and diagnostics set-up are not modelled. The component never calls its own `onChange` prop, and the model follows it there.
- RoomStateViewer: the room-name badge, the edition badge and the connection-configuration preview only display values, so they are not modelled.
- The rest of the console is not modelled:
  - the API routes, because they are network calls to the LiveKit server SDK;
  - the connect and disconnect actions, because they are asynchronous fetches;
  - the presentational components, because they hold no decision logic;
  - the Python package, which holds only stubs.
