# OdinWebSDKBridge, modelled in Dafny

`OdinWebSDKBridge` is the Unity MonoBehaviour of the Odin WebGL sample that
connects a scene to the Odin web SDK running as JavaScript in the browser. When
the user presses the connect button, it registers five callbacks with the SDK
(Connected, ConnectionStateChanged, PeerJoined, PeerLeft, MediaActivity), all
aimed at the bridge's own game object. It then asks the SDK to join the room. The SDK
calls those handlers back. The bridge keeps a table from peer id to "is sending
audio", shows that table as text, and uses the button to show the connection
phase. The button's `interactable` flag, its label and its single `onClick`
listener are the only record of that phase.

The project has six modules:

- `Wrappers` (wrappers.dfy): `Option`.
- `Text` (text.dfy): how C# writes an `int` and a `bool` into an interpolated
  string, and the text a `StringBuilder` holds after `AppendLine` calls. A
  parser sits beside each formatter, and each round trip is proved.
- `PeerTable` (peer_table.dfy): the `Dictionary<int, bool>` as a map value, the
  three updates the handlers apply to it, and the display text for it.
- `Commands` (commands.dfy): the calls the bridge makes into the SDK (the three
  `extern` functions), recorded as a trace. It also defines the shape every
  trace has.
- `Session` (session.dfy): the bridge's observable state as a value
  (`Snapshot`), every handler as an `Event`, and `Step`, the effect of one
  handler call. The decoded `MediaActivityData` struct of lines 175-179
  is the datatype of the same name. `Run` applies a sequence of calls. `PhaseOf` reads the
  connection phase (Idle, Connecting, Connected, Failed) off the button. The
  lemmas cover any sequence of handler calls, in any order.
- `Bridge` (bridge.dfy): the class `OdinWebSDKBridge`. Its fields are the ones
  the C# class changes in place. Each handler is a method that changes them step
  by step, as the C# does. Each method is proved to leave the state
  `Step(old state, its event)`. The table handlers are also proved to leave a
  display that lists the table. The object invariant `Valid()` says four
  things: the button is coherent, the command trace is well formed, the
  string builder is empty between handler calls, and the display lists the
  table (`DisplayShowsTable`).

Two behaviours of the code matter here:

- A MediaActivity report for a peer that is not in the table adds that peer,
  because the C# indexer assignment at line 171 is an upsert
  (`RecordActivity`, `LastEventWins`).
- Every StartOdin sends all five registrations again, with nothing
  de-duplicated. `RetriesReRegister` proves that each event type is registered
  exactly once per connection attempt, so after n attempts it has been
  registered n times.

A third behaviour follows from the code and is proved in
`RetryLabelAfterSuccessDisconnects`. Suppose a failing "Connected" report
arrives while the bridge is connected. The button then reads "Try to
Reconnect", but its listener is still Disconnect.

## Model

| member | source | states |
|---|---|---|
| `PeerTable.Join` | OdinWebGLProject/Assets/Scripts/OdinWebSDKBridge.cs:151-155 | after a join the peer is present and not sending, even if it was sending before; every other key and value is unchanged |
| `PeerTable.Leave` | OdinWebGLProject/Assets/Scripts/OdinWebSDKBridge.cs:157-161 | after a leave the peer is absent and every other entry is unchanged; removing an absent peer leaves the table identical |
| `PeerTable.RecordActivity` | OdinWebGLProject/Assets/Scripts/OdinWebSDKBridge.cs:168-173 | after an activity report the peer is present with the reported flag, and is added if it was absent; every other entry is unchanged |
| `Bridge.OdinWebSDKBridge.OnPeerJoined` | OdinWebGLProject/Assets/Scripts/OdinWebSDKBridge.cs:151-155 | the new state is `Step` of the old one for the join (the table updated by `Join`, nothing else changed); the display lists the new table; the builder is empty again |
| `Bridge.OdinWebSDKBridge.OnPeerLeft` | OdinWebGLProject/Assets/Scripts/OdinWebSDKBridge.cs:157-161 | the new state is `Step` of the old one for the leave (`Leave`); the display lists the new table |
| `Bridge.OdinWebSDKBridge.OnMediaActivity` | OdinWebGLProject/Assets/Scripts/OdinWebSDKBridge.cs:168-173 | the new state is `Step` of the old one for the decoded report (`RecordActivity`); the display lists the new table |
| `Bridge.OdinWebSDKBridge.StartOdin` | OdinWebGLProject/Assets/Scripts/OdinWebSDKBridge.cs:60-74 | the trace grows by the five registrations followed by one StartOdin(roomId, userId); the button is disabled and reads "Connecting..."; the table, listener and display are unchanged; the invariant is kept |
| `Bridge.OdinWebSDKBridge.AddCallback` | OdinWebGLProject/Assets/Scripts/OdinWebSDKBridge.cs:81-84 | the trace grows by one registration whose callback object is this game object's name |
| `Bridge.OdinWebSDKBridge.SendAddCallback` | OdinWebGLProject/Assets/Scripts/OdinWebSDKBridge.cs:49-50 | the extern registration call appends exactly that registration to the trace |
| `Bridge.OdinWebSDKBridge.SendStartOdin` | OdinWebGLProject/Assets/Scripts/OdinWebSDKBridge.cs:32-33 | the extern connect call appends exactly that command to the trace |
| `Bridge.OdinWebSDKBridge.SendDisconnectOdin` | OdinWebGLProject/Assets/Scripts/OdinWebSDKBridge.cs:38-39 | the extern disconnect call appends exactly one DisconnectOdin to the trace |
| `Bridge.OdinWebSDKBridge.OnDestroy` | OdinWebGLProject/Assets/Scripts/OdinWebSDKBridge.cs:86-89 | teardown appends one DisconnectOdin whatever the state, and changes nothing else |
| `Bridge.OdinWebSDKBridge.Disconnect` | OdinWebGLProject/Assets/Scripts/OdinWebSDKBridge.cs:94-107 | appends one DisconnectOdin; the button is interactable, reads "Reconnect" and has StartOdin as its only listener; the table is empty and the display lists it (no lines) |
| `Bridge.OdinWebSDKBridge.UpdatePeerListDisplay` | OdinWebGLProject/Assets/Scripts/OdinWebSDKBridge.cs:110-119 | the loop visits every key exactly once, in some order; the display is the old builder content followed by one line per visited entry; the builder is empty afterwards |
| `Bridge.OdinWebSDKBridge.OnConnected` | OdinWebGLProject/Assets/Scripts/OdinWebSDKBridge.cs:122-144 | the new state is `Step` of the old one for the report; the invariant is kept; the display is unchanged |
| `Bridge.OdinWebSDKBridge.OnConnectionStateChanged` | OdinWebGLProject/Assets/Scripts/OdinWebSDKBridge.cs:146-149 | the new state is `Step` of the old one: only the status text changes |
| `Bridge.OdinWebSDKBridge.constructor` | OdinWebGLProject/Assets/Scripts/OdinWebSDKBridge.cs:52-55 | after the field initialisers and `Start()`: the table and trace are empty, the builder is empty, StartOdin is the button's only listener, and the invariant holds |
| `Commands.ConnectAttempt` | OdinWebGLProject/Assets/Scripts/OdinWebSDKBridge.cs:62-67 | no contract: defines one connection attempt as the five registrations followed by StartOdin("WebGLTest", "Test User") |
| `Commands.Registrations` | OdinWebGLProject/Assets/Scripts/OdinWebSDKBridge.cs:62-66 | five registrations, one per event type, in the order Connected, ConnectionStateChanged, PeerJoined, PeerLeft, MediaActivity; each is aimed at the bridge's game object and at the handler named "On" + event type |
| `Commands.ConnectAttemptCounts` | OdinWebGLProject/Assets/Scripts/OdinWebSDKBridge.cs:62-67 | one StartOdin sends each event type's registration exactly once and the connect command exactly once |
| `Commands.RegistrationsMatchConnects` | OdinWebGLProject/Assets/Scripts/OdinWebSDKBridge.cs:60-67 | in every well-formed trace, each event type is registered as many times as a connection was attempted: nothing is de-duplicated |
| `Commands.RegisteredBeforeConnect` | OdinWebGLProject/Assets/Scripts/OdinWebSDKBridge.cs:60-67 | in every well-formed trace, each connect command uses the configured room and user, and comes straight after the five registrations |
| `Commands.WellFormedAppend` | OdinWebGLProject/Assets/Scripts/OdinWebSDKBridge.cs:60-107 | joining two well-formed traces gives a well-formed trace |
| `Session.Initial` | OdinWebGLProject/Assets/Scripts/OdinWebSDKBridge.cs:23-25 | no contract: defines the state after the field initialisers and `Start()` (lines 52-55): empty table and trace, empty texts, an interactable button reading "Connect" whose only listener is StartOdin |
| `Session.Step` | OdinWebGLProject/Assets/Scripts/OdinWebSDKBridge.cs:60-173 | no contract: defines the effect of one handler call. `ClickStartOdin` is `StartOdin` (60-74), `ClickDisconnect` is `Disconnect` (94-107), `Destroy` is `OnDestroy` (86-89), `ConnectedReport` is `OnConnected` (122-144), `StateChanged` is `OnConnectionStateChanged` (146-149), `PeerJoined` is `OnPeerJoined` (151-155), `PeerLeft` is `OnPeerLeft` (157-161), and `MediaActivity` is `OnMediaActivity` after JSON decoding (168-173) |
| `Session.InitialCoherent` | OdinWebGLProject/Assets/Scripts/OdinWebSDKBridge.cs:52-55 | the state after `Start()` is coherent and in the Idle phase |
| `Session.StepPhase` | OdinWebGLProject/Assets/Scripts/OdinWebSDKBridge.cs:60-144 | StartOdin leads to Connecting; "Connected" with "true" leads to Connected; any other payload leads to Failed; Disconnect leads to Idle; every other handler keeps the phase |
| `Session.ConnectedExactlyOnTrue` | OdinWebGLProject/Assets/Scripts/OdinWebSDKBridge.cs:122-144 | the success branch is taken if and only if the payload is exactly "true"; every other payload fails closed |
| `Session.StepKeepsCoherent` | OdinWebGLProject/Assets/Scripts/OdinWebSDKBridge.cs:60-173 | every handler keeps the button coherent: one listener; disabled exactly while it reads "Connecting..."; "Disconnect" always disconnects; "Connect" and "Reconnect" always connect |
| `Session.RunKeepsCoherent` | OdinWebGLProject/Assets/Scripts/OdinWebSDKBridge.cs:60-173 | any sequence of handler calls, in any order, keeps the button coherent |
| `Session.RetryLabelAfterSuccessDisconnects` | OdinWebGLProject/Assets/Scripts/OdinWebSDKBridge.cs:136-143 | a failure report while connected gives the Failed phase, but the listener stays Disconnect |
| `Session.OnConnectedIdempotent` | OdinWebGLProject/Assets/Scripts/OdinWebSDKBridge.cs:122-144 | applying the same connection report twice gives the same state as applying it once |
| `Session.DisconnectIdempotent` | OdinWebGLProject/Assets/Scripts/OdinWebSDKBridge.cs:94-107 | a second Disconnect leaves the table, button and status as the first left them, and only appends another DisconnectOdin |
| `Session.StatusOnlyChangesStatus` | OdinWebGLProject/Assets/Scripts/OdinWebSDKBridge.cs:146-149 | a status event sets the status text to "Connection State: " + the new state, and changes nothing else: not the table, the button or the trace |
| `Session.DestroyOnlyDisconnects` | OdinWebGLProject/Assets/Scripts/OdinWebSDKBridge.cs:86-89 | teardown appends DisconnectOdin in any state, and changes nothing else |
| `Session.PeerEventsOnlyChangeTable` | OdinWebGLProject/Assets/Scripts/OdinWebSDKBridge.cs:151-173 | no field of the snapshot changes except the table; the peer-list display is redrawn by the Bridge methods (`DisplayShowsTable`) |
| `Session.StepSends` | OdinWebGLProject/Assets/Scripts/OdinWebSDKBridge.cs:60-107 | a handler only appends to the trace: a connect attempt for StartOdin, one DisconnectOdin for Disconnect and teardown, and nothing for the SDK events |
| `Session.StepTrace` | OdinWebGLProject/Assets/Scripts/OdinWebSDKBridge.cs:60-107 | one handler call keeps the trace well formed, and adds one connect command and one registration per event type exactly when it is StartOdin |
| `Session.RunTrace` | OdinWebGLProject/Assets/Scripts/OdinWebSDKBridge.cs:60-107 | over any call sequence the trace stays well formed, and connects and registrations per event type each grow by the number of StartOdin calls |
| `Session.RetriesReRegister` | OdinWebGLProject/Assets/Scripts/OdinWebSDKBridge.cs:60-67 | from the start, each event type has been registered exactly once per StartOdin call, and there is one connect command per StartOdin call |
| `Session.StepEntry` | OdinWebGLProject/Assets/Scripts/OdinWebSDKBridge.cs:94-173 | one event sets the entry of a peer it touches (join: not sending; activity: the flag; leave or disconnect: absent) and keeps the entry of every other peer |
| `Session.UntouchedEntryKept` | OdinWebGLProject/Assets/Scripts/OdinWebSDKBridge.cs:151-173 | over any call sequence, a peer that no event touches keeps its entry |
| `Session.LastEventWins` | OdinWebGLProject/Assets/Scripts/OdinWebSDKBridge.cs:151-173 | after any call sequence, the last event touching a peer decides its entry: present and not sending after a join, present with the flag after an activity report (joined or not), absent after a leave or disconnect |
| `Session.RunAppend` | OdinWebGLProject/Assets/Scripts/OdinWebSDKBridge.cs:151-173 | running two call sequences one after the other is the same as running their concatenation |
| `Session.PeerScenario` | OdinWebGLProject/Assets/Scripts/OdinWebSDKBridge.cs:60-173 | connect and succeed, then peer 7 joins ({7: false}), starts sending ({7: true}) and leaves ({}); after Disconnect the phase is Idle and the table is empty |
| `Session.RetryScenario` | OdinWebGLProject/Assets/Scripts/OdinWebSDKBridge.cs:60-144 | after a failed attempt the phase is Failed; a retry goes to Connecting, and the trace holds two complete connect attempts |
| `PeerTable.PeerLine` | OdinWebGLProject/Assets/Scripts/OdinWebSDKBridge.cs:114 | no contract: defines the display line "Peer <id> connected, is sending: <flag>" |
| `PeerTable.RenderTable` | OdinWebGLProject/Assets/Scripts/OdinWebSDKBridge.cs:112-117 | no contract: defines the display text for a table visited in a given order, one `AppendLine` per entry |
| `PeerTable.PeerLineRoundTrip` | OdinWebGLProject/Assets/Scripts/OdinWebSDKBridge.cs:114 | a display line names exactly the peer id and flag it was made from: parsing it gives them back |
| `PeerTable.PeerLineIsOneLine` | OdinWebGLProject/Assets/Scripts/OdinWebSDKBridge.cs:114 | a display line contains no line terminator |
| `PeerTable.RenderTableSnoc` | OdinWebGLProject/Assets/Scripts/OdinWebSDKBridge.cs:112-115 | visiting one more entry appends its line and a newline to the rendered text, also behind whatever the builder already held |
| `PeerTable.EnumerationSize` | OdinWebGLProject/Assets/Scripts/OdinWebSDKBridge.cs:112 | a visit order that lists every key exactly once is exactly as long as the table |
| `PeerTable.RenderTableSplits` | OdinWebGLProject/Assets/Scripts/OdinWebSDKBridge.cs:110-119 | the display text reads back as exactly the lines that were appended |
| `PeerTable.DisplayListsTable` | OdinWebGLProject/Assets/Scripts/OdinWebSDKBridge.cs:110-119 | the display has exactly one line per table entry; the i-th line names the i-th visited peer and its flag; every entry of the table appears |
| `Text.IntToString` | OdinWebGLProject/Assets/Scripts/OdinWebSDKBridge.cs:114 | every character of the text of `{peerId}` is a digit or a minus sign, and the text is never empty |
| `Text.BoolToString` | OdinWebGLProject/Assets/Scripts/OdinWebSDKBridge.cs:114 | no contract: defines the text of `{isSending}` as "True" or "False" |
| `Text.RenderLines` | OdinWebGLProject/Assets/Scripts/OdinWebSDKBridge.cs:112-117 | no contract: defines the builder's text after one `AppendLine` per line, as `ToString()` returns it |
| `Text.IntToStringRoundTrip` | OdinWebGLProject/Assets/Scripts/OdinWebSDKBridge.cs:114 | the decimal text of a peer id, with a minus sign when negative, parses back to that id |
| `Text.BoolToStringRoundTrip` | OdinWebGLProject/Assets/Scripts/OdinWebSDKBridge.cs:114 | "True"/"False" parses back to the flag |
| `Text.RenderLinesSnoc` | OdinWebGLProject/Assets/Scripts/OdinWebSDKBridge.cs:114 | one more AppendLine adds the line and its terminator at the end of the builder |
| `Text.SplitRenderLines` | OdinWebGLProject/Assets/Scripts/OdinWebSDKBridge.cs:112-117 | text built by AppendLine from lines with no newline splits back into exactly those lines |

## Left out

- The JavaScript side of the three `extern` functions (the jslib) is not part of this model. A call to one of them is recorded in the command trace and does nothing else.
- `JsonUtility.FromJson` in `OnMediaActivity` is a foreign library. The handler takes the decoded `MediaActivityData`, so the model does not cover what a malformed payload does.
- Unity's button machinery is left out. In particular, a click runs the button's listeners only while it is interactable. The model calls `StartOdin` and `Disconnect` directly, so the lemmas cover every order of calls, including ones a real button would prevent.
- `GetComponentInChildren<TMP_Text>()` and its null check are left out. The button is assumed to have its label child, so every label assignment happens.
- The scene's initial values are not in the source. The model assumes the button is interactable and reads "Connect", that the status and peer-list texts are empty, and that the button has no onClick listener set in the scene (`RemoveAllListeners` at lines 103 and 133 removes only listeners added from script, so a scene listener would survive them and break the single-listener invariant). The serialized room and user settings keep their defaults, "WebGLTest" and "Test User".
- `gameObject.name` is modelled as a constant, `objectName`.
- Dictionary iteration order is left open. `UpdatePeerListDisplay` picks the next key nondeterministically, and the order it used is kept in a ghost field. Display properties hold for every such order.
- `AppendLine`'s terminator is modelled as "\n", the WebGL player's newline. An `int` is formatted as plain decimal with a leading "-" (invariant-culture formatting), and a `bool` as "True"/"False".
- Threading of event delivery is left out. Handlers run one at a time, and any sequence of handler calls is allowed.
