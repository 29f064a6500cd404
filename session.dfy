/**
  The observable state of one `OdinWebSDKBridge` as a value, and the effect of
  each of its handlers on it.  The connect button's three properties (whether
  it is interactable, its label and its click listeners) are the only record
  of the connection phase; `PhaseOf` reads the phase back out of them.
*/
module Session {
  import opened Wrappers
  import opened PeerTable
  import Commands

  /** The methods the connect button's `onClick` can hold. */
  datatype Listener = StartOdinListener | DisconnectListener

  datatype Phase = Idle | Connecting | Connected | Failed

  /** Labels the bridge writes on the connect button. */
  const ConnectingLabel: string := "Connecting..."
  const DisconnectLabel: string := "Disconnect"
  const RetryLabel: string := "Try to Reconnect"
  const ReconnectLabel: string := "Reconnect"
  /** The label the button has in the scene before any handler ran. */
  const InitialLabel: string := "Connect"

  const StatusPrefix: string := "Connection State: "

  /** The decoded payload of a MediaActivity event. */
  datatype MediaActivityData = MediaActivityData(peerId: Int32, active: bool)

  datatype Snapshot = Snapshot(
    sink: string,                       // the game object's name, the target of every callback
    table: Table,                       // _peerSendingState
    interactable: bool,                 // connectButton.interactable
    buttonText: string,                    // the button's text
    listeners: seq<Listener>,           // connectButton.onClick
    status: string,                     // statusText.text
    commands: seq<Commands.Command>)    // everything sent to the SDK so far

  /** Everything that can call into the bridge: the button's two click targets, teardown, and the five SDK events. */
  datatype Event =
    | ClickStartOdin
    | ClickDisconnect
    | Destroy
    | ConnectedReport(success: string)
    | StateChanged(newState: string)
    | PeerJoined(peerId: Int32)
    | PeerLeft(peerId: Int32)
    | MediaActivity(data: MediaActivityData)

  /** The state right after `Start()`: no peers, no commands, StartOdin wired to the button. */
  function Initial(sink: string): Snapshot {
    Snapshot(sink, map[], true, InitialLabel, [StartOdinListener], "", [])
  }

  /** The effect of one handler call. */
  function Step(s: Snapshot, e: Event): Snapshot {
    match e
    case ClickStartOdin =>
      s.(commands := s.commands + Commands.ConnectAttempt(s.sink), interactable := false, buttonText := ConnectingLabel)
    case ClickDisconnect =>
      s.(commands := s.commands + [Commands.DisconnectOdin], interactable := true, buttonText := ReconnectLabel,
         listeners := [StartOdinListener], table := map[])
    case Destroy =>
      s.(commands := s.commands + [Commands.DisconnectOdin])
    case ConnectedReport(success) =>
      if success == "true" then s.(interactable := true, buttonText := DisconnectLabel, listeners := [DisconnectListener])
      else s.(interactable := true, buttonText := RetryLabel)
    case StateChanged(newState) =>
      s.(status := StatusPrefix + newState)
    case PeerJoined(p) =>
      s.(table := Join(s.table, p))
    case PeerLeft(p) =>
      s.(table := Leave(s.table, p))
    case MediaActivity(d) =>
      s.(table := RecordActivity(s.table, d.peerId, d.active))
  }

  /** The handlers called one after another, in the order given. */
  function Run(s: Snapshot, es: seq<Event>): Snapshot
    decreases |es|
  {
    if es == [] then s else Step(Run(s, es[..|es| - 1]), es[|es| - 1])
  }

  /** The connection phase the button shows. */
  function PhaseOf(s: Snapshot): Phase {
    if !s.interactable then Connecting
    else if s.buttonText == RetryLabel then Failed
    else if s.listeners == [DisconnectListener] then Phase.Connected
    else Idle
  }

  /**
    The button's properties agree with each other: it has one listener; it is
    disabled exactly while it reads "Connecting..."; "Disconnect" always
    disconnects; and every label other than the connecting and retry labels
    starts a connection.
  */
  predicate Coherent(s: Snapshot) {
    && |s.listeners| == 1
    && s.buttonText in {InitialLabel, ConnectingLabel, DisconnectLabel, RetryLabel, ReconnectLabel}
    && (s.interactable <==> s.buttonText != ConnectingLabel)
    && (s.buttonText == DisconnectLabel ==> s.listeners == [DisconnectListener])
    && (s.buttonText == InitialLabel || s.buttonText == ReconnectLabel ==> s.listeners == [StartOdinListener])
  }

  lemma InitialCoherent(sink: string)
    ensures Coherent(Initial(sink)) && PhaseOf(Initial(sink)) == Idle
  {
  }

  /** Which phase each handler leads to; the events that do not touch the button keep the phase. */
  lemma StepPhase(s: Snapshot, e: Event)
    ensures e == ClickStartOdin ==> PhaseOf(Step(s, e)) == Connecting
    ensures e == ConnectedReport("true") ==> PhaseOf(Step(s, e)) == Phase.Connected
    ensures e.ConnectedReport? && e.success != "true" ==> PhaseOf(Step(s, e)) == Failed
    ensures e == ClickDisconnect ==> PhaseOf(Step(s, e)) == Idle
    ensures !e.ClickStartOdin? && !e.ClickDisconnect? && !e.ConnectedReport? ==> PhaseOf(Step(s, e)) == PhaseOf(s)
  {
  }

  /** Only the exact payload "true" counts as success; every other payload fails closed. */
  lemma ConnectedExactlyOnTrue(s: Snapshot, success: string)
    ensures PhaseOf(Step(s, ConnectedReport(success))) == Phase.Connected <==> success == "true"
    ensures PhaseOf(Step(s, ConnectedReport(success))) == Failed <==> success != "true"
  {
  }

  lemma StepKeepsCoherent(s: Snapshot, e: Event)
    requires Coherent(s)
    ensures Coherent(Step(s, e))
  {
  }

  /** Whatever the handlers and however they interleave, the button stays coherent. */
  lemma {:induction false} RunKeepsCoherent(s: Snapshot, es: seq<Event>)
    requires Coherent(s)
    ensures Coherent(Run(s, es))
    decreases |es|
  {
    if es != [] {
      RunKeepsCoherent(s, es[..|es| - 1]);
      StepKeepsCoherent(Run(s, es[..|es| - 1]), es[|es| - 1]);
    }
  }

  /** A failed connection report after a successful one leaves "Try to Reconnect" on a button that disconnects. */
  lemma RetryLabelAfterSuccessDisconnects(s: Snapshot, success: string)
    requires Coherent(s) && PhaseOf(s) == Phase.Connected
    requires success != "true"
    ensures PhaseOf(Step(s, ConnectedReport(success))) == Failed
    ensures Step(s, ConnectedReport(success)).listeners == [DisconnectListener]
  {
  }

  /** A repeated connection report changes nothing more. */
  lemma OnConnectedIdempotent(s: Snapshot, success: string)
    ensures Step(Step(s, ConnectedReport(success)), ConnectedReport(success)) == Step(s, ConnectedReport(success))
  {
  }

  /** A second disconnect only sends one more disconnect command. */
  lemma DisconnectIdempotent(s: Snapshot)
    ensures var once := Step(s, ClickDisconnect);
      Step(once, ClickDisconnect) == once.(commands := once.commands + [Commands.DisconnectOdin])
  {
  }

  /** A status event changes the status text and nothing else. */
  lemma StatusOnlyChangesStatus(s: Snapshot, newState: string)
    ensures Step(s, StateChanged(newState)).(status := s.status) == s
    ensures Step(s, StateChanged(newState)).status == StatusPrefix + newState
  {
  }

  /** Teardown sends a disconnect whatever the phase, and changes nothing else. */
  lemma DestroyOnlyDisconnects(s: Snapshot)
    ensures Step(s, Destroy).commands == s.commands + [Commands.DisconnectOdin]
    ensures Step(s, Destroy).(commands := s.commands) == s
  {
  }

  /**
   * No field of the snapshot changes on a peer-table event except the table.
   * The peer-list display, which is not part of the snapshot, is redrawn by
   * the Bridge methods (`DisplayShowsTable`).
   */
  lemma PeerEventsOnlyChangeTable(s: Snapshot, e: Event)
    requires e.PeerJoined? || e.PeerLeft? || e.MediaActivity?
    ensures Step(s, e).(table := s.table) == s
  {
  }

  /** Number of clicks on StartOdin in a call sequence. */
  function CountStarts(es: seq<Event>): nat
    decreases |es|
  {
    if es == [] then 0 else CountStarts(es[..|es| - 1]) + (if es[|es| - 1] == ClickStartOdin then 1 else 0)
  }

  /** Appending a well-formed piece keeps a trace well formed and adds up the counts. */
  lemma AppendTrace(sink: string, t: seq<Commands.Command>, added: seq<Commands.Command>, eventType: string)
    requires Commands.WellFormedTrace(sink, t) && Commands.WellFormedTrace(sink, added)
    ensures Commands.WellFormedTrace(sink, t + added)
    ensures Commands.CountConnects(t + added) == Commands.CountConnects(t) + Commands.CountConnects(added)
    ensures Commands.CountRegistrations(t + added, eventType) ==
      Commands.CountRegistrations(t, eventType) + Commands.CountRegistrations(added, eventType)
  {
    Commands.WellFormedAppend(sink, t, added);
    Commands.CountsAppend(t, added, eventType);
  }

  /** The commands one handler call sends. */
  function Sent(s: Snapshot, e: Event): seq<Commands.Command> {
    match e
    case ClickStartOdin => Commands.ConnectAttempt(s.sink)
    case ClickDisconnect => [Commands.DisconnectOdin]
    case Destroy => [Commands.DisconnectOdin]
    case _ => []
  }

  /** A handler call only appends to the trace: the connect attempt on StartOdin, a disconnect on Disconnect and teardown. */
  lemma StepSends(s: Snapshot, e: Event)
    ensures Step(s, e).sink == s.sink
    ensures Step(s, e).commands == s.commands + Sent(s, e)
  {
    if !e.ClickStartOdin? && !e.ClickDisconnect? && !e.Destroy? {
      assert s.commands + [] == s.commands;
    }
  }

  lemma SentCounts(s: Snapshot, e: Event, eventType: string)
    requires eventType in Commands.EventTypes
    ensures Commands.WellFormedTrace(s.sink, Sent(s, e))
    ensures Commands.CountConnects(Sent(s, e)) == (if e == ClickStartOdin then 1 else 0)
    ensures Commands.CountRegistrations(Sent(s, e), eventType) == (if e == ClickStartOdin then 1 else 0)
  {
    match e {
      case ClickStartOdin =>
        Commands.ConnectAttemptWellFormed(s.sink);
        Commands.ConnectAttemptCounts(s.sink, eventType);
      case ClickDisconnect =>
        Commands.DisconnectWellFormed(s.sink);
        Commands.CountsCons(Commands.DisconnectOdin, [], eventType);
      case Destroy =>
        Commands.DisconnectWellFormed(s.sink);
        Commands.CountsCons(Commands.DisconnectOdin, [], eventType);
      case _ =>
    }
  }

  /** One handler call keeps the trace well formed and adds a connect attempt exactly on StartOdin. */
  lemma StepTrace(s: Snapshot, e: Event, eventType: string)
    requires Commands.WellFormedTrace(s.sink, s.commands)
    requires eventType in Commands.EventTypes
    ensures Step(s, e).sink == s.sink
    ensures Commands.WellFormedTrace(s.sink, Step(s, e).commands)
    ensures Commands.CountConnects(Step(s, e).commands) ==
      Commands.CountConnects(s.commands) + (if e == ClickStartOdin then 1 else 0)
    ensures Commands.CountRegistrations(Step(s, e).commands, eventType) ==
      Commands.CountRegistrations(s.commands, eventType) + (if e == ClickStartOdin then 1 else 0)
  {
    StepSends(s, e);
    SentCounts(s, e, eventType);
    AppendTrace(s.sink, s.commands, Sent(s, e), eventType);
  }

  lemma StepKeepsWellFormedTrace(s: Snapshot, e: Event)
    requires Commands.WellFormedTrace(s.sink, s.commands)
    ensures Step(s, e).sink == s.sink
    ensures Commands.WellFormedTrace(s.sink, Step(s, e).commands)
  {
    StepTrace(s, e, Commands.EventTypes[0]);
  }

  /**
    Every trace of the bridge is well formed, issues one connect command per
    StartOdin, and has re-registered every event type on each of them.
  */
  lemma {:induction false} RunTrace(s: Snapshot, es: seq<Event>, eventType: string)
    requires Commands.WellFormedTrace(s.sink, s.commands)
    requires eventType in Commands.EventTypes
    ensures Run(s, es).sink == s.sink
    ensures Commands.WellFormedTrace(s.sink, Run(s, es).commands)
    ensures Commands.CountConnects(Run(s, es).commands) == Commands.CountConnects(s.commands) + CountStarts(es)
    ensures Commands.CountRegistrations(Run(s, es).commands, eventType) ==
      Commands.CountRegistrations(s.commands, eventType) + CountStarts(es)
    decreases |es|
  {
    if es != [] {
      RunTrace(s, es[..|es| - 1], eventType);
      StepTrace(Run(s, es[..|es| - 1]), es[|es| - 1], eventType);
    }
  }

  /** From the initial state, each event type is registered once per connection attempt: nothing is de-duplicated. */
  lemma RetriesReRegister(sink: string, es: seq<Event>, eventType: string)
    requires eventType in Commands.EventTypes
    ensures Commands.CountConnects(Run(Initial(sink), es).commands) == CountStarts(es)
    ensures Commands.CountRegistrations(Run(Initial(sink), es).commands, eventType) == CountStarts(es)
  {
    RunTrace(Initial(sink), es, eventType);
  }

  /** Whether an event can change the table entry of `p`. */
  predicate Touches(e: Event, p: Int32) {
    match e
    case ClickDisconnect => true
    case PeerJoined(q) => q == p
    case PeerLeft(q) => q == p
    case MediaActivity(d) => d.peerId == p
    case _ => false
  }

  /** The entry of `p` right after an event that touches it. */
  function EntryAfter(e: Event, p: Int32): Option<bool>
    requires Touches(e, p)
  {
    match e
    case PeerJoined(_) => Some(false)
    case MediaActivity(d) => Some(d.active)
    case _ => None
  }

  function Entry(t: Table, p: Int32): Option<bool> {
    if p in t then Some(t[p]) else None
  }

  /** One event sets the entry of a peer it touches as `EntryAfter` says, and keeps every other entry. */
  lemma StepEntry(s: Snapshot, e: Event, p: Int32)
    ensures Touches(e, p) ==> Entry(Step(s, e).table, p) == EntryAfter(e, p)
    ensures !Touches(e, p) ==> Entry(Step(s, e).table, p) == Entry(s.table, p)
  {
  }

  /** No event of `es` touches `p`. */
  predicate Untouched(es: seq<Event>, p: Int32) {
    forall i :: 0 <= i < |es| ==> !Touches(es[i], p)
  }

  /** `es[i]` is the last event of `es` that touches `p`. */
  predicate LastTouch(es: seq<Event>, p: Int32, i: int) {
    0 <= i < |es| && Touches(es[i], p) && Untouched(es[i + 1..], p)
  }

  /** A peer that no event touches keeps its entry. */
  lemma {:induction false} UntouchedEntryKept(s: Snapshot, es: seq<Event>, p: Int32)
    requires Untouched(es, p)
    ensures Entry(Run(s, es).table, p) == Entry(s.table, p)
    decreases |es|
  {
    if es != [] {
      var n := |es| - 1;
      var pre := es[..n];
      assert Untouched(pre, p) by {
        forall i | 0 <= i < n ensures !Touches(pre[i], p) {
          assert pre[i] == es[i];
        }
      }
      UntouchedEntryKept(s, pre, p);
      StepEntry(Run(s, pre), es[n], p);
    }
  }

  /**
    The last event touching a peer decides its entry: present and not sending
    after a join, present with the reported flag after an activity report
    (whether or not it had joined), absent after a leave or a disconnect.
  */
  lemma {:induction false} LastEventWins(s: Snapshot, es: seq<Event>, p: Int32, i: int)
    requires LastTouch(es, p, i)
    ensures Entry(Run(s, es).table, p) == EntryAfter(es[i], p)
  {
    var front, back := es[..i + 1], es[i + 1..];
    assert es == front + back;
    RunAppend(s, front, back);
    UntouchedEntryKept(Run(s, front), back, p);
    assert front[..i] == es[..i];
    StepEntry(Run(s, es[..i]), es[i], p);
  }

  /** Running two call sequences one after the other is running their concatenation. */
  lemma {:induction false} RunAppend(s: Snapshot, es: seq<Event>, more: seq<Event>)
    ensures Run(s, es + more) == Run(Run(s, es), more)
    decreases |more|
  {
    if more == [] {
      assert es + more == es;
    } else {
      var n := |more| - 1;
      assert (es + more)[..|es + more| - 1] == es + more[..n];
      RunAppend(s, es, more[..n]);
    }
  }

  /** Connect, a peer joins, starts sending and leaves, then the user disconnects. */
  lemma PeerScenario(sink: string)
    ensures var connected := Step(Step(Initial(sink), ClickStartOdin), ConnectedReport("true"));
            var joined := Step(connected, PeerJoined(7));
            var sending := Step(joined, MediaActivity(MediaActivityData(7, true)));
            var left := Step(sending, PeerLeft(7));
            var done := Step(left, ClickDisconnect);
            && PhaseOf(connected) == Phase.Connected
            && joined.table == map[7 := false]
            && sending.table == map[7 := true]
            && left.table == map[]
            && PhaseOf(done) == Idle && done.table == map[]
  {
  }

  /** A failed attempt can be retried, and the retry registers all five callbacks again. */
  lemma RetryScenario(sink: string)
    ensures var failed := Step(Step(Initial(sink), ClickStartOdin), ConnectedReport("false"));
            var retry := Step(failed, ClickStartOdin);
            && PhaseOf(failed) == Failed
            && PhaseOf(retry) == Connecting
            && retry.commands == Commands.ConnectAttempt(sink) + Commands.ConnectAttempt(sink)
  {
  }
}
