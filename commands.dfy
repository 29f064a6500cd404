/**
  The commands the bridge issues to the JavaScript side of the Odin web SDK
  (the three `extern` functions of the jslib), recorded in the order issued.
*/
module Commands {

  datatype Command =
    | AddCallback(eventType: string, callbackObjectName: string, callbackFunctionName: string)
    | StartOdin(roomId: string, userId: string)
    | DisconnectOdin

  /** The serialized room settings, at their default values. */
  const RoomId: string := "WebGLTest"
  const UserId: string := "Test User"

  /** The SDK events the bridge listens to, in the order it registers them. */
  const EventTypes: seq<string> := ["Connected", "ConnectionStateChanged", "PeerJoined", "PeerLeft", "MediaActivity"]

  /**
    The five registrations `StartOdin()` issues: every event type, in order, to
    the bridge's own game object `sink`, each to the handler named "On" + the event type.
  */
  function Registrations(sink: string): (r: seq<Command>)
    ensures |r| == |EventTypes|
    ensures forall i :: 0 <= i < |r| ==>
      r[i] == AddCallback(EventTypes[i], sink, "On" + EventTypes[i])
  {
    assert "On" + "Connected" == "OnConnected";
    assert "On" + "ConnectionStateChanged" == "OnConnectionStateChanged";
    assert "On" + "PeerJoined" == "OnPeerJoined";
    assert "On" + "PeerLeft" == "OnPeerLeft";
    assert "On" + "MediaActivity" == "OnMediaActivity";
    [ AddCallback("Connected", sink, "OnConnected"),
      AddCallback("ConnectionStateChanged", sink, "OnConnectionStateChanged"),
      AddCallback("PeerJoined", sink, "OnPeerJoined"),
      AddCallback("PeerLeft", sink, "OnPeerLeft"),
      AddCallback("MediaActivity", sink, "OnMediaActivity") ]
  }

  /** Everything one `StartOdin()` sends: the registrations, then the connect command. */
  function ConnectAttempt(sink: string): seq<Command> {
    Registrations(sink) + [StartOdin(RoomId, UserId)]
  }

  /**
    The shape of every trace the bridge can produce: a sequence of connect
    attempts and lone disconnect commands.
  */
  predicate WellFormedTrace(sink: string, t: seq<Command>)
    decreases |t|
  {
    if t == [] then true
    else if t[0] == DisconnectOdin then WellFormedTrace(sink, t[1..])
    else |t| >= 6 && t[..6] == ConnectAttempt(sink) && WellFormedTrace(sink, t[6..])
  }

  lemma {:induction false} WellFormedAppend(sink: string, t: seq<Command>, u: seq<Command>)
    requires WellFormedTrace(sink, t) && WellFormedTrace(sink, u)
    ensures WellFormedTrace(sink, t + u)
    decreases |t|
  {
    if t != [] {
      if t[0] == DisconnectOdin {
        assert (t + u)[1..] == t[1..] + u;
        WellFormedAppend(sink, t[1..], u);
      } else {
        assert (t + u)[..6] == t[..6];
        assert (t + u)[6..] == t[6..] + u;
        WellFormedAppend(sink, t[6..], u);
      }
    } else {
      assert t + u == u;
    }
  }

  lemma ConnectAttemptWellFormed(sink: string)
    ensures WellFormedTrace(sink, ConnectAttempt(sink))
  {
    var c := ConnectAttempt(sink);
    assert c[0] != DisconnectOdin;
    assert c[..6] == c && c[6..] == [];
  }

  lemma DisconnectWellFormed(sink: string)
    ensures WellFormedTrace(sink, [DisconnectOdin])
  {
    assert [DisconnectOdin][1..] == [];
  }

  /** Number of connect commands in a trace. */
  function CountConnects(t: seq<Command>): nat {
    if t == [] then 0 else (if t[0].StartOdin? then 1 else 0) + CountConnects(t[1..])
  }

  /** Number of registrations for `eventType` in a trace. */
  function CountRegistrations(t: seq<Command>, eventType: string): nat {
    if t == [] then 0
    else (if t[0].AddCallback? && t[0].eventType == eventType then 1 else 0) + CountRegistrations(t[1..], eventType)
  }

  lemma {:induction false} CountsAppend(t: seq<Command>, u: seq<Command>, eventType: string)
    ensures CountConnects(t + u) == CountConnects(t) + CountConnects(u)
    ensures CountRegistrations(t + u, eventType) == CountRegistrations(t, eventType) + CountRegistrations(u, eventType)
  {
    if t != [] {
      assert (t + u)[1..] == t[1..] + u;
      CountsAppend(t[1..], u, eventType);
    } else {
      assert t + u == u;
    }
  }

  lemma CountsCons(c: Command, t: seq<Command>, eventType: string)
    ensures CountConnects([c] + t) == (if c.StartOdin? then 1 else 0) + CountConnects(t)
    ensures CountRegistrations([c] + t, eventType) ==
      (if c.AddCallback? && c.eventType == eventType then 1 else 0) + CountRegistrations(t, eventType)
  {
    assert ([c] + t)[1..] == t;
  }

  /** One connect attempt registers every event type exactly once and connects once. */
  lemma ConnectAttemptCounts(sink: string, eventType: string)
    requires eventType in EventTypes
    ensures CountConnects(ConnectAttempt(sink)) == 1
    ensures CountRegistrations(ConnectAttempt(sink), eventType) == 1
  {
    var r := Registrations(sink);
    var last: seq<Command> := [StartOdin(RoomId, UserId)];
    assert ConnectAttempt(sink) == [r[0]] + ([r[1]] + ([r[2]] + ([r[3]] + ([r[4]] + last))));
    CountsCons(StartOdin(RoomId, UserId), [], eventType);
    CountsCons(r[4], last, eventType);
    CountsCons(r[3], [r[4]] + last, eventType);
    CountsCons(r[2], [r[3]] + ([r[4]] + last), eventType);
    CountsCons(r[1], [r[2]] + ([r[3]] + ([r[4]] + last)), eventType);
    CountsCons(r[0], [r[1]] + ([r[2]] + ([r[3]] + ([r[4]] + last))), eventType);
  }

  /**
    Nothing is de-duplicated: in every trace, each event type has been
    registered exactly as many times as a connection was attempted.
  */
  lemma {:induction false} RegistrationsMatchConnects(sink: string, t: seq<Command>, eventType: string)
    requires WellFormedTrace(sink, t)
    requires eventType in EventTypes
    ensures CountRegistrations(t, eventType) == CountConnects(t)
    decreases |t|
  {
    if t != [] {
      if t[0] == DisconnectOdin {
        RegistrationsMatchConnects(sink, t[1..], eventType);
      } else {
        assert t == t[..6] + t[6..];
        CountsAppend(t[..6], t[6..], eventType);
        ConnectAttemptCounts(sink, eventType);
        RegistrationsMatchConnects(sink, t[6..], eventType);
      }
    }
  }

  /** Every connect command in a trace comes right after the five registrations. */
  lemma {:induction false} RegisteredBeforeConnect(sink: string, t: seq<Command>, j: nat)
    requires WellFormedTrace(sink, t)
    requires j < |t| && t[j].StartOdin?
    ensures j >= |EventTypes| && t[j - |EventTypes|..j] == Registrations(sink)
    ensures t[j] == StartOdin(RoomId, UserId)
    decreases |t|
  {
    if t[0] == DisconnectOdin {
      assert j > 0;
      RegisteredBeforeConnect(sink, t[1..], j - 1);
      assert t[j - 5..j] == t[1..][j - 1 - 5..j - 1];
    } else if j < 6 {
      assert t[..6] == ConnectAttempt(sink);
      assert j == 5;
    } else {
      RegisteredBeforeConnect(sink, t[6..], j - 6);
      assert t[j - 5..j] == t[6..][j - 6 - 5..j - 6];
    }
  }
}
