/**
  `OdinWebSDKBridge`, the MonoBehaviour that connects a Unity scene to the Odin
  web SDK: it registers its handlers with the SDK, starts and stops the
  connection from the connect button, and keeps a table of the peers in the
  room with whether each is sending audio, shown in a text field.

  Every handler is proved against `Session.Step`: afterwards the bridge's
  state is the handler's effect on the state it had before.
*/
module Bridge {
  import opened Text
  import opened PeerTable
  import Commands
  import opened Session

  class OdinWebSDKBridge {
    /** The game object's name, which the SDK calls back. */
    const objectName: string

    var peerSendingState: Table
    var peerListBuilder: string

    /** The connect button. */
    var interactable: bool
    var buttonText: string
    var listeners: seq<Listener>

    var statusText: string
    var peerSendingDisplay: string

    /** The commands sent to the SDK so far. */
    var commands: seq<Commands.Command>

    /** The order in which the last display update visited the table. */
    ghost var displayOrder: seq<Int32>

    ghost function View(): Snapshot
      reads this
    {
      Snapshot(objectName, peerSendingState, interactable, buttonText, listeners, statusText, commands)
    }

    /**
      The button is coherent, the trace well formed, the string builder empty
      between handlers, and the display lists the table.
    */
    ghost predicate Valid()
      reads this
    {
      && Coherent(View())
      && Commands.WellFormedTrace(objectName, commands)
      && peerListBuilder == ""
      && DisplayShowsTable()
    }

    /** The display lists the table: one line per entry. */
    ghost predicate DisplayShowsTable()
      reads this
    {
      && IsEnumeration(displayOrder, peerSendingState.Keys)
      && peerSendingDisplay == RenderTable(peerSendingState, displayOrder)
    }

    /** The field initialisers and `Start()`, which wires StartOdin to the button. */
    constructor (objectName: string)
      ensures Valid()
      ensures View() == Initial(objectName)
    {
      this.objectName := objectName;
      peerSendingState := map[];
      peerListBuilder := "";
      interactable := true;
      buttonText := InitialLabel;
      statusText := "";
      peerSendingDisplay := "";
      commands := [];
      displayOrder := [];
      new;
      listeners := [];
      listeners := listeners + [StartOdinListener];
      InitialCoherent(objectName);
    }

    /** The extern `StartOdin(roomId, userId)`. */
    method SendStartOdin(roomId: string, userId: string)
      modifies this`commands
      ensures commands == old(commands) + [Commands.StartOdin(roomId, userId)]
    {
      commands := commands + [Commands.StartOdin(roomId, userId)];
    }

    /** The extern `DisconnectOdin()`. */
    method SendDisconnectOdin()
      modifies this`commands
      ensures commands == old(commands) + [Commands.DisconnectOdin]
    {
      commands := commands + [Commands.DisconnectOdin];
    }

    /** The extern three-argument `AddCallback`. */
    method SendAddCallback(eventType: string, callbackObjectName: string, callbackFunctionName: string)
      modifies this`commands
      ensures commands == old(commands) + [Commands.AddCallback(eventType, callbackObjectName, callbackFunctionName)]
    {
      commands := commands + [Commands.AddCallback(eventType, callbackObjectName, callbackFunctionName)];
    }

    /** The two-argument shortcut: the callback object is always this game object. */
    method AddCallback(eventType: string, callbackFunctionName: string)
      modifies this`commands
      ensures commands == old(commands) + [Commands.AddCallback(eventType, objectName, callbackFunctionName)]
    {
      SendAddCallback(eventType, objectName, callbackFunctionName);
    }

    /** Registers the five callbacks, connects, and disables the button while connecting. */
    method StartOdin()
      requires Valid()
      modifies this
      ensures Valid()
      ensures View() == Step(old(View()), ClickStartOdin)
      ensures peerSendingDisplay == old(peerSendingDisplay) && displayOrder == old(displayOrder)
    {
      ghost var before := View();
      AddCallback("Connected", "OnConnected");
      AddCallback("ConnectionStateChanged", "OnConnectionStateChanged");
      AddCallback("PeerJoined", "OnPeerJoined");
      AddCallback("PeerLeft", "OnPeerLeft");
      AddCallback("MediaActivity", "OnMediaActivity");
      SendStartOdin(Commands.RoomId, Commands.UserId);
      interactable := false;
      buttonText := ConnectingLabel;
      assert commands == before.commands + Commands.ConnectAttempt(objectName);
      StepKeepsCoherent(before, ClickStartOdin);
      StepKeepsWellFormedTrace(before, ClickStartOdin);
    }

    /** Teardown: disconnect, whatever the state. */
    method OnDestroy()
      requires Valid()
      modifies this
      ensures Valid()
      ensures View() == Step(old(View()), Destroy)
      ensures peerSendingDisplay == old(peerSendingDisplay) && displayOrder == old(displayOrder)
    {
      ghost var before := View();
      SendDisconnectOdin();
      StepKeepsCoherent(before, Destroy);
      StepKeepsWellFormedTrace(before, Destroy);
    }

    /** Disconnects, re-arms the button for a new connection, and empties the peer list. */
    method Disconnect()
      requires Valid()
      modifies this
      ensures Valid()
      ensures View() == Step(old(View()), ClickDisconnect)
    {
      ghost var before := View();
      ghost var after := Step(before, ClickDisconnect);
      StepKeepsCoherent(before, ClickDisconnect);
      StepKeepsWellFormedTrace(before, ClickDisconnect);
      SendDisconnectOdin();
      interactable := true;
      buttonText := ReconnectLabel;
      listeners := [];
      listeners := listeners + [StartOdinListener];
      peerSendingState := map[];
      UpdatePeerListDisplay();
      assert View() == after;
    }

    /**
      Appends one line per table entry to the string builder, shows its text,
      and clears it again.
    */
    method UpdatePeerListDisplay()
      modifies this`peerListBuilder, this`peerSendingDisplay, this`displayOrder
      ensures IsEnumeration(displayOrder, peerSendingState.Keys)
      ensures peerSendingDisplay == old(peerListBuilder) + RenderTable(peerSendingState, displayOrder)
      ensures old(peerListBuilder) == "" ==> DisplayShowsTable()
      ensures peerListBuilder == ""
    {
      var remaining := peerSendingState.Keys;
      ghost var visited: set<Int32> := {};
      ghost var order: seq<Int32> := [];
      while remaining != {}
        invariant visited + remaining == peerSendingState.Keys && visited !! remaining
        invariant IsEnumeration(order, visited)
        invariant peerListBuilder == old(peerListBuilder) + RenderTable(peerSendingState, order)
        decreases remaining
      {
        var peerId :| peerId in remaining;
        var line := PeerLine(peerId, peerSendingState[peerId]);
        RenderTableSnoc(old(peerListBuilder), peerSendingState, order, peerId);
        EnumerationExtend(order, visited, peerId);
        peerListBuilder := peerListBuilder + line + NewLine;
        order := order + [peerId];
        visited := visited + {peerId};
        remaining := remaining - {peerId};
      }
      peerSendingDisplay := peerListBuilder;
      peerListBuilder := "";
      displayOrder := order;
      assert old(peerListBuilder) == "" ==> peerSendingDisplay == RenderTable(peerSendingState, displayOrder);
    }

    /** The SDK's report of a connection attempt: the payload "true" means success, anything else failure. */
    method OnConnected(success: string)
      requires Valid()
      modifies this
      ensures Valid()
      ensures View() == Step(old(View()), ConnectedReport(success))
      ensures peerSendingDisplay == old(peerSendingDisplay) && displayOrder == old(displayOrder)
    {
      ghost var before := View();
      var isSuccess := "true" == success;
      if isSuccess {
        interactable := true;
        buttonText := DisconnectLabel;
        listeners := [];
        listeners := listeners + [DisconnectListener];
      } else {
        interactable := true;
        buttonText := RetryLabel;
      }
      StepKeepsCoherent(before, ConnectedReport(success));
      StepKeepsWellFormedTrace(before, ConnectedReport(success));
    }

    method OnConnectionStateChanged(newState: string)
      requires Valid()
      modifies this
      ensures Valid()
      ensures View() == Step(old(View()), StateChanged(newState))
      ensures peerSendingDisplay == old(peerSendingDisplay) && displayOrder == old(displayOrder)
    {
      ghost var before := View();
      statusText := StatusPrefix + newState;
      StepKeepsCoherent(before, StateChanged(newState));
      StepKeepsWellFormedTrace(before, StateChanged(newState));
    }

    method OnPeerJoined(peerId: Int32)
      requires Valid()
      modifies this
      ensures Valid()
      ensures View() == Step(old(View()), PeerJoined(peerId))
    {
      ghost var before := View();
      ghost var after := Step(before, PeerJoined(peerId));
      StepKeepsCoherent(before, PeerJoined(peerId));
      StepKeepsWellFormedTrace(before, PeerJoined(peerId));
      assert after == before.(table := before.table[peerId := false]);
      peerSendingState := peerSendingState[peerId := false];
      UpdatePeerListDisplay();
      assert View() == after;
    }

    method OnPeerLeft(peerId: Int32)
      requires Valid()
      modifies this
      ensures Valid()
      ensures View() == Step(old(View()), PeerLeft(peerId))
    {
      ghost var before := View();
      ghost var after := Step(before, PeerLeft(peerId));
      StepKeepsCoherent(before, PeerLeft(peerId));
      StepKeepsWellFormedTrace(before, PeerLeft(peerId));
      assert after == before.(table := before.table - {peerId});
      peerSendingState := peerSendingState - {peerId};
      UpdatePeerListDisplay();
      assert View() == after;
    }

    /** Takes the payload already decoded from its JSON text. */
    method OnMediaActivity(data: MediaActivityData)
      requires Valid()
      modifies this
      ensures Valid()
      ensures View() == Step(old(View()), MediaActivity(data))
    {
      ghost var before := View();
      ghost var after := Step(before, MediaActivity(data));
      StepKeepsCoherent(before, MediaActivity(data));
      StepKeepsWellFormedTrace(before, MediaActivity(data));
      var peerId, active := data.peerId, data.active;
      assert after == before.(table := before.table[peerId := active]);
      peerSendingState := peerSendingState[peerId := active];
      UpdatePeerListDisplay();
      assert View() == after;
    }
  }
}
