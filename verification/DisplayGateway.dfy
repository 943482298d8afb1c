/** The gateway object: sockets, the index by device and the sockets still closing are fields it mutates. */
module DisplayGateway {
  import opened Base
  import opened Gateway

  class WebDisplayGateway {
    var closing: bool
    var clients: map<Id, Connection>
    var connections: map<DeviceId, set<Id>>
    var terminating: set<Id>

    ghost function Contents(): State
      reads this
    {
      State(closing, clients, connections, terminating)
    }

    constructor ()
      ensures Contents() == EMPTY && Valid(Contents())
    {
      closing, clients, connections, terminating := false, map[], map[], {};
    }

    method AcceptClient(id: Id, now: int)
      requires Valid(Contents()) && id !in clients && id !in terminating
      modifies this`clients
      ensures Contents() == Accept(old(Contents()), id, now) && Valid(Contents())
    {
      AcceptKeeps(Contents(), id, now);
      if closing || |clients| + |terminating| >= MAX_CONNECTIONS {
        return;
      }
      clients := clients[id := Connection(None, Bucket(BURST, now), 0, false, None)];
    }

    method CleanUp(id: Id)
      requires Valid(Contents())
      modifies this`clients, this`connections
      ensures Contents() == Cleanup(old(Contents()), id) && Valid(Contents())
      ensures id in old(clients) ==> |clients| < |old(clients)|
    {
      CleanupKeeps(Contents(), id);
      if id !in clients {
        return;
      }
      var session := clients[id].session;
      clients := clients - {id};
      if session.Some? {
        var device := session.value;
        var group := (if device in connections then connections[device] else {}) - {id};
        if group == {} {
          connections := connections - {device};
        } else {
          connections := connections[device := group];
        }
      }
    }

    method DisconnectClient(id: Id)
      requires Valid(Contents())
      modifies this`clients, this`connections, this`terminating
      ensures Contents() == Disconnect(old(Contents()), id) && Valid(Contents())
      ensures id in old(clients) ==> |clients| < |old(clients)|
    {
      DisconnectKeeps(Contents(), id);
      if id !in clients {
        return;
      }
      CleanUp(id);
      terminating := terminating + {id};
    }

    /** Refill by the time that passed, spend one, then let the protocol decide. */
    static method Admit(state: Connection, now: int, message: Message) returns (next: Option<Connection>)
      ensures next == Queued(state, now, message)
    {
      var tokens := Min(BURST, state.bucket.tokens + Max(0, now - state.bucket.time) * PER_MS);
      if tokens < MESSAGE || state.queued >= MAX_PENDING {
        return None;
      }
      tokens := tokens - MESSAGE;
      if message.Invalid? || (state.session.None? && (state.draining || !message.Authenticate?)) {
        return None;
      }
      return Some(state.(bucket := Bucket(tokens, now), queued := state.queued + 1, draining := true));
    }

    method ReceiveMessage(id: Id, now: int, message: Message)
      requires Valid(Contents())
      modifies this`clients, this`connections, this`terminating
      ensures Contents() == Receive(old(Contents()), id, now, message) && Valid(Contents())
    {
      ReceiveKeeps(Contents(), id, now, message);
      if id !in clients {
        return;
      }
      var next := Admit(clients[id], now, message);
      if next.None? {
        DisconnectClient(id);
      } else {
        clients := clients[id := next.value];
      }
    }

    /** The continuation after the credentials were checked; the socket may have closed meanwhile. */
    method LogIn(id: Id, device: DeviceId)
      requires Valid(Contents())
      modifies this`clients, this`connections, this`terminating
      ensures Contents() == Authenticated(old(Contents()), id, device) && Valid(Contents())
    {
      AuthenticatedKeeps(Contents(), id, device);
      if id !in clients || clients[id].session.Some? {
        return;
      }
      var group := if device in connections then connections[device] else {};
      if |group| >= MAX_PER_DEVICE {
        DisconnectClient(id);
        return;
      }
      clients := clients[id := clients[id].(session := Some(device))];
      connections := connections[device := group + {id}];
    }

    method MarkDelivered(id: Id, revision: Revision)
      modifies this`clients
      ensures Contents() == Delivered(old(Contents()), id, revision)
    {
      if id !in clients || clients[id].session.None? {
        return;
      }
      var last := clients[id].last;
      if last.None? || Compare(revision, last.value) > 0 {
        clients := clients[id := clients[id].(last := Some(revision))];
      }
    }

    /** Every connection is closed, then every closing socket is terminated. */
    method Shutdown()
      requires Valid(Contents())
      modifies this
      ensures Contents() == State(true, map[], map[], {}) && Valid(Contents())
    {
      closing := true;
      SameSessions(old(Contents()), Contents());
      while clients != map[]
        invariant Valid(Contents()) && closing
        decreases |clients|
      {
        var id :| id in clients;
        DisconnectClient(id);
      }
      NoGroups(Contents());
      terminating := {};
    }
  }

  lemma NoGroups(s: State)
    requires Indexed(s) && s.clients == map[]
    ensures s.index == map[]
  {
    forall device ensures device !in s.index {
      assert Group(s, device) == {};
    }
  }
}
