/** The `Server` thread of app/server.py as a class: its `clients`,
    `names` and `messages` fields are updated in place by its methods, each
    of which is proved to do what the matching function of AppRouter says. */
module AppServer {
  import opened Jim
  import opened Registry
  import opened AppRouter

  class Server {
    var clients: seq<Conn>
    var names: Names
    var messages: seq<Dict>
    /** Connections this server closed. */
    var closed: set<Conn>
    /** Frames written, in order. */
    var sent: seq<Delivery>
    /** Calls made on the storage object, in order. */
    var store: seq<StoreCall>

    function Snapshot(): State
      reads this
    {
      State(clients, names, messages, closed, sent, store)
    }

    constructor ()
      ensures Snapshot() == Initial && Valid(Snapshot())
    {
      clients := [];
      names := [];
      messages := [];
      closed := {};
      sent := [];
      store := [];
    }

    /** `send_json_message(c, body)`. */
    method Send(c: Conn, body: Dict, net: Net) returns (raised: Option<Exc>)
      modifies this
      ensures Step(Snapshot(), raised) == AppRouter.Send(old(Snapshot()), c, body, net)
    {
      raised := SendError(closed, net, c);
      if raised.None? {
        sent := sent + [Delivery(c, body)];
      }
    }

    /** `self.clients.remove(c)`. */
    method RemoveClient(c: Conn) returns (raised: Option<Exc>)
      modifies this
      ensures Step(Snapshot(), raised) == Remove(old(Snapshot()), c)
    {
      if c in clients {
        clients := RemoveFirst(clients, c);
        raised := None;
      } else {
        raised := Some(ValueError);
      }
    }

    /** A directory request that passed its shape test, with the reply the
        owner gets. */
    method ServeOwner(key: Json, client: Conn, reply: Dict, call: Option<StoreCall>, net: Net)
      returns (raised: Option<Exc>)
      modifies this
      ensures var s := old(Snapshot());
        var served := if call.Some? then s.(store := s.store + [call.value]) else s;
        Step(Snapshot(), raised) == Guarded(s, key, client, AppRouter.Send(served, client, reply, net), net)
    {
      var owns := OwnedBy(names, key, client);
      if owns.Raise? {
        return Some(owns.exc);
      }
      if owns.value {
        if call.Some? {
          store := store + [call.value];
        }
        raised := Send(client, reply, net);
      } else {
        raised := Send(client, Response400(BAD_REQUEST), net);
      }
    }

    /** `process_client_message(message, client)`. */
    method ProcessClientMessage(m: Dict, client: Conn, env: Env) returns (raised: Option<Exc>)
      modifies this
      ensures Step(Snapshot(), raised) == AppRouter.ProcessClientMessage(old(Snapshot()), m, client, env)
    {
      if IsPresence(m) {
        var account := Subscript(m[USER], ACCOUNT_NAME);
        if account.Raise? {
          return Some(account.exc);
        }
        var name := account.value;
        if !Hashable(name) {
          return Some(TypeError);
        }
        if !Bound(names, name) {
          names := names + [Binding(name, client)];
          raised := PeerError(closed, env.net, client);
          if raised.Some? {
            return;
          }
          store := store + [UserLogin(name, client.ip, client.port)];
          raised := Send(client, Response200, env.net);
        } else {
          raised := Send(client, Response400(NAME_TAKEN), env.net);
          if raised.Some? {
            return;
          }
          raised := RemoveClient(client);
          if raised.Some? {
            return;
          }
          closed := closed + {client};
        }
      } else if IsChat(m) {
        messages := messages + [m];
        store := store + [CountMessage(m[SENDER], m[DESTINATION])];
        raised := None;
      } else if IsExit(m) {
        var account := m[ACCOUNT_NAME];
        store := store + [UserLogout(account)];
        if !Hashable(account) {
          return Some(TypeError);
        }
        var c := Lookup(names, account);
        if c.None? {
          return Some(KeyError);
        }
        raised := RemoveClient(c.value);
        if raised.Some? {
          return;
        }
        closed := closed + {c.value};
        names := Unbind(names, account);
      } else if IsGetContacts(m) {
        raised := ServeOwner(m[USER], client, Response202(ContactsOf(env, m[USER])), None, env.net);
      } else if IsAddContact(m) {
        raised := ServeOwner(m[USER], client, Response200, Some(AddContact(m[USER], m[ACCOUNT_NAME])), env.net);
      } else if IsRemoveContact(m) {
        raised := ServeOwner(m[USER], client, Response200, Some(RemoveContact(m[USER], m[ACCOUNT_NAME])), env.net);
      } else if IsUsersRequest(m) {
        raised := ServeOwner(m[ACCOUNT_NAME], client, Response202(env.users), None, env.net);
      } else {
        raised := Send(client, Response400(BAD_REQUEST), env.net);
      }
    }

    /** One iteration of the read loop with its `except OSError` handler. */
    method ReadOne(inc: Incoming, env: Env) returns (raised: Option<Exc>)
      modifies this
      ensures Step(Snapshot(), raised) == AppRouter.ReadOne(old(Snapshot()), inc, env)
    {
      var c := inc.conn;
      var got := if c in closed then Failed(OSError(EBADF)) else inc.got;
      match got {
        case Frame(m) => raised := ProcessClientMessage(m, c, env);
        case Failed(e) => raised := Some(e);
      }
      if raised.Some? && IsOSError(raised.value) {
        raised := PeerError(closed, env.net, c);
        if raised.Some? {
          return;
        }
        var n := FirstNameOf(names, c);
        if n.Some? {
          store := store + [UserLogout(n.value)];
          names := Unbind(names, n.value);
        }
        raised := RemoveClient(c);
      }
    }

    /** `process_message(message, listen_socks)`. */
    method ProcessMessage(m: Dict, writable: seq<Conn>, net: Net) returns (raised: Option<Exc>)
      modifies this
      ensures Step(Snapshot(), raised) == AppRouter.ProcessMessage(old(Snapshot()), m, writable, net)
    {
      if DESTINATION !in m {
        return Some(KeyError);
      }
      if !Hashable(m[DESTINATION]) {
        return Some(TypeError);
      }
      var c := Lookup(names, m[DESTINATION]);
      if c.None? {
        return None;
      }
      if c.value !in writable {
        return Some(ConnectionError);
      }
      raised := Send(c.value, m, net);
      if raised.None? && SENDER !in m {
        raised := Some(KeyError);
      }
    }

    /** One iteration of the delivery loop with its bare `except:` handler. */
    method DeliverOne(m: Dict, writable: seq<Conn>, net: Net) returns (raised: Option<Exc>)
      modifies this
      ensures Step(Snapshot(), raised) == AppRouter.DeliverOne(old(Snapshot()), m, writable, net)
    {
      raised := ProcessMessage(m, writable, net);
      if raised.None? {
        return;
      }
      if DESTINATION !in m {
        return Some(KeyError);
      }
      var recipient := m[DESTINATION];
      if !Hashable(recipient) {
        return Some(TypeError);
      }
      var c := Lookup(names, recipient);
      if c.None? {
        return Some(KeyError);
      }
      raised := RemoveClient(c.value);
      if raised.Some? {
        return;
      }
      store := store + [UserLogout(recipient)];
      names := Unbind(names, recipient);
    }

    /** The read loop of `run`, each read with its handler. */
    method ReadAll(ready: seq<Incoming>, env: Env) returns (raised: Option<Exc>)
      modifies this
      ensures Step(Snapshot(), raised) == ReadPhase(old(Snapshot()), ready, env)
    {
      ghost var s0 := Snapshot();
      raised := None;
      var i := 0;
      while i < |ready|
        invariant 0 <= i <= |ready|
        invariant raised.None?
        invariant ReadPhase(s0, ready[..i], env) == Step(Snapshot(), None)
      {
        assert ready[..i + 1][..i] == ready[..i];
        ghost var before := Snapshot();
        assert ReadPhase(s0, ready[..i + 1], env) == AppRouter.ReadOne(before, ready[i], env);
        raised := ReadOne(ready[i], env);
        if raised.Some? {
          ReadPhaseStops(s0, ready, i + 1, env);
          return;
        }
        i := i + 1;
      }
      assert ready[..i] == ready;
    }

    /** The delivery loop of `run`, then `messages.clear()`. */
    method DeliverAll(writable: seq<Conn>, net: Net) returns (raised: Option<Exc>)
      modifies this
      ensures Step(Snapshot(), raised) == DeliveryPhase(old(Snapshot()), writable, net)
    {
      ghost var s1 := Snapshot();
      var queue := messages;
      var j := 0;
      while j < |queue|
        invariant 0 <= j <= |queue|
        invariant Deliver(s1, queue[..j], writable, net) == Step(Snapshot(), None)
      {
        assert queue[..j + 1][..j] == queue[..j];
        ghost var before := Snapshot();
        assert Deliver(s1, queue[..j + 1], writable, net) == AppRouter.DeliverOne(before, queue[j], writable, net);
        raised := DeliverOne(queue[j], writable, net);
        if raised.Some? {
          DeliverStops(s1, queue, j + 1, writable, net);
          return;
        }
        j := j + 1;
      }
      assert queue[..j] == queue;
      messages := [];
      raised := None;
    }

    /** One pass of the `while True` loop of `run`. */
    method Cycle(accepted: Option<Conn>, ready: seq<Incoming>, writable: seq<Conn>, env: Env)
      returns (raised: Option<Exc>)
      requires Valid(Snapshot()) && CycleInputs(Snapshot(), accepted, ready, writable)
      modifies this
      ensures Step(Snapshot(), raised) == AppRouter.Cycle(old(Snapshot()), accepted, ready, writable, env)
      ensures Valid(Snapshot())
    {
      CycleValid(Snapshot(), accepted, ready, writable, env);
      if accepted.Some? {
        clients := clients + [accepted.value];
      }
      raised := ReadAll(ready, env);
      if raised.Some? {
        return;
      }
      raised := DeliverAll(writable, env.net);
    }
  }
}
