/** The message handling of the lesson 8 server (lesson_8/server.py) as
    functions of the three collections `main` keeps: the `clients` list, the
    `names` dictionary and the `messages` queue. Unlike the later server it
    has no storage, and its read handler catches every exception but leaves
    the connection's names bound. */
module Lesson8Router {
  import opened Jim
  import opened Registry

  // The lemmas about the read and delivery loops (ReadPhaseStops, the ...Valid lemmas and
  // so on) have the same shape as AppRouter's, and are proved again here
  // because they are about this module's own State and step functions,
  // which differ from the app server's in what they catch and change.

  /** `main`'s collections plus the connections closed and the frames sent. */
  datatype State = State(
    clients: seq<Conn>,
    names: Names,
    messages: seq<Dict>,
    closed: set<Conn>,
    sent: seq<Delivery>)

  datatype Step = Step(st: State, raised: Option<Exc>)

  predicate Valid(s: State) {
    Unique(s.names) && NoDup(s.clients) && forall c :: c in s.clients ==> c !in s.closed
  }

  const Initial: State := State([], [], [], {}, [])

  function Send(s: State, c: Conn, body: Dict, net: Net): Step {
    match SendError(s.closed, net, c)
    case Some(e) => Step(s, Some(e))
    case None => Step(s.(sent := s.sent + [Delivery(c, body)]), None)
  }

  /** `clients.remove(c)`. */
  function Remove(s: State, c: Conn): Step {
    if c in s.clients then Step(s.(clients := RemoveFirst(s.clients, c)), None)
    else Step(s, Some(ValueError))
  }

  /** The presence branch once `message[USER][ACCOUNT_NAME]` is name. */
  function Presence(s: State, name: Json, client: Conn, net: Net): Step {
    if !Hashable(name) then Step(s, Some(TypeError))
    else if !Bound(s.names, name) then
      Send(s.(names := s.names + [Binding(name, client)]), client, Response200, net)
    else
      var r1 := Send(s, client, Response400(NAME_TAKEN), net);
      if r1.raised.Some? then r1
      else
        var r2 := Remove(r1.st, client);
        if r2.raised.Some? then r2
        else Step(r2.st.(closed := r2.st.closed + {client}), None)
  }

  /** The exit branch: `clients.remove(names[a])`, close it, `del names[a]`. */
  function Exit(s: State, account: Json): Step {
    if !Hashable(account) then Step(s, Some(TypeError))
    else match Lookup(s.names, account)
      case None => Step(s, Some(KeyError))
      case Some(c) =>
        var r := Remove(s, c);
        if r.raised.Some? then r
        else Step(r.st.(closed := r.st.closed + {c}, names := Unbind(r.st.names, account)), None)
  }

  /** `process_client_message(message, messages_list, client, clients, names)`. */
  function ProcessClientMessage(s: State, m: Dict, client: Conn, net: Net): Step {
    if IsPresence(m) then
      match Subscript(m[USER], ACCOUNT_NAME)
      case Raise(e) => Step(s, Some(e))
      case Ok(name) => Presence(s, name, client, net)
    else if IsChat(m) then
      Step(s.(messages := s.messages + [m]), None)
    else if IsExit(m) then
      Exit(s, m[ACCOUNT_NAME])
    else
      Send(s, client, Response400(BAD_REQUEST), net)
  }

  /** One iteration of the read loop with its `except Exception` handler,
      which logs the peer address and unlists the connection. */
  function ReadOne(s: State, inc: Incoming, net: Net): Step {
    var got := if inc.conn in s.closed then Failed(OSError(EBADF)) else inc.got;
    var r := match got
      case Frame(m) => ProcessClientMessage(s, m, inc.conn, net)
      case Failed(e) => Step(s, Some(e));
    if r.raised.None? then r
    else match PeerError(r.st.closed, net, inc.conn)
      case Some(e) => Step(r.st, Some(e))
      case None => Remove(r.st, inc.conn)
  }

  function ReadPhase(s: State, ready: seq<Incoming>, net: Net): Step
    decreases |ready|
  {
    if ready == [] then Step(s, None)
    else
      var r := ReadPhase(s, ready[..|ready| - 1], net);
      if r.raised.Some? then r else ReadOne(r.st, ready[|ready| - 1], net)
  }

  /** `process_message(message, names, listen_socks)`. */
  function ProcessMessage(s: State, m: Dict, writable: seq<Conn>, net: Net): Step {
    if DESTINATION !in m then Step(s, Some(KeyError))
    else if !Hashable(m[DESTINATION]) then Step(s, Some(TypeError))
    else match Lookup(s.names, m[DESTINATION])
      case None => Step(s, None)
      case Some(c) =>
        if c !in writable then Step(s, Some(ConnectionError))
        else
          var r := Send(s, c, m, net);
          if r.raised.None? && SENDER !in m then Step(r.st, Some(KeyError)) else r
  }

  /** One iteration of the delivery loop with its `except Exception`
      handler: unlist the recipient's connection and unbind the recipient. */
  function DeliverOne(s: State, m: Dict, writable: seq<Conn>, net: Net): Step {
    var r := ProcessMessage(s, m, writable, net);
    if r.raised.None? then r
    else if DESTINATION !in m then Step(r.st, Some(KeyError))
    else if !Hashable(m[DESTINATION]) then Step(r.st, Some(TypeError))
    else match Lookup(r.st.names, m[DESTINATION])
      case None => Step(r.st, Some(KeyError))
      case Some(c) =>
        var r2 := Remove(r.st, c);
        if r2.raised.Some? then r2
        else Step(r2.st.(names := Unbind(r2.st.names, m[DESTINATION])), None)
  }

  function Deliver(s: State, ms: seq<Dict>, writable: seq<Conn>, net: Net): Step
    decreases |ms|
  {
    if ms == [] then Step(s, None)
    else
      var r := Deliver(s, ms[..|ms| - 1], writable, net);
      if r.raised.Some? then r else DeliverOne(r.st, ms[|ms| - 1], writable, net)
  }

  /** One pass of `main`'s `while True` loop after accept() and select(). */
  function Cycle(s: State, accepted: Option<Conn>, ready: seq<Incoming>, writable: seq<Conn>, net: Net): Step {
    var s0 := if accepted.Some? then s.(clients := s.clients + [accepted.value]) else s;
    var r := ReadPhase(s0, ready, net);
    if r.raised.Some? then r
    else
      var d := Deliver(r.st, r.st.messages, writable, net);
      if d.raised.Some? then d else Step(d.st.(messages := []), None)
  }

  predicate CycleInputs(s: State, accepted: Option<Conn>, ready: seq<Incoming>, writable: seq<Conn>) {
    var listed := if accepted.Some? then s.clients + [accepted.value] else s.clients;
    (accepted.Some? ==> accepted.value !in s.clients && accepted.value !in s.closed) &&
    (forall i :: 0 <= i < |ready| ==> ready[i].conn in listed) &&
    (forall c :: c in writable ==> c in listed)
  }

  lemma {:induction false} ReadPhaseStops(s: State, ready: seq<Incoming>, k: nat, net: Net)
    requires k <= |ready| && ReadPhase(s, ready[..k], net).raised.Some?
    ensures ReadPhase(s, ready, net) == ReadPhase(s, ready[..k], net)
    decreases |ready| - k
  {
    if k < |ready| {
      assert ready[..k + 1][..k] == ready[..k];
      ReadPhaseStops(s, ready, k + 1, net);
    } else {
      assert ready[..k] == ready;
    }
  }

  lemma {:induction false} DeliverStops(s: State, ms: seq<Dict>, k: nat, writable: seq<Conn>, net: Net)
    requires k <= |ms| && Deliver(s, ms[..k], writable, net).raised.Some?
    ensures Deliver(s, ms, writable, net) == Deliver(s, ms[..k], writable, net)
    decreases |ms| - k
  {
    if k < |ms| {
      assert ms[..k + 1][..k] == ms[..k];
      DeliverStops(s, ms, k + 1, writable, net);
    } else {
      assert ms[..k] == ms;
    }
  }

  // ---------------------------------------------------------------------
  // Routing

  /** A presence frame with a free name binds it to the requesting
      connection and answers 200; the other names keep their connections. */
  lemma PresenceRegisters(s: State, m: Dict, client: Conn, net: Net, name: Json)
    requires Valid(s) && IsPresence(m)
    requires Subscript(m[USER], ACCOUNT_NAME) == Ok(name)
    requires Hashable(name) && !Bound(s.names, name)
    requires client !in s.closed && client !in net.broken
    ensures var r := ProcessClientMessage(s, m, client, net);
      && r.raised == None
      && Lookup(r.st.names, name) == Some(client)
      && (forall other :: other != name ==> Lookup(r.st.names, other) == Lookup(s.names, other))
      && r.st.sent == s.sent + [Delivery(client, Response200)]
      && r.st.clients == s.clients && r.st.messages == s.messages && r.st.closed == s.closed
      && Valid(r.st)
  {
    var b := Binding(name, client);
    LookupAppend(s.names, b, name);
    forall other | other != name
      ensures Lookup(s.names + [b], other) == Lookup(s.names, other)
    {
      LookupAppend(s.names, b, other);
    }
    UniqueAppend(s.names, b);
  }

  /** A presence frame for a bound name is answered 400 "already exists";
      the requester is unlisted and closed and the names stay as they were. */
  lemma PresenceNameTaken(s: State, m: Dict, client: Conn, net: Net, name: Json)
    requires Valid(s) && IsPresence(m)
    requires Subscript(m[USER], ACCOUNT_NAME) == Ok(name)
    requires Hashable(name) && Bound(s.names, name)
    requires client in s.clients && client !in net.broken
    ensures var r := ProcessClientMessage(s, m, client, net);
      && r.raised == None
      && r.st.sent == s.sent + [Delivery(client, Response400(NAME_TAKEN))]
      && (forall c :: c in r.st.clients <==> c in s.clients && c != client)
      && r.st.closed == s.closed + {client}
      && r.st.names == s.names && r.st.messages == s.messages
      && Valid(r.st)
  {
    RemoveFirstSpec(s.clients, client);
  }

  /** A complete chat frame is queued and nothing is sent. */
  lemma ChatQueued(s: State, m: Dict, client: Conn, net: Net)
    requires IsChat(m)
    ensures ProcessClientMessage(s, m, client, net) == Step(s.(messages := s.messages + [m]), None)
  {
  }

  /** Exit unlists, closes and unbinds the connection of the named account. */
  lemma ExitTearsDown(s: State, m: Dict, client: Conn, net: Net, c: Conn)
    requires Valid(s) && IsExit(m) && Hashable(m[ACCOUNT_NAME])
    requires Lookup(s.names, m[ACCOUNT_NAME]) == Some(c) && c in s.clients
    ensures var r := ProcessClientMessage(s, m, client, net);
      && r.raised == None
      && (forall x :: x in r.st.clients <==> x in s.clients && x != c)
      && r.st.closed == s.closed + {c}
      && !Bound(r.st.names, m[ACCOUNT_NAME])
      && (forall n :: n != m[ACCOUNT_NAME] ==> Lookup(r.st.names, n) == Lookup(s.names, n))
      && r.st.clients == RemoveFirst(s.clients, c)
      && r.st.messages == s.messages
      && r.st.sent == s.sent
      && Valid(r.st)
  {
    var a := m[ACCOUNT_NAME];
    RemoveFirstSpec(s.clients, c);
    LookupUnbind(s.names, a, a);
    forall n | n != a ensures Lookup(Unbind(s.names, a), n) == Lookup(s.names, n) {
      LookupUnbind(s.names, a, n);
    }
    UniqueUnbind(s.names, a);
  }

  /** Anything that is not a presence, chat or exit frame is answered 400
      "Bad request". */
  lemma BadRequest(s: State, m: Dict, client: Conn, net: Net)
    requires !IsPresence(m) && !IsChat(m) && !IsExit(m)
    ensures var r := ProcessClientMessage(s, m, client, net);
      && r == Send(s, client, Response400(BAD_REQUEST), net)
      && (r.raised.None? <==> client !in s.closed && client !in net.broken)
      && r.st.clients == s.clients && r.st.names == s.names && r.st.messages == s.messages
  {
  }

  lemma ProcessClientMessageValid(s: State, m: Dict, client: Conn, net: Net)
    requires Valid(s)
    ensures Valid(ProcessClientMessage(s, m, client, net).st)
  {
    if IsPresence(m) {
      match Subscript(m[USER], ACCOUNT_NAME)
      case Raise(_) =>
      case Ok(name) =>
        if Hashable(name) && !Bound(s.names, name) {
          UniqueAppend(s.names, Binding(name, client));
        } else if Hashable(name) {
          RemoveFirstSpec(s.clients, client);
        }
    } else if !IsChat(m) && IsExit(m) {
      var a := m[ACCOUNT_NAME];
      if Hashable(a) && Bound(s.names, a) {
        RemoveFirstSpec(s.clients, Lookup(s.names, a).value);
        UniqueUnbind(s.names, a);
      }
    }
  }

  // ---------------------------------------------------------------------
  // Delivery and failures

  /** `process_message` writes only to a bound, writable recipient, raises
      ConnectionError for a bound recipient that is not writable, and does
      nothing for an unbound one. */
  lemma ProcessMessageRoutes(s: State, m: Dict, writable: seq<Conn>, net: Net)
    requires DESTINATION in m && SENDER in m && Hashable(m[DESTINATION])
    ensures var r := ProcessMessage(s, m, writable, net);
      match Lookup(s.names, m[DESTINATION])
      case None => r == Step(s, None)
      case Some(c) =>
        if c in writable then r == Send(s, c, m, net)
        else r == Step(s, Some(ConnectionError))
  {
  }

  /** A failed delivery unlists the recipient's connection and unbinds the
      recipient; nothing is sent and nothing is closed. */
  lemma DeliverFailureUnbinds(s: State, m: Dict, writable: seq<Conn>, net: Net, c: Conn)
    requires Valid(s) && DESTINATION in m && Hashable(m[DESTINATION])
    requires Lookup(s.names, m[DESTINATION]) == Some(c) && c in s.clients
    requires c !in writable || c in net.broken
    ensures var r := DeliverOne(s, m, writable, net);
      && r.raised == None
      && (forall x :: x in r.st.clients <==> x in s.clients && x != c)
      && !Bound(r.st.names, m[DESTINATION])
      && r.st.sent == s.sent && r.st.closed == s.closed
      && Valid(r.st)
  {
    RemoveFirstSpec(s.clients, c);
    LookupUnbind(s.names, m[DESTINATION], m[DESTINATION]);
    UniqueUnbind(s.names, m[DESTINATION]);
  }

  /** Any failure while reading or routing a frame unlists the connection
      but keeps every name bound to it. */
  lemma ReadFailureKeepsNames(s: State, c: Conn, e: Exc, net: Net)
    requires Valid(s) && c in s.clients && c !in net.peerless
    ensures var r := ReadOne(s, Incoming(c, Failed(e)), net);
      && r.raised == None
      && (forall x :: x in r.st.clients <==> x in s.clients && x != c)
      && r.st.names == s.names
      && r.st.messages == s.messages && r.st.sent == s.sent && r.st.closed == s.closed
  {
    RemoveFirstSpec(s.clients, c);
  }

  /** The binding such a failure leaves behind is fatal later: a chat for
      that name finds a connection that is neither listed nor writable, and
      the delivery handler's `clients.remove` raises ValueError, which
      nothing catches. */
  lemma StaleNameEndsServer(s: State, m: Dict, writable: seq<Conn>, net: Net, c: Conn)
    requires IsChat(m) && Hashable(m[DESTINATION])
    requires Lookup(s.names, m[DESTINATION]) == Some(c) && c !in s.clients && c !in writable
    ensures DeliverOne(s, m, writable, net) == Step(s, Some(ValueError))
  {
  }

  lemma ReadOneValid(s: State, inc: Incoming, net: Net)
    requires Valid(s)
    ensures Valid(ReadOne(s, inc, net).st)
  {
    var got := if inc.conn in s.closed then Failed(OSError(EBADF)) else inc.got;
    if got.Frame? {
      ProcessClientMessageValid(s, got.msg, inc.conn, net);
    }
    var r := match got
      case Frame(m) => ProcessClientMessage(s, m, inc.conn, net)
      case Failed(e) => Step(s, Some(e));
    RemoveFirstSpec(r.st.clients, inc.conn);
  }

  lemma {:induction false} ReadPhaseValid(s: State, ready: seq<Incoming>, net: Net)
    requires Valid(s)
    ensures Valid(ReadPhase(s, ready, net).st)
    decreases |ready|
  {
    if ready != [] {
      ReadPhaseValid(s, ready[..|ready| - 1], net);
      var r := ReadPhase(s, ready[..|ready| - 1], net);
      if r.raised.None? {
        ReadOneValid(r.st, ready[|ready| - 1], net);
      }
    }
  }

  lemma DeliverOneValid(s: State, m: Dict, writable: seq<Conn>, net: Net)
    requires Valid(s)
    ensures Valid(DeliverOne(s, m, writable, net).st)
  {
    var r := ProcessMessage(s, m, writable, net);
    if r.raised.Some? && DESTINATION in m && Hashable(m[DESTINATION]) && Bound(r.st.names, m[DESTINATION]) {
      RemoveFirstSpec(r.st.clients, Lookup(r.st.names, m[DESTINATION]).value);
      UniqueUnbind(r.st.names, m[DESTINATION]);
    }
  }

  lemma {:induction false} DeliverValid(s: State, ms: seq<Dict>, writable: seq<Conn>, net: Net)
    requires Valid(s)
    ensures Valid(Deliver(s, ms, writable, net).st)
    decreases |ms|
  {
    if ms != [] {
      DeliverValid(s, ms[..|ms| - 1], writable, net);
      var r := Deliver(s, ms[..|ms| - 1], writable, net);
      if r.raised.None? {
        DeliverOneValid(r.st, ms[|ms| - 1], writable, net);
      }
    }
  }

  /** Everything the delivery loop writes goes to a writable connection. */
  lemma {:induction false} DeliverOnlyToWritable(s: State, ms: seq<Dict>, writable: seq<Conn>, net: Net)
    ensures var r := Deliver(s, ms, writable, net);
      && s.sent <= r.st.sent
      && forall i :: |s.sent| <= i < |r.st.sent| ==> r.st.sent[i].to in writable && r.st.sent[i].body in ms
    decreases |ms|
  {
    if ms != [] {
      var init := ms[..|ms| - 1];
      DeliverOnlyToWritable(s, init, writable, net);
      var r := Deliver(s, init, writable, net);
      forall i | |s.sent| <= i < |r.st.sent| ensures r.st.sent[i].body in ms {
        assert r.st.sent[i].body in init;
      }
    }
  }

  /** A completed cycle leaves the queue empty, and keeps the state well
      formed whatever escapes. */
  lemma CycleDrainsQueue(s: State, accepted: Option<Conn>, ready: seq<Incoming>, writable: seq<Conn>, net: Net)
    requires Valid(s) && CycleInputs(s, accepted, ready, writable)
    ensures var r := Cycle(s, accepted, ready, writable, net);
      && (r.raised.None? ==> r.st.messages == [])
      && Valid(r.st)
  {
    var s0 := if accepted.Some? then s.(clients := s.clients + [accepted.value]) else s;
    ReadPhaseValid(s0, ready, net);
    var r := ReadPhase(s0, ready, net);
    if r.raised.None? {
      DeliverValid(r.st, r.st.messages, writable, net);
    }
  }
}

/** The collections of lesson_8/server.py's `main`, updated in place. */
module Lesson8Server {
  import opened Jim
  import opened Registry
  import opened Lesson8Router

  class Relay {
    var clients: seq<Conn>
    var names: Names
    var messages: seq<Dict>
    var closed: set<Conn>
    var sent: seq<Delivery>

    function Snapshot(): State
      reads this
    {
      State(clients, names, messages, closed, sent)
    }

    constructor ()
      ensures Snapshot() == Initial && Valid(Snapshot())
    {
      clients := [];
      names := [];
      messages := [];
      closed := {};
      sent := [];
    }

    method Send(c: Conn, body: Dict, net: Net) returns (raised: Option<Exc>)
      modifies this
      ensures Step(Snapshot(), raised) == Lesson8Router.Send(old(Snapshot()), c, body, net)
    {
      raised := SendError(closed, net, c);
      if raised.None? {
        sent := sent + [Delivery(c, body)];
      }
    }

    method RemoveClient(c: Conn) returns (raised: Option<Exc>)
      modifies this
      ensures Step(Snapshot(), raised) == Remove(old(Snapshot()), c)
    {
      if c in clients {
        clients := RemoveFirst(clients, c);
        raised := None;
      } else {
        raised := Some(ValueError);
      }
    }

    /** `process_client_message(message, messages, client, clients, names)`. */
    method ProcessClientMessage(m: Dict, client: Conn, net: Net) returns (raised: Option<Exc>)
      modifies this
      ensures Step(Snapshot(), raised) == Lesson8Router.ProcessClientMessage(old(Snapshot()), m, client, net)
    {
      if IsPresence(m) {
        var account := Subscript(m[USER], ACCOUNT_NAME);
        if account.Raise? {
          return Some(account.exc);
        }
        var name := account.value;
        if !Hashable(name) {
          return Some(TypeError);
        }
        if !Bound(names, name) {
          names := names + [Binding(name, client)];
          raised := Send(client, Response200, net);
        } else {
          raised := Send(client, Response400(NAME_TAKEN), net);
          if raised.Some? {
            return;
          }
          raised := RemoveClient(client);
          if raised.Some? {
            return;
          }
          closed := closed + {client};
        }
      } else if IsChat(m) {
        messages := messages + [m];
        raised := None;
      } else if IsExit(m) {
        var account := m[ACCOUNT_NAME];
        if !Hashable(account) {
          return Some(TypeError);
        }
        var c := Lookup(names, account);
        if c.None? {
          return Some(KeyError);
        }
        raised := RemoveClient(c.value);
        if raised.Some? {
          return;
        }
        closed := closed + {c.value};
        names := Unbind(names, account);
      } else {
        raised := Send(client, Response400(BAD_REQUEST), net);
      }
    }

    method ReadOne(inc: Incoming, net: Net) returns (raised: Option<Exc>)
      modifies this
      ensures Step(Snapshot(), raised) == Lesson8Router.ReadOne(old(Snapshot()), inc, net)
    {
      var c := inc.conn;
      var got := if c in closed then Failed(OSError(EBADF)) else inc.got;
      match got {
        case Frame(m) => raised := ProcessClientMessage(m, c, net);
        case Failed(e) => raised := Some(e);
      }
      if raised.Some? {
        raised := PeerError(closed, net, c);
        if raised.None? {
          raised := RemoveClient(c);
        }
      }
    }

    /** `process_message(message, names, listen_socks)`. */
    method ProcessMessage(m: Dict, writable: seq<Conn>, net: Net) returns (raised: Option<Exc>)
      modifies this
      ensures Step(Snapshot(), raised) == Lesson8Router.ProcessMessage(old(Snapshot()), m, writable, net)
    {
      if DESTINATION !in m {
        return Some(KeyError);
      }
      if !Hashable(m[DESTINATION]) {
        return Some(TypeError);
      }
      var c := Lookup(names, m[DESTINATION]);
      if c.None? {
        return None;
      }
      if c.value !in writable {
        return Some(ConnectionError);
      }
      raised := Send(c.value, m, net);
      if raised.None? && SENDER !in m {
        raised := Some(KeyError);
      }
    }

    method DeliverOne(m: Dict, writable: seq<Conn>, net: Net) returns (raised: Option<Exc>)
      modifies this
      ensures Step(Snapshot(), raised) == Lesson8Router.DeliverOne(old(Snapshot()), m, writable, net)
    {
      raised := ProcessMessage(m, writable, net);
      if raised.None? {
        return;
      }
      if DESTINATION !in m {
        return Some(KeyError);
      }
      var recipient := m[DESTINATION];
      if !Hashable(recipient) {
        return Some(TypeError);
      }
      var c := Lookup(names, recipient);
      if c.None? {
        return Some(KeyError);
      }
      raised := RemoveClient(c.value);
      if raised.Some? {
        return;
      }
      names := Unbind(names, recipient);
    }

    /** The read loop of `main`, each read with its handler. */
    method ReadAll(ready: seq<Incoming>, net: Net) returns (raised: Option<Exc>)
      modifies this
      ensures Step(Snapshot(), raised) == ReadPhase(old(Snapshot()), ready, net)
    {
      ghost var s0 := Snapshot();
      raised := None;
      var i := 0;
      while i < |ready|
        invariant 0 <= i <= |ready|
        invariant raised.None?
        invariant ReadPhase(s0, ready[..i], net) == Step(Snapshot(), None)
      {
        assert ready[..i + 1][..i] == ready[..i];
        ghost var before := Snapshot();
        assert ReadPhase(s0, ready[..i + 1], net) == Lesson8Router.ReadOne(before, ready[i], net);
        raised := ReadOne(ready[i], net);
        if raised.Some? {
          ReadPhaseStops(s0, ready, i + 1, net);
          return;
        }
        i := i + 1;
      }
      assert ready[..i] == ready;
    }

    /** The delivery loop of `main`, then `messages_list.clear()`. */
    method DeliverAll(writable: seq<Conn>, net: Net) returns (raised: Option<Exc>)
      modifies this
      ensures var d := Deliver(old(Snapshot()), old(messages), writable, net);
        Step(Snapshot(), raised) == if d.raised.Some? then d else Step(d.st.(messages := []), None)
    {
      ghost var s1 := Snapshot();
      var queue := messages;
      var j := 0;
      while j < |queue|
        invariant 0 <= j <= |queue|
        invariant Deliver(s1, queue[..j], writable, net) == Step(Snapshot(), None)
      {
        assert queue[..j + 1][..j] == queue[..j];
        ghost var before := Snapshot();
        assert Deliver(s1, queue[..j + 1], writable, net) == Lesson8Router.DeliverOne(before, queue[j], writable, net);
        raised := DeliverOne(queue[j], writable, net);
        if raised.Some? {
          DeliverStops(s1, queue, j + 1, writable, net);
          return;
        }
        j := j + 1;
      }
      assert queue[..j] == queue;
      messages := [];
      raised := None;
    }

    /** One pass of `main`'s `while True` loop. */
    method Cycle(accepted: Option<Conn>, ready: seq<Incoming>, writable: seq<Conn>, net: Net)
      returns (raised: Option<Exc>)
      requires Valid(Snapshot()) && CycleInputs(Snapshot(), accepted, ready, writable)
      modifies this
      ensures Step(Snapshot(), raised) == Lesson8Router.Cycle(old(Snapshot()), accepted, ready, writable, net)
      ensures Valid(Snapshot())
    {
      CycleDrainsQueue(Snapshot(), accepted, ready, writable, net);
      if accepted.Some? {
        clients := clients + [accepted.value];
      }
      raised := ReadAll(ready, net);
      if raised.Some? {
        return;
      }
      raised := DeliverAll(writable, net);
    }
  }
}
