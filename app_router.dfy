/** The message handling of the desktop application's server (the `Server`
    thread of app/server.py) as functions of the server's state.

    A dispatch cycle accepts at most one connection, reads one frame from
    each readable connection and routes it (`process_client_message`), then
    delivers the queued chat messages to the writable connections
    (`process_message`) and empties the queue. Each function returns the
    new state together with the exception that escaped, if one did; an
    exception escaping a cycle ends the thread. */
module AppRouter {
  import opened Jim
  import opened Registry

  /** The calls the server makes on its storage object, in order. */
  datatype StoreCall =
    | UserLogin(name: Json, ip: string, port: int)
    | UserLogout(name: Json)
    | CountMessage(sender: Json, recipient: Json)
    | AddContact(user: Json, contact: Json)
    | RemoveContact(user: Json, contact: Json)

  /** The server's fields (`clients`, `names`, `messages`) together with the
      observable effects: which connections it closed, the frames it wrote
      and the storage calls it made. */
  datatype State = State(
    clients: seq<Conn>,
    names: Names,
    messages: seq<Dict>,
    closed: set<Conn>,
    sent: seq<Delivery>,
    store: seq<StoreCall>)

  /** What the storage answers (contact lists, registered users) and what
      the network does. */
  datatype Env = Env(net: Net, contacts: map<Json, seq<Json>>, users: seq<Json>)

  /** The state after an operation and the exception that escaped it. */
  datatype Step = Step(st: State, raised: Option<Exc>)

  /** Names are unique (dictionary keys), no connection is listed twice, and
      a connection the server closed is no longer listed. */
  predicate Valid(s: State) {
    Unique(s.names) && NoDup(s.clients) && forall c :: c in s.clients ==> c !in s.closed
  }

  const Initial: State := State([], [], [], {}, [], [])

  function ContactsOf(env: Env, user: Json): seq<Json> {
    if user in env.contacts then env.contacts[user] else []
  }

  /** `send_json_message(c, body)`. */
  function Send(s: State, c: Conn, body: Dict, net: Net): Step {
    match SendError(s.closed, net, c)
    case Some(e) => Step(s, Some(e))
    case None => Step(s.(sent := s.sent + [Delivery(c, body)]), None)
  }

  /** `self.clients.remove(c)`. */
  function Remove(s: State, c: Conn): Step {
    if c in s.clients then Step(s.(clients := RemoveFirst(s.clients, c)), None)
    else Step(s, Some(ValueError))
  }

  /** `self.names[key] == client`, the test that guards the directory
      requests: the key must be hashable and bound. */
  function OwnedBy(ns: Names, key: Json, client: Conn): Result<bool> {
    if !Hashable(key) then Raise(TypeError)
    else match Lookup(ns, key)
      case None => Raise(KeyError)
      case Some(c) => Ok(c == client)
  }

  /** The presence branch once `message[USER][ACCOUNT_NAME]` has been
      evaluated to name. */
  function Presence(s: State, name: Json, client: Conn, net: Net): Step {
    if !Hashable(name) then Step(s, Some(TypeError))
    else if !Bound(s.names, name) then
      var s1 := s.(names := s.names + [Binding(name, client)]);
      match PeerError(s1.closed, net, client)
      case Some(e) => Step(s1, Some(e))
      case None =>
        Send(s1.(store := s1.store + [UserLogin(name, client.ip, client.port)]), client, Response200, net)
    else
      var r1 := Send(s, client, Response400(NAME_TAKEN), net);
      if r1.raised.Some? then r1
      else
        var r2 := Remove(r1.st, client);
        if r2.raised.Some? then r2
        else Step(r2.st.(closed := r2.st.closed + {client}), None)
  }

  /** The exit branch: the storage logout comes first, then the connection
      bound to the account is unlisted, closed and unbound. */
  function Exit(s: State, account: Json): Step {
    var s1 := s.(store := s.store + [UserLogout(account)]);
    if !Hashable(account) then Step(s1, Some(TypeError))
    else match Lookup(s1.names, account)
      case None => Step(s1, Some(KeyError))
      case Some(c) =>
        var r := Remove(s1, c);
        if r.raised.Some? then r
        else Step(r.st.(closed := r.st.closed + {c}, names := Unbind(r.st.names, account)), None)
  }

  /** A directory request that passed its shape test: served when the
      requesting connection owns the name, refused with "Bad request"
      otherwise (every later branch tests a different action, so control
      reaches the final else). */
  function Guarded(s: State, key: Json, client: Conn, served: Step, net: Net): Step {
    match OwnedBy(s.names, key, client)
    case Raise(e) => Step(s, Some(e))
    case Ok(owns) => if owns then served else Send(s, client, Response400(BAD_REQUEST), net)
  }

  /** `process_client_message(message, client)`. */
  function ProcessClientMessage(s: State, m: Dict, client: Conn, env: Env): Step {
    if IsPresence(m) then
      match Subscript(m[USER], ACCOUNT_NAME)
      case Raise(e) => Step(s, Some(e))
      case Ok(name) => Presence(s, name, client, env.net)
    else if IsChat(m) then
      Step(s.(messages := s.messages + [m], store := s.store + [CountMessage(m[SENDER], m[DESTINATION])]), None)
    else if IsExit(m) then
      Exit(s, m[ACCOUNT_NAME])
    else if IsGetContacts(m) then
      Guarded(s, m[USER], client, Send(s, client, Response202(ContactsOf(env, m[USER])), env.net), env.net)
    else if IsAddContact(m) then
      Guarded(s, m[USER], client,
        Send(s.(store := s.store + [AddContact(m[USER], m[ACCOUNT_NAME])]), client, Response200, env.net), env.net)
    else if IsRemoveContact(m) then
      Guarded(s, m[USER], client,
        Send(s.(store := s.store + [RemoveContact(m[USER], m[ACCOUNT_NAME])]), client, Response200, env.net), env.net)
    else if IsUsersRequest(m) then
      Guarded(s, m[ACCOUNT_NAME], client, Send(s, client, Response202(env.users), env.net), env.net)
    else
      Send(s, client, Response400(BAD_REQUEST), env.net)
  }

  /** The `except OSError` handler of the read phase: log the peer address,
      log out and unbind the first name bound to the connection, unlist it. */
  function Disconnect(s: State, c: Conn, net: Net): Step {
    match PeerError(s.closed, net, c)
    case Some(e) => Step(s, Some(e))
    case None =>
      var s1 := match FirstNameOf(s.names, c)
        case None => s
        case Some(n) => s.(store := s.store + [UserLogout(n)], names := Unbind(s.names, n));
      Remove(s1, c)
  }

  /** One iteration of the read loop. Reading a connection the server closed
      earlier in the same cycle fails with EBADF whatever the peer sent. */
  function ReadOne(s: State, inc: Incoming, env: Env): Step {
    var got := if inc.conn in s.closed then Failed(OSError(EBADF)) else inc.got;
    var r := match got
      case Frame(m) => ProcessClientMessage(s, m, inc.conn, env)
      case Failed(e) => Step(s, Some(e));
    if r.raised.Some? && IsOSError(r.raised.value) then Disconnect(r.st, inc.conn, env.net)
    else r
  }

  /** The read loop over the readable connections, as a left fold. */
  function ReadPhase(s: State, ready: seq<Incoming>, env: Env): Step
    decreases |ready|
  {
    if ready == [] then Step(s, None)
    else
      var r := ReadPhase(s, ready[..|ready| - 1], env);
      if r.raised.Some? then r else ReadOne(r.st, ready[|ready| - 1], env)
  }

  /** Once an iteration of the read loop raises, the rest of the loop does
      not run. */
  lemma {:induction false} ReadPhaseStops(s: State, ready: seq<Incoming>, k: nat, env: Env)
    requires k <= |ready| && ReadPhase(s, ready[..k], env).raised.Some?
    ensures ReadPhase(s, ready, env) == ReadPhase(s, ready[..k], env)
    decreases |ready| - k
  {
    if k < |ready| {
      assert ready[..k + 1][..k] == ready[..k];
      ReadPhaseStops(s, ready, k + 1, env);
    } else {
      assert ready[..k] == ready;
    }
  }

  /** `process_message(message, listen_socks)`. */
  function ProcessMessage(s: State, m: Dict, writable: seq<Conn>, net: Net): Step {
    if DESTINATION !in m then Step(s, Some(KeyError))
    else if !Hashable(m[DESTINATION]) then Step(s, Some(TypeError))
    else match Lookup(s.names, m[DESTINATION])
      case None => Step(s, None)
      case Some(c) =>
        if c !in writable then Step(s, Some(ConnectionError))
        else
          var r := Send(s, c, m, net);
          if r.raised.None? && SENDER !in m then Step(r.st, Some(KeyError)) else r
  }

  /** One iteration of the delivery loop with its bare `except:` handler:
      unlist the recipient's connection, log the recipient out, unbind it.
      The connection is not closed. */
  function DeliverOne(s: State, m: Dict, writable: seq<Conn>, net: Net): Step {
    var r := ProcessMessage(s, m, writable, net);
    if r.raised.None? then r
    else if DESTINATION !in m then Step(r.st, Some(KeyError))
    else if !Hashable(m[DESTINATION]) then Step(r.st, Some(TypeError))
    else match Lookup(r.st.names, m[DESTINATION])
      case None => Step(r.st, Some(KeyError))
      case Some(c) =>
        var r2 := Remove(r.st, c);
        if r2.raised.Some? then r2
        else
          Step(r2.st.(store := r2.st.store + [UserLogout(m[DESTINATION])],
                      names := Unbind(r2.st.names, m[DESTINATION])), None)
  }

  /** The delivery loop over a list of messages, as a left fold. */
  function Deliver(s: State, ms: seq<Dict>, writable: seq<Conn>, net: Net): Step
    decreases |ms|
  {
    if ms == [] then Step(s, None)
    else
      var r := Deliver(s, ms[..|ms| - 1], writable, net);
      if r.raised.Some? then r else DeliverOne(r.st, ms[|ms| - 1], writable, net)
  }

  /** Once an iteration of the delivery loop raises, the rest of the loop
      does not run. */
  lemma {:induction false} DeliverStops(s: State, ms: seq<Dict>, k: nat, writable: seq<Conn>, net: Net)
    requires k <= |ms| && Deliver(s, ms[..k], writable, net).raised.Some?
    ensures Deliver(s, ms, writable, net) == Deliver(s, ms[..k], writable, net)
    decreases |ms| - k
  {
    if k < |ms| {
      assert ms[..k + 1][..k] == ms[..k];
      DeliverStops(s, ms, k + 1, writable, net);
    } else {
      assert ms[..k] == ms;
    }
  }

  /** The delivery loop over the queue, then `self.messages.clear()`. */
  function DeliveryPhase(s: State, writable: seq<Conn>, net: Net): Step {
    var r := Deliver(s, s.messages, writable, net);
    if r.raised.Some? then r else Step(r.st.(messages := []), None)
  }

  /** One pass of the `while True` loop of `run`: the connection accept()
      returned (if any), the readable connections with what reading each
      yields, and the writable connections select() reported. */
  function Cycle(s: State, accepted: Option<Conn>, ready: seq<Incoming>, writable: seq<Conn>, env: Env): Step {
    var s0 := if accepted.Some? then s.(clients := s.clients + [accepted.value]) else s;
    var r := ReadPhase(s0, ready, env);
    if r.raised.Some? then r else DeliveryPhase(r.st, writable, env.net)
  }

  /** select() reports only listed connections, and accept() returns a
      connection that is neither listed nor closed. */
  predicate CycleInputs(s: State, accepted: Option<Conn>, ready: seq<Incoming>, writable: seq<Conn>) {
    var listed := if accepted.Some? then s.clients + [accepted.value] else s.clients;
    (accepted.Some? ==> accepted.value !in s.clients && accepted.value !in s.closed) &&
    (forall i :: 0 <= i < |ready| ==> ready[i].conn in listed) &&
    (forall c :: c in writable ==> c in listed)
  }

  // ---------------------------------------------------------------------
  // Registration

  /** A presence frame with a free, hashable name binds that name to the
      requesting connection, records the login with the peer address and
      answers 200; nothing else changes. */
  lemma PresenceRegisters(s: State, m: Dict, client: Conn, env: Env, name: Json)
    requires Valid(s) && IsPresence(m)
    requires Subscript(m[USER], ACCOUNT_NAME) == Ok(name)
    requires Hashable(name) && !Bound(s.names, name)
    requires client !in s.closed && client !in env.net.broken && client !in env.net.peerless
    ensures var r := ProcessClientMessage(s, m, client, env);
      && r.raised == None
      && Lookup(r.st.names, name) == Some(client)
      && (forall other :: other != name ==> Lookup(r.st.names, other) == Lookup(s.names, other))
      && r.st.store == s.store + [UserLogin(name, client.ip, client.port)]
      && r.st.sent == s.sent + [Delivery(client, Response200)]
      && r.st.clients == s.clients && r.st.messages == s.messages && r.st.closed == s.closed
      && Valid(r.st)
  {
    var b := Binding(name, client);
    LookupAppend(s.names, b, name);
    forall other | other != name
      ensures Lookup(s.names + [b], other) == Lookup(s.names, other)
    {
      LookupAppend(s.names, b, other);
    }
    UniqueAppend(s.names, b);
  }

  /** A presence frame never rebinds a name that is already bound, whatever
      else happens. */
  lemma PresenceKeepsBindings(s: State, m: Dict, client: Conn, env: Env, n: Json)
    requires IsPresence(m) && Bound(s.names, n)
    ensures Lookup(ProcessClientMessage(s, m, client, env).st.names, n) == Lookup(s.names, n)
  {
    match Subscript(m[USER], ACCOUNT_NAME)
    case Raise(_) =>
    case Ok(name) =>
      if Hashable(name) && !Bound(s.names, name) {
        LookupAppend(s.names, Binding(name, client), n);
      }
  }

  /** A presence frame for a name already in use is answered 400 with the
      "already exists" text, and the requesting connection is unlisted and
      closed; the bindings stay as they were. */
  lemma PresenceNameTaken(s: State, m: Dict, client: Conn, env: Env, name: Json)
    requires Valid(s) && IsPresence(m)
    requires Subscript(m[USER], ACCOUNT_NAME) == Ok(name)
    requires Hashable(name) && Bound(s.names, name)
    requires client in s.clients && client !in env.net.broken
    ensures var r := ProcessClientMessage(s, m, client, env);
      && r.raised == None
      && r.st.sent == s.sent + [Delivery(client, Response400(NAME_TAKEN))]
      && (forall c :: c in r.st.clients <==> c in s.clients && c != client)
      && r.st.closed == s.closed + {client}
      && r.st.names == s.names && r.st.store == s.store && r.st.messages == s.messages
      && Valid(r.st)
  {
    RemoveFirstSpec(s.clients, client);
  }

  // ---------------------------------------------------------------------
  // Routing

  /** A complete chat frame is queued (not sent) and counted in storage. */
  lemma ChatQueued(s: State, m: Dict, client: Conn, env: Env)
    requires IsChat(m)
    ensures ProcessClientMessage(s, m, client, env)
      == Step(s.(messages := s.messages + [m], store := s.store + [CountMessage(m[SENDER], m[DESTINATION])]), None)
  {
  }

  /** A frame that matches none of the branches is answered with 400
      "Bad request" and changes nothing else. */
  lemma BadRequest(s: State, m: Dict, client: Conn, env: Env)
    requires !IsPresence(m) && !IsChat(m) && !IsExit(m)
    requires !IsGetContacts(m) && !IsAddContact(m) && !IsRemoveContact(m) && !IsUsersRequest(m)
    ensures var r := ProcessClientMessage(s, m, client, env);
      && r == Send(s, client, Response400(BAD_REQUEST), env.net)
      && (r.raised.None? <==> client !in s.closed && client !in env.net.broken)
      && r.st.clients == s.clients && r.st.names == s.names && r.st.messages == s.messages
  {
  }

  /** An exit frame logs out the account it names and tears down the
      connection bound to that account, whichever connection sent it. */
  lemma ExitLogsOut(s: State, m: Dict, client: Conn, other: Conn, env: Env, c: Conn)
    requires Valid(s) && IsExit(m) && Hashable(m[ACCOUNT_NAME])
    requires Lookup(s.names, m[ACCOUNT_NAME]) == Some(c) && c in s.clients
    ensures var r := ProcessClientMessage(s, m, client, env);
      && r == ProcessClientMessage(s, m, other, env)
      && r.raised == None
      && r.st.store == s.store + [UserLogout(m[ACCOUNT_NAME])]
      && (forall x :: x in r.st.clients <==> x in s.clients && x != c)
      && r.st.closed == s.closed + {c}
      && !Bound(r.st.names, m[ACCOUNT_NAME])
      && (forall n :: n != m[ACCOUNT_NAME] ==> Lookup(r.st.names, n) == Lookup(s.names, n))
      && r.st.clients == RemoveFirst(s.clients, c)
      && r.st.messages == s.messages
      && r.st.sent == s.sent
      && Valid(r.st)
  {
    var a := m[ACCOUNT_NAME];
    RemoveFirstSpec(s.clients, c);
    LookupUnbind(s.names, a, a);
    forall n | n != a ensures Lookup(Unbind(s.names, a), n) == Lookup(s.names, n) {
      LookupUnbind(s.names, a, n);
    }
    UniqueUnbind(s.names, a);
  }

  /** An exit frame for an account nobody holds still records the logout,
      then raises KeyError, which the read phase does not catch. */
  lemma ExitUnknownAccount(s: State, m: Dict, client: Conn, env: Env)
    requires IsExit(m) && Hashable(m[ACCOUNT_NAME]) && !Bound(s.names, m[ACCOUNT_NAME])
    ensures ProcessClientMessage(s, m, client, env)
      == Step(s.(store := s.store + [UserLogout(m[ACCOUNT_NAME])]), Some(KeyError))
  {
  }

  /** The name a directory request is checked against. */
  function DirectoryKey(m: Dict): Json
    requires IsGetContacts(m) || IsAddContact(m) || IsRemoveContact(m) || IsUsersRequest(m)
  {
    if IsUsersRequest(m) then m[ACCOUNT_NAME] else m[USER]
  }

  /** Directory requests are checked against the name they carry: an
      unhashable name raises TypeError, an unbound one KeyError, and a name
      bound to another connection is refused with "Bad request". */
  lemma DirectoryNeedsOwner(s: State, m: Dict, client: Conn, env: Env)
    requires IsGetContacts(m) || IsAddContact(m) || IsRemoveContact(m) || IsUsersRequest(m)
    ensures var key := DirectoryKey(m);
      var r := ProcessClientMessage(s, m, client, env);
      && (!Hashable(key) ==> r == Step(s, Some(TypeError)))
      && (Hashable(key) && !Bound(s.names, key) ==> r == Step(s, Some(KeyError)))
      && (Hashable(key) && Bound(s.names, key) && Lookup(s.names, key) != Some(client) ==>
            r == Send(s, client, Response400(BAD_REQUEST), env.net))
  {
  }

  /** The owner of a name is served: contacts and users come back as a 202
      list, additions and removals are stored and answered 200. */
  lemma DirectoryServed(s: State, m: Dict, client: Conn, env: Env)
    requires IsGetContacts(m) || IsAddContact(m) || IsRemoveContact(m) || IsUsersRequest(m)
    requires Hashable(DirectoryKey(m)) && Lookup(s.names, DirectoryKey(m)) == Some(client)
    ensures var r := ProcessClientMessage(s, m, client, env);
      && (IsGetContacts(m) ==> r == Send(s, client, Response202(ContactsOf(env, m[USER])), env.net))
      && (IsAddContact(m) ==>
            r == Send(s.(store := s.store + [AddContact(m[USER], m[ACCOUNT_NAME])]), client, Response200, env.net))
      && (IsRemoveContact(m) ==>
            r == Send(s.(store := s.store + [RemoveContact(m[USER], m[ACCOUNT_NAME])]), client, Response200, env.net))
      && (IsUsersRequest(m) ==> r == Send(s, client, Response202(env.users), env.net))
  {
  }

  /** Routing keeps the server's state well formed, whatever escapes. */
  lemma ProcessClientMessageValid(s: State, m: Dict, client: Conn, env: Env)
    requires Valid(s)
    ensures Valid(ProcessClientMessage(s, m, client, env).st)
  {
    if IsPresence(m) {
      match Subscript(m[USER], ACCOUNT_NAME)
      case Raise(_) =>
      case Ok(name) =>
        if Hashable(name) && !Bound(s.names, name) {
          UniqueAppend(s.names, Binding(name, client));
        } else if Hashable(name) {
          RemoveFirstSpec(s.clients, client);
        }
    } else if !IsChat(m) && IsExit(m) {
      var a := m[ACCOUNT_NAME];
      if Hashable(a) && Bound(s.names, a) {
        RemoveFirstSpec(s.clients, Lookup(s.names, a).value);
        UniqueUnbind(s.names, a);
      }
    }
  }

  // ---------------------------------------------------------------------
  // Read failures

  /** A read that fails with an OSError unlists the connection and logs out
      and unbinds the first name bound to it, if any. */
  lemma ReadFailureTearsDown(s: State, c: Conn, e: Exc, env: Env)
    requires Valid(s) && IsOSError(e) && c in s.clients && c !in env.net.peerless
    ensures var r := ReadOne(s, Incoming(c, Failed(e)), env);
      && r.raised == None
      && (forall x :: x in r.st.clients <==> x in s.clients && x != c)
      && r.st.messages == s.messages && r.st.sent == s.sent && r.st.closed == s.closed
      && (FirstNameOf(s.names, c).None? ==> r.st.names == s.names && r.st.store == s.store)
      && (FirstNameOf(s.names, c).Some? ==>
            var n := FirstNameOf(s.names, c).value;
            && Lookup(s.names, n) == Some(c)
            && r.st.names == Unbind(s.names, n)
            && r.st.store == s.store + [UserLogout(n)])
      && Valid(r.st)
  {
    RemoveFirstSpec(s.clients, c);
    FirstNameOfBound(s.names, c);
    if FirstNameOf(s.names, c).Some? {
      UniqueUnbind(s.names, FirstNameOf(s.names, c).value);
    }
  }

  /** Only OSError is caught around a read: any other exception, from the
      codec or from routing, ends the server thread. */
  lemma ReadOtherErrorEndsRun(s: State, c: Conn, m: Dict, env: Env)
    requires c !in s.closed
    requires var r := ProcessClientMessage(s, m, c, env); r.raised.Some? && !IsOSError(r.raised.value)
    ensures ReadOne(s, Incoming(c, Frame(m)), env) == ProcessClientMessage(s, m, c, env)
  {
  }

  lemma ReadOneValid(s: State, inc: Incoming, env: Env)
    requires Valid(s)
    ensures Valid(ReadOne(s, inc, env).st)
  {
    var got := if inc.conn in s.closed then Failed(OSError(EBADF)) else inc.got;
    var r := match got
      case Frame(m) => ProcessClientMessage(s, m, inc.conn, env)
      case Failed(e) => Step(s, Some(e));
    if got.Frame? {
      ProcessClientMessageValid(s, got.msg, inc.conn, env);
    }
    if r.raised.Some? && IsOSError(r.raised.value) {
      var t := r.st;
      if PeerError(t.closed, env.net, inc.conn).None? {
        if FirstNameOf(t.names, inc.conn).Some? {
          UniqueUnbind(t.names, FirstNameOf(t.names, inc.conn).value);
        }
        RemoveFirstSpec(t.clients, inc.conn);
      }
    }
  }

  lemma {:induction false} ReadPhaseValid(s: State, ready: seq<Incoming>, env: Env)
    requires Valid(s)
    ensures Valid(ReadPhase(s, ready, env).st)
    decreases |ready|
  {
    if ready != [] {
      ReadPhaseValid(s, ready[..|ready| - 1], env);
      var r := ReadPhase(s, ready[..|ready| - 1], env);
      if r.raised.None? {
        ReadOneValid(r.st, ready[|ready| - 1], env);
      }
    }
  }

  // ---------------------------------------------------------------------
  // Delivery

  /** A queued message whose recipient is bound to a writable, healthy
      connection is written to that connection and to no other. */
  lemma DeliverToRecipient(s: State, m: Dict, writable: seq<Conn>, net: Net, c: Conn)
    requires DESTINATION in m && SENDER in m && Hashable(m[DESTINATION])
    requires Lookup(s.names, m[DESTINATION]) == Some(c)
    requires c in writable && c !in s.closed && c !in net.broken
    ensures DeliverOne(s, m, writable, net) == Step(s.(sent := s.sent + [Delivery(c, m)]), None)
  {
  }

  /** A message for a name nobody holds is dropped. */
  lemma DeliverUnknownDropped(s: State, m: Dict, writable: seq<Conn>, net: Net)
    requires DESTINATION in m && Hashable(m[DESTINATION]) && !Bound(s.names, m[DESTINATION])
    ensures DeliverOne(s, m, writable, net) == Step(s, None)
  {
  }

  /** A message for a recipient whose connection is not writable, or whose
      send fails, costs the recipient its session: the connection is
      unlisted (not closed), the name logged out and unbound, and nothing is
      sent. */
  lemma DeliverFailureLogsOut(s: State, m: Dict, writable: seq<Conn>, net: Net, c: Conn)
    requires Valid(s) && DESTINATION in m && Hashable(m[DESTINATION])
    requires Lookup(s.names, m[DESTINATION]) == Some(c) && c in s.clients
    requires c !in writable || c in net.broken
    ensures var r := DeliverOne(s, m, writable, net);
      && r.raised == None
      && (forall x :: x in r.st.clients <==> x in s.clients && x != c)
      && !Bound(r.st.names, m[DESTINATION])
      && r.st.store == s.store + [UserLogout(m[DESTINATION])]
      && r.st.sent == s.sent && r.st.closed == s.closed
      && Valid(r.st)
  {
    RemoveFirstSpec(s.clients, c);
    LookupUnbind(s.names, m[DESTINATION], m[DESTINATION]);
    UniqueUnbind(s.names, m[DESTINATION]);
  }

  lemma DeliverOneValid(s: State, m: Dict, writable: seq<Conn>, net: Net)
    requires Valid(s)
    ensures Valid(DeliverOne(s, m, writable, net).st)
  {
    var r := ProcessMessage(s, m, writable, net);
    if r.raised.Some? && DESTINATION in m && Hashable(m[DESTINATION]) && Bound(r.st.names, m[DESTINATION]) {
      RemoveFirstSpec(r.st.clients, Lookup(r.st.names, m[DESTINATION]).value);
      UniqueUnbind(r.st.names, m[DESTINATION]);
    }
  }

  /** Everything the delivery loop writes goes to a writable connection and
      is one of the messages it was given; earlier writes stay as they were. */
  lemma {:induction false} DeliverOnlyToWritable(s: State, ms: seq<Dict>, writable: seq<Conn>, net: Net)
    ensures var r := Deliver(s, ms, writable, net);
      && s.sent <= r.st.sent
      && forall i :: |s.sent| <= i < |r.st.sent| ==> r.st.sent[i].to in writable && r.st.sent[i].body in ms
    decreases |ms|
  {
    if ms != [] {
      var init := ms[..|ms| - 1];
      DeliverOnlyToWritable(s, init, writable, net);
      var r := Deliver(s, init, writable, net);
      forall i | |s.sent| <= i < |r.st.sent| ensures r.st.sent[i].body in ms {
        assert r.st.sent[i].body in init;
      }
    }
  }

  lemma {:induction false} DeliverValid(s: State, ms: seq<Dict>, writable: seq<Conn>, net: Net)
    requires Valid(s)
    ensures Valid(Deliver(s, ms, writable, net).st)
    decreases |ms|
  {
    if ms != [] {
      DeliverValid(s, ms[..|ms| - 1], writable, net);
      var r := Deliver(s, ms[..|ms| - 1], writable, net);
      if r.raised.None? {
        DeliverOneValid(r.st, ms[|ms| - 1], writable, net);
      }
    }
  }

  // ---------------------------------------------------------------------
  // The dispatch cycle

  /** A cycle that completes leaves the queue empty, and every frame the
      delivery phase wrote went to a connection select() reported
      writable. */
  lemma CycleDrainsQueue(s: State, accepted: Option<Conn>, ready: seq<Incoming>, writable: seq<Conn>, env: Env)
    ensures var r := Cycle(s, accepted, ready, writable, env);
      r.raised.None? ==> r.st.messages == []
    ensures var s0 := if accepted.Some? then s.(clients := s.clients + [accepted.value]) else s;
      var mid := ReadPhase(s0, ready, env);
      var r := Cycle(s, accepted, ready, writable, env);
      mid.raised.None? ==>
        && mid.st.sent <= r.st.sent
        && forall i :: |mid.st.sent| <= i < |r.st.sent| ==> r.st.sent[i].to in writable
  {
    var s0 := if accepted.Some? then s.(clients := s.clients + [accepted.value]) else s;
    var mid := ReadPhase(s0, ready, env);
    if mid.raised.None? {
      DeliverOnlyToWritable(mid.st, mid.st.messages, writable, env.net);
    }
  }

  /** A cycle keeps the server's state well formed. */
  lemma CycleValid(s: State, accepted: Option<Conn>, ready: seq<Incoming>, writable: seq<Conn>, env: Env)
    requires Valid(s) && CycleInputs(s, accepted, ready, writable)
    ensures Valid(Cycle(s, accepted, ready, writable, env).st)
  {
    var s0 := if accepted.Some? then s.(clients := s.clients + [accepted.value]) else s;
    ReadPhaseValid(s0, ready, env);
    var r := ReadPhase(s0, ready, env);
    if r.raised.None? {
      DeliverValid(r.st, r.st.messages, writable, env.net);
    }
  }
}
