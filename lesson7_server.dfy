/** The lesson 7 server (lesson_7/server.py): a broadcast relay. Only the
    guest may announce itself, chat frames are queued as (account, text)
    pairs, and each cycle sends at most one queued message, oldest first, to
    every writable client. */
module Lesson7Router {
  import opened Jim
  import opened Registry

  /** A queued chat: `(message[ACCOUNT_NAME], message[MESSAGE_TEXT])`. */
  datatype Pending = Pending(account: Json, text: Json)

  // The lemmas about the read loop (ReadPhaseStops, the ...Valid lemmas and
  // so on) have the same shape as AppRouter's, and are proved again here
  // because they are about this module's own State and step functions,
  // which differ from the app server's in what they catch and change.

  /** `main`'s `clients` and `messages` plus the connections closed and the
      frames sent. */
  datatype State = State(clients: seq<Conn>, messages: seq<Pending>, closed: set<Conn>, sent: seq<Delivery>)

  /** The new state, the value a call returned and the exception that
      escaped it. */
  datatype Step = Step(st: State, ret: Option<Dict>, raised: Option<Exc>)

  predicate Valid(s: State) {
    NoDup(s.clients) && forall c :: c in s.clients ==> c !in s.closed
  }

  const Initial: State := State([], [], {}, [])

  function Send(s: State, c: Conn, body: Dict, net: Net): Step {
    match SendError(s.closed, net, c)
    case Some(e) => Step(s, None, Some(e))
    case None => Step(s.(sent := s.sent + [Delivery(c, body)]), None, None)
  }

  function Remove(s: State, c: Conn): Step {
    if c in s.clients then Step(s.(clients := RemoveFirst(s.clients, c)), None, None)
    else Step(s, None, Some(ValueError))
  }

  /** `process_client_message(message, messages_list, client)`. */
  function ProcessClientMessage(s: State, m: Dict, client: Conn, net: Net): Step {
    match GuestPresence(m)
    case Raise(e) => Step(s, None, Some(e))
    case Ok(guest) =>
      if guest then Send(s, client, Response200, net)
      else if Is(m, ACTION, MESSAGE) && TIME in m && MESSAGE_TEXT in m then
        if ACCOUNT_NAME in m then
          Step(s.(messages := s.messages + [Pending(m[ACCOUNT_NAME], m[MESSAGE_TEXT])]), None, None)
        else Step(s, None, Some(KeyError))
      else Step(s, Some(BadRequestReply), None)
  }

  /** One iteration of the read loop with its bare `except:` handler. */
  function ReadOne(s: State, inc: Incoming, net: Net): Step {
    var got := if inc.conn in s.closed then Failed(OSError(EBADF)) else inc.got;
    var r := match got
      case Frame(m) => ProcessClientMessage(s, m, inc.conn, net)
      case Failed(e) => Step(s, None, Some(e));
    if r.raised.None? then Step(r.st, None, None)
    else match PeerError(r.st.closed, net, inc.conn)
      case Some(e) => Step(r.st, None, Some(e))
      case None => Remove(r.st, inc.conn)
  }

  function ReadPhase(s: State, ready: seq<Incoming>, net: Net): Step
    decreases |ready|
  {
    if ready == [] then Step(s, None, None)
    else
      var r := ReadPhase(s, ready[..|ready| - 1], net);
      if r.raised.Some? then r else ReadOne(r.st, ready[|ready| - 1], net)
  }

  /** The frame built from a queued chat. */
  function Outgoing(p: Pending, now: Json): Dict {
    map[ACTION := JStr(MESSAGE), SENDER_L7 := p.account, TIME := now, MESSAGE_TEXT := p.text]
  }

  /** One iteration of the broadcast loop: a client whose send fails is
      closed and unlisted. */
  function SendOne(s: State, msg: Dict, c: Conn, net: Net): Step {
    var r := Send(s, c, msg, net);
    if r.raised.None? then r
    else match PeerError(r.st.closed, net, c)
      case Some(e) => Step(r.st, None, Some(e))
      case None => Remove(r.st.(closed := r.st.closed + {c}), c)
  }

  function SendAll(s: State, msg: Dict, ws: seq<Conn>, net: Net): Step
    decreases |ws|
  {
    if ws == [] then Step(s, None, None)
    else
      var r := SendAll(s, msg, ws[..|ws| - 1], net);
      if r.raised.Some? then r else SendOne(r.st, msg, ws[|ws| - 1], net)
  }

  /** The broadcast phase: when there is a queued chat and a writable
      client, dequeue the oldest chat and send it to every writable client. */
  function Broadcast(s: State, writable: seq<Conn>, now: Json, net: Net): Step {
    if s.messages == [] || writable == [] then Step(s, None, None)
    else SendAll(s.(messages := s.messages[1..]), Outgoing(s.messages[0], now), writable, net)
  }

  /** One pass of `main`'s `while True` loop after accept() and select();
      now is the `time.time()` stamped on the broadcast. */
  function Cycle(s: State, accepted: Option<Conn>, ready: seq<Incoming>, writable: seq<Conn>, now: Json, net: Net): Step {
    var s0 := if accepted.Some? then s.(clients := s.clients + [accepted.value]) else s;
    var r := ReadPhase(s0, ready, net);
    if r.raised.Some? then r else Broadcast(r.st, writable, now, net)
  }

  /** The deliveries a broadcast of msg to ws makes: one per client whose
      send does not fail, in order. */
  function Reached(ws: seq<Conn>, broken: set<Conn>, msg: Dict): seq<Delivery>
    decreases |ws|
  {
    if ws == [] then []
    else
      var last := ws[|ws| - 1];
      Reached(ws[..|ws| - 1], broken, msg) + (if last in broken then [] else [Delivery(last, msg)])
  }

  lemma {:induction false} ReadPhaseStops(s: State, ready: seq<Incoming>, k: nat, net: Net)
    requires k <= |ready| && ReadPhase(s, ready[..k], net).raised.Some?
    ensures ReadPhase(s, ready, net) == ReadPhase(s, ready[..k], net)
    decreases |ready| - k
  {
    if k < |ready| {
      assert ready[..k + 1][..k] == ready[..k];
      ReadPhaseStops(s, ready, k + 1, net);
    } else {
      assert ready[..k] == ready;
    }
  }

  lemma {:induction false} SendAllStops(s: State, msg: Dict, ws: seq<Conn>, k: nat, net: Net)
    requires k <= |ws| && SendAll(s, msg, ws[..k], net).raised.Some?
    ensures SendAll(s, msg, ws, net) == SendAll(s, msg, ws[..k], net)
    decreases |ws| - k
  {
    if k < |ws| {
      assert ws[..k + 1][..k] == ws[..k];
      SendAllStops(s, msg, ws, k + 1, net);
    } else {
      assert ws[..k] == ws;
    }
  }

  // ---------------------------------------------------------------------
  // Routing

  /** The server answers `{response: 200}` exactly to a presence frame from
      the guest; no other frame makes it send anything. */
  lemma PresenceOnlyGuest(s: State, m: Dict, client: Conn, net: Net)
    requires client !in s.closed && client !in net.broken
    ensures var r := ProcessClientMessage(s, m, client, net);
      && (GuestPresence(m) == Ok(true) <==> r.st.sent == s.sent + [Delivery(client, Response200)])
      && (GuestPresence(m) == Ok(true) ==> r.raised == None && r.st.messages == s.messages)
      && (GuestPresence(m) != Ok(true) ==> r.st.sent == s.sent)
  {
    var r := ProcessClientMessage(s, m, client, net);
    if GuestPresence(m) != Ok(true) {
      assert r.st.sent == s.sent;
      assert |r.st.sent| != |s.sent + [Delivery(client, Response200)]|;
    }
  }

  /** A presence frame that is not the guest's is not accepted: it falls
      through to the refusal (or to the chat test, which it fails). */
  lemma PresenceNotGuest(s: State, m: Dict, client: Conn, net: Net, name: Json)
    requires IsPresence(m) && Subscript(m[USER], ACCOUNT_NAME) == Ok(name) && name != JStr(GUEST)
    ensures ProcessClientMessage(s, m, client, net) == Step(s, Some(BadRequestReply), None)
  {
  }

  /** A chat frame with time and text is queued as an (account, text)
      pair; without an account name it raises KeyError. Nothing is sent. */
  lemma ChatQueued(s: State, m: Dict, client: Conn, net: Net)
    requires Is(m, ACTION, MESSAGE) && TIME in m && MESSAGE_TEXT in m
    ensures var r := ProcessClientMessage(s, m, client, net);
      && (ACCOUNT_NAME in m ==>
            r == Step(s.(messages := s.messages + [Pending(m[ACCOUNT_NAME], m[MESSAGE_TEXT])]), None, None))
      && (ACCOUNT_NAME !in m ==> r == Step(s, None, Some(KeyError)))
  {
  }

  /** Every other frame makes the function return the 400 dictionary and
      changes nothing: in particular nothing is sent. */
  lemma OtherwiseRefused(s: State, m: Dict, client: Conn, net: Net)
    requires !IsPresence(m) && !(Is(m, ACTION, MESSAGE) && TIME in m && MESSAGE_TEXT in m)
    ensures ProcessClientMessage(s, m, client, net) == Step(s, Some(BadRequestReply), None)
  {
  }

  /** Any failure while reading or routing unlists the connection. */
  lemma ReadFailureRemoves(s: State, c: Conn, e: Exc, net: Net)
    requires Valid(s) && c in s.clients && c !in net.peerless
    ensures var r := ReadOne(s, Incoming(c, Failed(e)), net);
      && r.raised == None
      && (forall x :: x in r.st.clients <==> x in s.clients && x != c)
      && r.st.messages == s.messages && r.st.sent == s.sent && r.st.closed == s.closed
  {
    RemoveFirstSpec(s.clients, c);
  }

  // ---------------------------------------------------------------------
  // Broadcast

  /** The broadcast takes at most one chat off the queue, the oldest, and
      only when some client is writable. */
  lemma BroadcastDequeuesOne(s: State, writable: seq<Conn>, now: Json, net: Net)
    ensures var r := Broadcast(s, writable, now, net);
      r.st.messages == if s.messages != [] && writable != [] then s.messages[1..] else s.messages
  {
    if s.messages != [] && writable != [] {
      SendAllKeepsQueue(s.(messages := s.messages[1..]), Outgoing(s.messages[0], now), writable, net);
    }
  }

  lemma {:induction false} SendAllKeepsQueue(s: State, msg: Dict, ws: seq<Conn>, net: Net)
    ensures SendAll(s, msg, ws, net).st.messages == s.messages
    decreases |ws|
  {
    if ws != [] {
      SendAllKeepsQueue(s, msg, ws[..|ws| - 1], net);
    }
  }

  /** The frame sent is the oldest queued chat, re-stamped with the current
      time and carrying its author under "sender". */
  lemma OutgoingFields(p: Pending, now: Json)
    ensures var f := Outgoing(p, now);
      && f.Keys == {ACTION, SENDER_L7, TIME, MESSAGE_TEXT}
      && Is(f, ACTION, MESSAGE) && f[SENDER_L7] == p.account && f[TIME] == now && f[MESSAGE_TEXT] == p.text
  {
  }

  /** Broadcasting to distinct listed clients reaches every client whose
      send succeeds, in order, including the message's author; each client
      whose send fails is closed and unlisted, and the rest are still
      served. */
  lemma {:induction false} SendAllServesEveryone(s: State, msg: Dict, ws: seq<Conn>, net: Net)
    requires NoDup(s.clients) && NoDup(ws)
    requires forall c :: c in ws ==> c in s.clients && c !in s.closed && (c in net.broken ==> c !in net.peerless)
    ensures var r := SendAll(s, msg, ws, net);
      && r.raised == None
      && r.st.sent == s.sent + Reached(ws, net.broken, msg)
      && (forall c :: c in r.st.clients <==> c in s.clients && !(c in ws && c in net.broken))
      && (forall c :: c in r.st.closed <==> c in s.closed || (c in ws && c in net.broken))
      && NoDup(r.st.clients)
      && r.st.messages == s.messages
    decreases |ws|
  {
    if ws != [] {
      var init := ws[..|ws| - 1];
      var last := ws[|ws| - 1];
      LastNotInInit(ws);
      SendAllServesEveryone(s, msg, init, net);
      var r := SendAll(s, msg, init, net);
      assert last in r.st.clients && last !in r.st.closed;
      if last in net.broken {
        RemoveFirstSpec(r.st.clients, last);
      }
    }
  }

  /** The same for a whole broadcast phase: the oldest chat goes, as built by
      Outgoing, to every writable client whose send succeeds. */
  lemma BroadcastServesWritable(s: State, writable: seq<Conn>, now: Json, net: Net)
    requires Valid(s) && NoDup(writable) && s.messages != [] && writable != []
    requires forall c :: c in writable ==> c in s.clients && (c in net.broken ==> c !in net.peerless)
    ensures var r := Broadcast(s, writable, now, net);
      && r.raised == None
      && r.st.sent == s.sent + Reached(writable, net.broken, Outgoing(s.messages[0], now))
      && r.st.messages == s.messages[1..]
      && (forall c :: c in r.st.clients <==> c in s.clients && !(c in writable && c in net.broken))
      && Valid(r.st)
  {
    var s1 := s.(messages := s.messages[1..]);
    SendAllServesEveryone(s1, Outgoing(s.messages[0], now), writable, net);
  }

  /** Reached lists exactly the writable clients whose send succeeds. */
  lemma {:induction false} ReachedSpec(ws: seq<Conn>, broken: set<Conn>, msg: Dict)
    ensures forall d :: d in Reached(ws, broken, msg) <==> d.to in ws && d.to !in broken && d.body == msg
    decreases |ws|
  {
    if ws != [] {
      var init := ws[..|ws| - 1];
      ReachedSpec(init, broken, msg);
      forall d ensures d in Reached(ws, broken, msg) <==> d.to in ws && d.to !in broken && d.body == msg {
        if d.to in ws && d.to != ws[|ws| - 1] {
          var k :| 0 <= k < |ws| && ws[k] == d.to;
          assert init[k] == d.to;
        }
      }
    }
  }

  // ---------------------------------------------------------------------
  // Well-formedness

  lemma ReadOneValid(s: State, inc: Incoming, net: Net)
    requires Valid(s)
    ensures Valid(ReadOne(s, inc, net).st)
  {
    RemoveFirstSpec(s.clients, inc.conn);
  }

  lemma {:induction false} ReadPhaseValid(s: State, ready: seq<Incoming>, net: Net)
    requires Valid(s)
    ensures Valid(ReadPhase(s, ready, net).st)
    decreases |ready|
  {
    if ready != [] {
      ReadPhaseValid(s, ready[..|ready| - 1], net);
      var r := ReadPhase(s, ready[..|ready| - 1], net);
      if r.raised.None? {
        ReadOneValid(r.st, ready[|ready| - 1], net);
      }
    }
  }

  lemma {:induction false} SendAllValid(s: State, msg: Dict, ws: seq<Conn>, net: Net)
    requires Valid(s)
    ensures Valid(SendAll(s, msg, ws, net).st)
    decreases |ws|
  {
    if ws != [] {
      SendAllValid(s, msg, ws[..|ws| - 1], net);
      var r := SendAll(s, msg, ws[..|ws| - 1], net);
      RemoveFirstSpec(r.st.clients, ws[|ws| - 1]);
    }
  }

  /** A cycle keeps every listed client open and listed once. */
  lemma CycleValid(s: State, accepted: Option<Conn>, ready: seq<Incoming>, writable: seq<Conn>, now: Json, net: Net)
    requires Valid(s)
    requires accepted.Some? ==> accepted.value !in s.clients && accepted.value !in s.closed
    ensures Valid(Cycle(s, accepted, ready, writable, now, net).st)
  {
    var s0 := if accepted.Some? then s.(clients := s.clients + [accepted.value]) else s;
    ReadPhaseValid(s0, ready, net);
    var r := ReadPhase(s0, ready, net);
    if r.raised.None? && r.st.messages != [] && writable != [] {
      SendAllValid(r.st.(messages := r.st.messages[1..]), Outgoing(r.st.messages[0], now), writable, net);
    }
  }
}

/** The collections of lesson_7/server.py's `main`, updated in place. */
module Lesson7Server {
  import opened Jim
  import opened Registry
  import opened Lesson7Router

  class Relay {
    var clients: seq<Conn>
    var messages: seq<Pending>
    var closed: set<Conn>
    var sent: seq<Delivery>

    function Snapshot(): State
      reads this
    {
      State(clients, messages, closed, sent)
    }

    constructor ()
      ensures Snapshot() == Initial && Valid(Snapshot())
    {
      clients := [];
      messages := [];
      closed := {};
      sent := [];
    }

    method Send(c: Conn, body: Dict, net: Net) returns (raised: Option<Exc>)
      modifies this
      ensures Step(Snapshot(), None, raised) == Lesson7Router.Send(old(Snapshot()), c, body, net)
    {
      raised := SendError(closed, net, c);
      if raised.None? {
        sent := sent + [Delivery(c, body)];
      }
    }

    method RemoveClient(c: Conn) returns (raised: Option<Exc>)
      modifies this
      ensures Step(Snapshot(), None, raised) == Remove(old(Snapshot()), c)
    {
      if c in clients {
        clients := RemoveFirst(clients, c);
        raised := None;
      } else {
        raised := Some(ValueError);
      }
    }

    /** `process_client_message(message, messages_list, client)`. */
    method ProcessClientMessage(m: Dict, client: Conn, net: Net) returns (reply: Option<Dict>, raised: Option<Exc>)
      modifies this
      ensures Step(Snapshot(), reply, raised) == Lesson7Router.ProcessClientMessage(old(Snapshot()), m, client, net)
    {
      reply := None;
      var guest := GuestPresence(m);
      if guest.Raise? {
        return None, Some(guest.exc);
      }
      if guest.value {
        raised := Send(client, Response200, net);
      } else if Is(m, ACTION, MESSAGE) && TIME in m && MESSAGE_TEXT in m {
        if ACCOUNT_NAME !in m {
          return None, Some(KeyError);
        }
        messages := messages + [Pending(m[ACCOUNT_NAME], m[MESSAGE_TEXT])];
        raised := None;
      } else {
        reply := Some(BadRequestReply);
        raised := None;
      }
    }

    method ReadOne(inc: Incoming, net: Net) returns (raised: Option<Exc>)
      modifies this
      ensures Step(Snapshot(), None, raised) == Lesson7Router.ReadOne(old(Snapshot()), inc, net)
    {
      var c := inc.conn;
      var got := if c in closed then Failed(OSError(EBADF)) else inc.got;
      match got {
        case Frame(m) =>
          var _, e := ProcessClientMessage(m, c, net);
          raised := e;
        case Failed(e) => raised := Some(e);
      }
      if raised.Some? {
        raised := PeerError(closed, net, c);
        if raised.None? {
          raised := RemoveClient(c);
        }
      }
    }

    method SendOne(msg: Dict, c: Conn, net: Net) returns (raised: Option<Exc>)
      modifies this
      ensures Step(Snapshot(), None, raised) == Lesson7Router.SendOne(old(Snapshot()), msg, c, net)
    {
      raised := Send(c, msg, net);
      if raised.Some? {
        raised := PeerError(closed, net, c);
        if raised.None? {
          closed := closed + {c};
          raised := RemoveClient(c);
        }
      }
    }

    /** One pass of `main`'s `while True` loop. */
    method Cycle(accepted: Option<Conn>, ready: seq<Incoming>, writable: seq<Conn>, now: Json, net: Net)
      returns (raised: Option<Exc>)
      requires Valid(Snapshot())
      requires accepted.Some? ==> accepted.value !in clients && accepted.value !in closed
      modifies this
      ensures Step(Snapshot(), None, raised) == Lesson7Router.Cycle(old(Snapshot()), accepted, ready, writable, now, net)
      ensures Valid(Snapshot())
    {
      CycleValid(Snapshot(), accepted, ready, writable, now, net);
      if accepted.Some? {
        clients := clients + [accepted.value];
      }
      ghost var s0 := Snapshot();
      var i := 0;
      while i < |ready|
        invariant 0 <= i <= |ready|
        invariant ReadPhase(s0, ready[..i], net) == Step(Snapshot(), None, None)
      {
        assert ready[..i + 1][..i] == ready[..i];
        raised := ReadOne(ready[i], net);
        if raised.Some? {
          ReadPhaseStops(s0, ready, i + 1, net);
          return;
        }
        i := i + 1;
      }
      assert ready[..i] == ready;
      raised := None;
      if messages != [] && writable != [] {
        var msg := Outgoing(messages[0], now);
        messages := messages[1..];
        ghost var s1 := Snapshot();
        var j := 0;
        while j < |writable|
          invariant 0 <= j <= |writable|
          invariant SendAll(s1, msg, writable[..j], net) == Step(Snapshot(), None, None)
          invariant raised == None
        {
          assert writable[..j + 1][..j] == writable[..j];
          raised := SendOne(msg, writable[j], net);
          if raised.Some? {
            SendAllStops(s1, msg, writable, j + 1, net);
              return;
          }
          j := j + 1;
        }
        assert writable[..j] == writable;
      }
    }
  }
}
