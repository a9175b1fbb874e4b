/** The network side of the GUI client (app/client/transport.py): the
    connection set-up with its retries, the reading of server frames, the
    list updates, sending and shutting down. The client database is a log
    of the calls made on it, and the Qt signals are a log of emitted events. */
module TransportLogic {
  import opened Jim
  import opened AppClient

  /** A call on the client database. */
  datatype DbCall = SaveMessage(contact: Json, direction: string, text: Json) | AddContact(contact: Json) | AddUsers(list: Json)

  /** A Qt signal emitted: `new_message(sender)` or `connection_lost()`. */
  datatype Event = NewMessage(sender: Json) | ConnectionLost

  /** `running`, the frames sent, the database calls and the signals. */
  datatype State = State(running: bool, sent: seq<Dict>, db: seq<DbCall>, events: seq<Event>)

  /** The new state and the exception that escaped, if any. */
  datatype Step = Step(st: State, raised: Option<Exc>)

  /** Most attempts `connection_init` makes. */
  const CONNECT_ATTEMPTS: nat := 5

  /** `process_server_ans(message)`: a 200 is accepted silently, a 400 raises
      ServerError with the reply's error text, another code is only
      logged; a frame without 'response' that is a chat addressed to this
      user is saved as incoming and signalled. */
  function ProcessServerAns(s: State, me: string, m: Dict): Step {
    if RESPONSE in m then
      if m[RESPONSE] == JNum(200) then Step(s, None)
      else if m[RESPONSE] == JNum(400) then
        if ERROR in m then Step(s, Some(ServerError(Show(m[ERROR])))) else Step(s, Some(KeyError))
      else Step(s, None)
    else if ChatFor(m, me) then
      Step(s.(db := s.db + [SaveMessage(m[SENDER], "in", m[MESSAGE_TEXT])],
              events := s.events + [NewMessage(m[SENDER])]), None)
    else Step(s, None)
  }

  /** The retry loop of `connection_init`: the number of attempts made and
      whether one succeeded, given the outcome of each attempt (a missing
      outcome is a failure). */
  function ConnectAttempts(attempts: seq<bool>, i: nat): (r: (nat, bool))
    requires i <= CONNECT_ATTEMPTS
    decreases CONNECT_ATTEMPTS - i
  {
    if i == CONNECT_ATTEMPTS then (i, false)
    else if i < |attempts| && attempts[i] then (i + 1, true)
    else ConnectAttempts(attempts, i + 1)
  }

  /** The exception `connection_init` turns an error of the presence
      exchange into: OSError and JSONDecodeError become ServerError
      'Connection lost'; anything else passes through. */
  function LostOr(e: Exc): Exc {
    if IsOSError(e) || e.JsonDecodeError? then ServerError("Connection lost") else e
  }

  /** `connection_init(ip, port)`: connect, then send the presence and read
      the answer. `sendErr` is what the send raised, `answer` the outcome
      of the read. */
  function ConnectionInit(s: State, me: string, attempts: seq<bool>, now: Json,
                          sendErr: Option<Exc>, answer: Received): Step {
    if !ConnectAttempts(attempts, 0).1 then Step(s, Some(ServerError("Cannot connect to the server")))
    else if sendErr.Some? then Step(s, Some(LostOr(sendErr.value)))
    else
      var s1 := s.(sent := s.sent + [MakePresence(JStr(me), now)]);
      match answer
      case Failed(e) => Step(s1, Some(LostOr(e)))
      case Frame(m) =>
        var r := ProcessServerAns(s1, me, m);
        if r.raised.Some? then Step(r.st, Some(LostOr(r.raised.value))) else r
  }

  /** `for x in v`: the items of a list or the characters of a string;
      numbers, booleans and None are not iterable. */
  function Items(v: Json): (r: Result<seq<Json>>)
    ensures v.JList? ==> r == Ok(v.items)
    ensures v.JStr? ==> r.Ok? && |r.value| == |v.s|
    ensures v.JStr? ==> forall i :: 0 <= i < |v.s| ==> r.value[i] == JStr([v.s[i]])
    ensures !v.JList? && !v.JStr? ==> r == Raise(TypeError)
  {
    match v
    case JList(items) => Ok(items)
    case JStr(str) => Ok(seq(|str|, i requires 0 <= i < |str| => JStr([str[i]])))
    case _ => Raise(TypeError)
  }

  /** One `add_contact` call per entry, in order. */
  function AddEach(contacts: seq<Json>): (r: seq<DbCall>)
    ensures |r| == |contacts| && forall i :: 0 <= i < |r| ==> r[i] == AddContact(contacts[i])
  {
    seq(|contacts|, i requires 0 <= i < |contacts| => AddContact(contacts[i]))
  }

  /** `contacts_list_update()`: request the contacts and add each one on a
      202 reply; any other reply is only logged. */
  function ContactsListUpdate(s: State, me: string, now: Json, sendErr: Option<Exc>, answer: Received): Step {
    if sendErr.Some? then Step(s, sendErr)
    else
      var s1 := s.(sent := s.sent + [ContactsListRequest(JStr(me), now)]);
      match answer
      case Failed(e) => Step(s1, Some(e))
      case Frame(ans) =>
        if RESPONSE in ans && ans[RESPONSE] == JNum(202) then
          if LIST_INFO !in ans then Step(s1, Some(KeyError))
          else match Items(ans[LIST_INFO])
            case Raise(e) => Step(s1, Some(e))
            case Ok(contacts) => Step(s1.(db := s1.db + AddEach(contacts)), None)
        else Step(s1, None)
  }

  /** `user_list_update()`: request the known users and store the list on a
      202 reply; any other reply is only logged. */
  function UserListUpdate(s: State, me: string, now: Json, sendErr: Option<Exc>, answer: Received): Step {
    if sendErr.Some? then Step(s, sendErr)
    else
      var s1 := s.(sent := s.sent + [UserListRequest(JStr(me), now)]);
      match answer
      case Failed(e) => Step(s1, Some(e))
      case Frame(ans) =>
        if RESPONSE in ans && ans[RESPONSE] == JNum(202) then
          if LIST_INFO !in ans then Step(s1, Some(KeyError))
          else Step(s1.(db := s1.db + [AddUsers(ans[LIST_INFO])]), None)
        else Step(s1, None)
  }

  /** One request and its reply: the exception the send raised, if any, and
      what the read then returned. */
  datatype Exchange = Exchange(sendErr: Option<Exc>, answer: Received)

  /** `__init__` once the fields are set: connect, then update the users and
      the contacts inside one `try`. A lost connection (an OSError with an
      errno, or a decode error) becomes ServerError; a timeout is only logged
      and skips the rest of the `try`; `running` is set when nothing
      escaped. */
  function Init(s: State, me: string, attempts: seq<bool>, now: Json,
                presence: Exchange, users: Exchange, contacts: Exchange): Step {
    var c := ConnectionInit(s, me, attempts, now, presence.sendErr, presence.answer);
    if c.raised.Some? then c
    else
      var u := UserListUpdate(c.st, me, now, users.sendErr, users.answer);
      var r := if u.raised.Some? then u else ContactsListUpdate(u.st, me, now, contacts.sendErr, contacts.answer);
      match r.raised
      case None => Step(r.st.(running := true), None)
      case Some(e) =>
        if (e.OSError? && e.errno != 0) || e.JsonDecodeError? then
          Step(r.st, Some(ServerError("Connection with server lost")))
        else if IsOSError(e) then Step(r.st.(running := true), None)
        else r
  }

  /** `transport_shutdown()`: `running` is cleared first, then the exit frame
      is sent; an OSError from the send is ignored. */
  function Shutdown(s: State, me: string, now: Json, sendErr: Option<Exc>): Step {
    var s1 := s.(running := false);
    match sendErr
    case None => Step(s1.(sent := s1.sent + [CreateExitMessage(me, now)]), None)
    case Some(e) => if IsOSError(e) then Step(s1, None) else Step(s1, Some(e))
  }

  /** `send_message(to, message)`: send the chat, then read and process the
      server's answer; errors are not caught here. */
  function SendMessage(s: State, me: string, to: string, text: string, now: Json,
                       sendErr: Option<Exc>, answer: Received): Step {
    if sendErr.Some? then Step(s, sendErr)
    else
      var s1 := s.(sent := s.sent + [ChatFrame(me, to, now, text)]);
      match answer
      case Failed(e) => Step(s1, Some(e))
      case Frame(m) => ProcessServerAns(s1, me, m)
  }

  /** One pass of the `run` loop: a frame is processed; an OSError with an
      errno, a ConnectionError raised with one, a JSON decode error or a
      TypeError clears `running` and signals connection_lost; an OSError
      without an errno (a timeout) changes nothing; anything else escapes. */
  function RunOne(s: State, me: string, got: Received): Step {
    match got
    case Frame(m) => ProcessServerAns(s, me, m)
    case Failed(e) =>
      if IsOSError(e) then
        if e.OSError? && e.errno != 0 then Step(s.(running := false, events := s.events + [ConnectionLost]), None)
        else Step(s, None)
      else if e.JsonDecodeError? || e.TypeError? then
        Step(s.(running := false, events := s.events + [ConnectionLost]), None)
      else Step(s, Some(e))
  }

  /** `run()` over the reads it makes: it reads while `running` holds and
      stops at the first exception that escapes. */
  function Run(s: State, me: string, inbound: seq<Received>): Step
    decreases |inbound|
  {
    if inbound == [] then Step(s, None)
    else
      var prev := Run(s, me, inbound[..|inbound| - 1]);
      if prev.raised.Some? || !prev.st.running then prev
      else RunOne(prev.st, me, inbound[|inbound| - 1])
  }

  // ---------------------------------------------------------------------
  // Properties

  /** A 200 changes nothing, a 400 raises ServerError carrying its error
      text, any other code is only logged, and a chat for this user is saved
      as incoming and signalled exactly once; nothing else has an effect. */
  lemma ProcessServerAnsSpec(s: State, me: string, m: Dict)
    ensures var r := ProcessServerAns(s, me, m);
      && (RESPONSE in m && m[RESPONSE] != JNum(400) ==> r == Step(s, None))
      && (RESPONSE in m && m[RESPONSE] == JNum(400) && ERROR in m ==>
            r == Step(s, Some(ServerError(Show(m[ERROR])))))
      && (RESPONSE !in m && ChatFor(m, me) ==>
            && r.raised.None? && r.st.running == s.running && r.st.sent == s.sent
            && r.st.db == s.db + [SaveMessage(m[SENDER], "in", m[MESSAGE_TEXT])]
            && r.st.events == s.events + [NewMessage(m[SENDER])])
      && (RESPONSE !in m && !ChatFor(m, me) ==> r == Step(s, None))
      && (r.raised.Some? ==> r.raised.value.ServerError? || r.raised.value == KeyError)
  {
  }

  /** The server's replies: its acceptance is taken silently and its refusal
      raises ServerError with the refusal's text. */
  lemma ProcessServerAnsReplies(s: State, me: string, error: string)
    ensures ProcessServerAns(s, me, Response200) == Step(s, None)
    ensures ProcessServerAns(s, me, Response400(error)) == Step(s, Some(ServerError(error)))
  {
    assert Response400(error)[RESPONSE] == JNum(400);
  }

  /** At most five attempts are made, the loop stops at the first success,
      and it fails only when each of the five attempts failed. */
  lemma {:induction false} ConnectAttemptsSpec(attempts: seq<bool>, i: nat)
    requires i <= CONNECT_ATTEMPTS
    ensures var r := ConnectAttempts(attempts, i);
      && i <= r.0 <= CONNECT_ATTEMPTS
      && (r.1 <==> exists k :: i <= k < CONNECT_ATTEMPTS && k < |attempts| && attempts[k])
      && (r.1 ==> r.0 - 1 < |attempts| && attempts[r.0 - 1])
      && (forall k :: i <= k < r.0 - 1 && k < |attempts| ==> !attempts[k])
      && (!r.1 ==> r.0 == CONNECT_ATTEMPTS)
    decreases CONNECT_ATTEMPTS - i
  {
    if i < CONNECT_ATTEMPTS && !(i < |attempts| && attempts[i]) {
      ConnectAttemptsSpec(attempts, i + 1);
    }
  }

  /** `connection_init` raises 'Cannot connect to the server' exactly when
      all attempts fail; otherwise the presence is the first frame it sends,
      and a refusal of it surfaces as ServerError. */
  lemma ConnectionInitSpec(s: State, me: string, attempts: seq<bool>, now: Json,
                           sendErr: Option<Exc>, answer: Received)
    ensures var r := ConnectionInit(s, me, attempts, now, sendErr, answer);
      && (!ConnectAttempts(attempts, 0).1 ==> r == Step(s, Some(ServerError("Cannot connect to the server"))))
      && (ConnectAttempts(attempts, 0).1 && sendErr.None? ==>
            r.st.sent == s.sent + [MakePresence(JStr(me), now)])
      && (r.raised.Some? ==> !IsOSError(r.raised.value) && !r.raised.value.JsonDecodeError?)
  {
    ProcessServerAnsSpec(s.(sent := s.sent + [MakePresence(JStr(me), now)]), me,
                         if answer.Frame? then answer.msg else map[]);
  }

  /** Contacts reach the database only on a 202 reply, one `add_contact` per
      list entry, in order; users only on a 202, as one `add_users` call. */
  lemma ListUpdatesSpec(s: State, me: string, now: Json, ans: Dict)
    ensures var r := ContactsListUpdate(s, me, now, None, Frame(ans));
      && (r.st.db != s.db ==> RESPONSE in ans && ans[RESPONSE] == JNum(202))
      && (RESPONSE in ans && ans[RESPONSE] == JNum(202) && LIST_INFO in ans && ans[LIST_INFO].JList? ==>
            r.raised.None? && r.st.db == s.db + AddEach(ans[LIST_INFO].items))
    ensures var r := UserListUpdate(s, me, now, None, Frame(ans));
      && (r.st.db != s.db ==> RESPONSE in ans && ans[RESPONSE] == JNum(202))
      && (RESPONSE in ans && ans[RESPONSE] == JNum(202) && LIST_INFO in ans ==>
            r.raised.None? && r.st.db == s.db + [AddUsers(ans[LIST_INFO])])
  {
  }

  /** The server's contact list, sent as a 202, is added entry by entry. */
  lemma ContactsFromServer(s: State, me: string, now: Json, contacts: seq<Json>)
    ensures ContactsListUpdate(s, me, now, None, Frame(Response202(contacts))).st.db == s.db + AddEach(contacts)
  {
    assert Response202(contacts)[RESPONSE] == JNum(202);
  }

  /** A transport comes up running exactly when `__init__` returns; it
      never raises an OSError or a decode error; it fails with "Cannot
      connect" when every attempt fails; a lost connection during the list
      updates is reported as ServerError, while a timeout there still leaves
      it running without the contacts being requested. The list updates
      signal nothing. */
  lemma InitSpec(s: State, me: string, attempts: seq<bool>, now: Json,
                 presence: Exchange, users: Exchange, contacts: Exchange)
    ensures var r := Init(s, me, attempts, now, presence, users, contacts);
      && (r.raised.None? ==> r.st.running)
      && (r.raised.Some? ==> r.st.running == s.running)
      && (r.raised.Some? ==> !IsOSError(r.raised.value) && !r.raised.value.JsonDecodeError?)
      && (!ConnectAttempts(attempts, 0).1 ==> r == Step(s, Some(ServerError("Cannot connect to the server"))))
    ensures var c := ConnectionInit(s, me, attempts, now, presence.sendErr, presence.answer);
      var r := Init(s, me, attempts, now, presence, users, contacts);
      && r.st.events == c.st.events
      && (c.raised.None? && users.sendErr == Some(OSError(0)) ==> r == Step(c.st.(running := true), None))
      && (c.raised.None? && users.sendErr.Some? && users.sendErr.value.OSError? && users.sendErr.value.errno != 0 ==>
            r.raised == Some(ServerError("Connection with server lost")))
  {
    ConnectionInitSpec(s, me, attempts, now, presence.sendErr, presence.answer);
  }

  /** After shutdown the loop is no longer running whatever the send did;
      the exit frame names this user, and an OSError from the send is
      swallowed. */
  lemma ShutdownSpec(s: State, me: string, now: Json, sendErr: Option<Exc>)
    ensures var r := Shutdown(s, me, now, sendErr);
      && !r.st.running
      && (sendErr.None? ==> r.st.sent == s.sent + [CreateExitMessage(me, now)] && r.raised.None?)
      && (sendErr.Some? ==> r.st.sent == s.sent)
      && (sendErr.Some? && IsOSError(sendErr.value) ==> r.raised.None?)
      && r.st.db == s.db && r.st.events == s.events
  {
  }

  /** A lost connection or a decode error stops the loop and signals
      connection_lost once; a timeout leaves everything as it was. */
  lemma RunOneSpec(s: State, me: string, errno: int)
    ensures var r := RunOne(s, me, Failed(OSError(errno)));
      errno != 0 ==> r == Step(s.(running := false, events := s.events + [ConnectionLost]), None)
    ensures RunOne(s, me, Failed(OSError(0))) == Step(s, None)
    ensures RunOne(s, me, Failed(JsonDecodeError)) == Step(s.(running := false, events := s.events + [ConnectionLost]), None)
  {
  }

  /** Once `running` is cleared or an exception escapes, later reads are not
      made. */
  lemma {:induction false} RunStops(s: State, me: string, inbound: seq<Received>, k: nat)
    requires k <= |inbound|
    requires Run(s, me, inbound[..k]).raised.Some? || !Run(s, me, inbound[..k]).st.running
    ensures Run(s, me, inbound) == Run(s, me, inbound[..k])
    decreases |inbound|
  {
    if k < |inbound| {
      var init := inbound[..|inbound| - 1];
      assert init[..k] == inbound[..k];
      RunStops(s, me, init, k);
    } else {
      assert inbound[..k] == inbound;
    }
  }

  /** A loop that runs to the end of its reads without an escaping exception
      has sent nothing and never set `running` back: the connection-lost
      signal is emitted at most once, and only as the last event. */
  lemma {:induction false} RunSignalsLossOnce(s: State, me: string, inbound: seq<Received>)
    requires s.running
    ensures var r := Run(s, me, inbound);
      && r.st.sent == s.sent
      && |r.st.events| >= |s.events| && r.st.events[..|s.events|] == s.events
      && (r.st.running <==> forall k :: |s.events| <= k < |r.st.events| ==> r.st.events[k] != ConnectionLost)
      && (!r.st.running ==> r.st.events[|r.st.events| - 1] == ConnectionLost)
      && (forall k :: |s.events| <= k < |r.st.events| - 1 ==> r.st.events[k] != ConnectionLost)
    decreases |inbound|
  {
    if inbound != [] {
      RunSignalsLossOnce(s, me, inbound[..|inbound| - 1]);
      var prev := Run(s, me, inbound[..|inbound| - 1]);
      if prev.raised.None? && prev.st.running {
        var got := inbound[|inbound| - 1];
        var r := RunOne(prev.st, me, got);
        assert r == Run(s, me, inbound);
        if got.Frame? {
          ProcessServerAnsSpec(prev.st, me, got.msg);
          assert r.st.running;
          assert r.st.events == prev.st.events || r.st.events == prev.st.events + [NewMessage(got.msg[SENDER])];
        } else if r.st.events != prev.st.events {
          assert !r.st.running && r.st.events == prev.st.events + [ConnectionLost];
          assert r.st.events[|r.st.events| - 1] == ConnectionLost && |r.st.events| - 1 >= |s.events|;
        }
      }
    }
  }
}

/** `ClientTransport` as a class: `running` and the logs are fields its
    methods update. */
module Transport {
  import opened Jim
  import opened AppClient
  import opened TransportLogic

  class ClientTransport {
    const username: string
    var running: bool
    var sent: seq<Dict>
    var db: seq<DbCall>
    var events: seq<Event>

    function Snapshot(): State
      reads this
    {
      State(running, sent, db, events)
    }

    /** The object before `connection_init` runs. */
    constructor (name: string)
      ensures username == name && Snapshot() == State(false, [], [], [])
    {
      username := name;
      running := false;
      sent := [];
      db := [];
      events := [];
    }

    method ProcessServerAns(m: Dict) returns (raised: Option<Exc>)
      modifies this
      ensures Step(Snapshot(), raised) == TransportLogic.ProcessServerAns(old(Snapshot()), username, m)
    {
      if RESPONSE in m {
        if m[RESPONSE] == JNum(200) {
          raised := None;
        } else if m[RESPONSE] == JNum(400) {
          raised := if ERROR in m then Some(ServerError(Show(m[ERROR]))) else Some(KeyError);
        } else {
          raised := None;
        }
      } else if ChatFor(m, username) {
        db := db + [SaveMessage(m[SENDER], "in", m[MESSAGE_TEXT])];
        events := events + [NewMessage(m[SENDER])];
        raised := None;
      } else {
        raised := None;
      }
    }

    /** The rest of `__init__`: connect, update both lists, start running. */
    method Init(attempts: seq<bool>, now: Json, presence: Exchange, users: Exchange, contacts: Exchange)
      returns (raised: Option<Exc>)
      modifies this
      ensures Step(Snapshot(), raised) ==
        TransportLogic.Init(old(Snapshot()), username, attempts, now, presence, users, contacts)
    {
      raised := ConnectionInit(attempts, now, presence.sendErr, presence.answer);
      if raised.Some? {
        return;
      }
      raised := UserListUpdate(now, users.sendErr, users.answer);
      if raised.None? {
        raised := ContactsListUpdate(now, contacts.sendErr, contacts.answer);
      }
      if raised.None? {
        running := true;
      } else if (raised.value.OSError? && raised.value.errno != 0) || raised.value.JsonDecodeError? {
        raised := Some(ServerError("Connection with server lost"));
      } else if IsOSError(raised.value) {
        running := true;
        raised := None;
      }
    }

    /** `connection_init`: up to five connection attempts, then the presence
        exchange. */
    method ConnectionInit(attempts: seq<bool>, now: Json, sendErr: Option<Exc>, answer: Received)
      returns (raised: Option<Exc>)
      modifies this
      ensures Step(Snapshot(), raised) ==
        TransportLogic.ConnectionInit(old(Snapshot()), username, attempts, now, sendErr, answer)
    {
      var connected := false;
      var i := 0;
      while i < CONNECT_ATTEMPTS && !connected
        invariant 0 <= i <= CONNECT_ATTEMPTS
        invariant connected ==> ConnectAttempts(attempts, 0) == (i, true)
        invariant !connected ==> ConnectAttempts(attempts, 0) == ConnectAttempts(attempts, i)
        decreases CONNECT_ATTEMPTS - i
      {
        connected := i < |attempts| && attempts[i];
        i := i + 1;
      }
      if !connected {
        return Some(ServerError("Cannot connect to the server"));
      }
      if sendErr.Some? {
        return Some(LostOr(sendErr.value));
      }
      sent := sent + [MakePresence(JStr(username), now)];
      match answer {
        case Failed(e) => raised := Some(LostOr(e));
        case Frame(m) =>
          raised := ProcessServerAns(m);
          if raised.Some? {
            raised := Some(LostOr(raised.value));
          }
      }
    }

    /** `contacts_list_update()`, with its loop over the received list. */
    method ContactsListUpdate(now: Json, sendErr: Option<Exc>, answer: Received) returns (raised: Option<Exc>)
      modifies this
      ensures Step(Snapshot(), raised) ==
        TransportLogic.ContactsListUpdate(old(Snapshot()), username, now, sendErr, answer)
    {
      if sendErr.Some? {
        return sendErr;
      }
      sent := sent + [ContactsListRequest(JStr(username), now)];
      if answer.Failed? {
        return Some(answer.exc);
      }
      var ans := answer.msg;
      if !(RESPONSE in ans && ans[RESPONSE] == JNum(202)) {
        return None;
      }
      if LIST_INFO !in ans {
        return Some(KeyError);
      }
      var contacts := Items(ans[LIST_INFO]);
      if contacts.Raise? {
        return Some(contacts.exc);
      }
      ghost var before := Snapshot();
      var i := 0;
      while i < |contacts.value|
        invariant 0 <= i <= |contacts.value|
        invariant Snapshot() == before.(db := before.db + AddEach(contacts.value[..i]))
      {
        db := db + [AddContact(contacts.value[i])];
        i := i + 1;
      }
      assert contacts.value[..i] == contacts.value;
      raised := None;
    }

    method UserListUpdate(now: Json, sendErr: Option<Exc>, answer: Received) returns (raised: Option<Exc>)
      modifies this
      ensures Step(Snapshot(), raised) ==
        TransportLogic.UserListUpdate(old(Snapshot()), username, now, sendErr, answer)
    {
      if sendErr.Some? {
        return sendErr;
      }
      sent := sent + [UserListRequest(JStr(username), now)];
      if answer.Failed? {
        return Some(answer.exc);
      }
      var ans := answer.msg;
      if !(RESPONSE in ans && ans[RESPONSE] == JNum(202)) {
        return None;
      }
      if LIST_INFO !in ans {
        return Some(KeyError);
      }
      db := db + [AddUsers(ans[LIST_INFO])];
      raised := None;
    }

    method TransportShutdown(now: Json, sendErr: Option<Exc>) returns (raised: Option<Exc>)
      modifies this
      ensures Step(Snapshot(), raised) == Shutdown(old(Snapshot()), username, now, sendErr)
      ensures !running
    {
      running := false;
      match sendErr {
        case None =>
          sent := sent + [CreateExitMessage(username, now)];
          raised := None;
        case Some(e) =>
          raised := if IsOSError(e) then None else Some(e);
      }
    }

    method SendMessage(to: string, text: string, now: Json, sendErr: Option<Exc>, answer: Received)
      returns (raised: Option<Exc>)
      modifies this
      ensures Step(Snapshot(), raised) ==
        TransportLogic.SendMessage(old(Snapshot()), username, to, text, now, sendErr, answer)
    {
      if sendErr.Some? {
        return sendErr;
      }
      sent := sent + [ChatFrame(username, to, now, text)];
      match answer {
        case Failed(e) => raised := Some(e);
        case Frame(m) => raised := ProcessServerAns(m);
      }
    }

    /** `run()`: the receiving loop, over the reads it makes. */
    method Run(inbound: seq<Received>) returns (raised: Option<Exc>)
      modifies this
      ensures Step(Snapshot(), raised) == TransportLogic.Run(old(Snapshot()), username, inbound)
    {
      ghost var s0 := Snapshot();
      raised := None;
      var i := 0;
      while i < |inbound| && running
        invariant 0 <= i <= |inbound|
        invariant raised.None? && TransportLogic.Run(s0, username, inbound[..i]) == Step(Snapshot(), None)
      {
        assert inbound[..i + 1][..i] == inbound[..i];
        ghost var before := Snapshot();
        match inbound[i] {
          case Frame(m) => raised := ProcessServerAns(m);
          case Failed(e) =>
            if IsOSError(e) {
              if e.OSError? && e.errno != 0 {
                running := false;
                events := events + [ConnectionLost];
              }
            } else if e.JsonDecodeError? || e.TypeError? {
              running := false;
              events := events + [ConnectionLost];
            } else {
              raised := Some(e);
            }
        }
        assert Step(Snapshot(), raised) == RunOne(before, username, inbound[i]);
        if raised.Some? {
          RunStops(s0, username, inbound, i + 1);
          return;
        }
        i := i + 1;
      }
      if i < |inbound| {
        RunStops(s0, username, inbound, i);
      } else {
        assert inbound[..i] == inbound;
      }
    }
  }
}
