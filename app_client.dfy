/** The console client of the final iteration (app/client.py): the frames it
    builds, the way it reads the server's replies, and the receiving loop of
    its reader thread. */
module AppClient {
  import opened Jim
  import opened ChatReader

  /** `process_server_answer(message)`: the text of a 200 or 400 reply; a 400
      without an error text raises KeyError, anything else ValueError. */
  function ProcessServerAnswer(m: Dict): (r: Result<string>)
    ensures r == Ok("200 : OK") <==> RESPONSE in m && m[RESPONSE] == JNum(200)
    ensures r.Ok? && r != Ok("200 : OK") ==>
      RESPONSE in m && m[RESPONSE] == JNum(400) && ERROR in m && r.value == "400 : " + Show(m[ERROR])
    ensures r == Raise(KeyError) <==> RESPONSE in m && m[RESPONSE] == JNum(400) && ERROR !in m
    ensures r == Raise(ValueError) <==>
      !(RESPONSE in m && (m[RESPONSE] == JNum(200) || m[RESPONSE] == JNum(400)))
  {
    if RESPONSE in m && m[RESPONSE] == JNum(200) then Ok("200 : OK")
    else if RESPONSE in m && m[RESPONSE] == JNum(400) then
      if ERROR in m then
        assert ("400 : " + Show(m[ERROR]))[0] == '4';
        Ok("400 : " + Show(m[ERROR]))
      else Raise(KeyError)
    else Raise(ValueError)
  }

  /** The server's three replies read back: the acceptance, the refusal with
      its text, and the 202 list, which this reader does not accept. */
  lemma ReadsServerReplies(error: string, list: seq<Json>)
    ensures ProcessServerAnswer(Response200) == Ok("200 : OK")
    ensures ProcessServerAnswer(Response400(error)) == Ok("400 : " + error)
    ensures ProcessServerAnswer(Response202(list)) == Raise(ValueError)
  {
    assert Response400(error)[RESPONSE] == JNum(400);
    assert Response202(list)[RESPONSE] == JNum(202);
  }

  /** `make_presence(account_name)`: a presence frame carrying the name. */
  function MakePresence(name: Json, now: Json): (m: Dict)
    ensures IsPresence(m) && m.Keys == {ACTION, TIME, USER}
    ensures m[TIME] == now && Subscript(m[USER], ACCOUNT_NAME) == Ok(name)
  {
    map[ACTION := JStr(PRESENCE), TIME := now, USER := JObj(map[ACCOUNT_NAME := name])]
  }

  /** `create_exit_message()`: an exit frame naming the client's own account. */
  function CreateExitMessage(me: string, now: Json): (m: Dict)
    ensures IsExit(m) && m.Keys == {ACTION, TIME, ACCOUNT_NAME}
    ensures m[ACCOUNT_NAME] == JStr(me) && m[TIME] == now
  {
    map[ACTION := JStr(EXIT), TIME := now, ACCOUNT_NAME := JStr(me)]
  }

  /** The chat frame `create_message` builds. */
  function ChatFrame(me: string, to: string, now: Json, text: string): (m: Dict)
    ensures IsChat(m) && ChatFor(m, to)
    ensures m[SENDER] == JStr(me) && m[MESSAGE_TEXT] == JStr(text) && m[TIME] == now
  {
    map[ACTION := JStr(MESSAGE), SENDER := JStr(me), DESTINATION := JStr(to), TIME := now,
        MESSAGE_TEXT := JStr(text)]
  }

  /** What `create_message` did: nothing for an unknown recipient; otherwise
      the chat is saved to the history and then sent, or not sent because
      of a timeout, or the connection is lost and `exit(1)` ends the sender
      thread, after which `main` returns normally. */
  datatype Posting = Refused | Sent(frame: Dict) | TimedOut(frame: Dict) | Lost(frame: Dict)

  /** `create_message()` with the recipient and text typed in, the users the
      local database knows, and the errno of the OSError the send raised
      (0 for a timeout), if it raised one. */
  function CreateMessage(known: set<string>, me: string, to: string, text: string, now: Json,
                         sendErrno: Option<int>): (r: Posting)
    ensures r.Refused? <==> to !in known
    ensures !r.Refused? ==> r.frame == ChatFrame(me, to, now, text)
    ensures r.Sent? <==> to in known && sendErrno.None?
    ensures r.Lost? <==> to in known && sendErrno.Some? && sendErrno.value != 0
  {
    if to !in known then Refused
    else
      var frame := ChatFrame(me, to, now, text);
      match sendErrno
      case None => Sent(frame)
      case Some(errno) => if errno != 0 then Lost(frame) else TimedOut(frame)
  }

  // The four request helpers: a request frame and the check of its reply.

  function ContactsListRequest(name: Json, now: Json): (m: Dict)
    ensures IsGetContacts(m) && m[USER] == name && TIME in m && m[TIME] == now
  {
    map[ACTION := JStr(GET_CONTACTS), TIME := now, USER := name]
  }

  /** The list of a 202 reply; anything else raises ServerError. */
  function ContactsListReply(ans: Dict): (r: Result<Json>)
    ensures r.Ok? <==> RESPONSE in ans && ans[RESPONSE] == JNum(202) && LIST_INFO in ans
    ensures r.Ok? ==> r.value == ans[LIST_INFO]
    ensures r.Raise? ==> r.exc == (if RESPONSE in ans && ans[RESPONSE] == JNum(202) then KeyError else ServerError(""))
  {
    if RESPONSE in ans && ans[RESPONSE] == JNum(202) then
      if LIST_INFO in ans then Ok(ans[LIST_INFO]) else Raise(KeyError)
    else Raise(ServerError(""))
  }

  function AddContactRequest(user: Json, contact: Json, now: Json): (m: Dict)
    ensures IsAddContact(m) && m[USER] == user && m[ACCOUNT_NAME] == contact && TIME in m && m[TIME] == now
  {
    map[ACTION := JStr(ADD_CONTACT), TIME := now, USER := user, ACCOUNT_NAME := contact]
  }

  /** Success only on 200. */
  function AddContactReply(ans: Dict): (r: Result<()>)
    ensures r.Ok? <==> RESPONSE in ans && ans[RESPONSE] == JNum(200)
    ensures r.Raise? ==> r.exc == Failure("New contact was not created. Server error.")
  {
    if RESPONSE in ans && ans[RESPONSE] == JNum(200) then Ok(())
    else Raise(Failure("New contact was not created. Server error."))
  }

  function UserListRequest(name: Json, now: Json): (m: Dict)
    ensures IsUsersRequest(m) && m[ACCOUNT_NAME] == name && TIME in m && m[TIME] == now
  {
    map[ACTION := JStr(USERS_REQUEST), TIME := now, ACCOUNT_NAME := name]
  }

  /** The list of a 202 reply; anything else raises a bare Exception. */
  function UserListReply(ans: Dict): (r: Result<Json>)
    ensures r.Ok? <==> RESPONSE in ans && ans[RESPONSE] == JNum(202) && LIST_INFO in ans
    ensures r.Ok? ==> r.value == ans[LIST_INFO]
    ensures r.Raise? ==> r.exc == (if RESPONSE in ans && ans[RESPONSE] == JNum(202) then KeyError else Failure(""))
  {
    if RESPONSE in ans && ans[RESPONSE] == JNum(202) then
      if LIST_INFO in ans then Ok(ans[LIST_INFO]) else Raise(KeyError)
    else Raise(Failure(""))
  }

  function RemoveContactRequest(user: Json, contact: Json, now: Json): (m: Dict)
    ensures IsRemoveContact(m) && m[USER] == user && m[ACCOUNT_NAME] == contact && TIME in m && m[TIME] == now
  {
    map[ACTION := JStr(REMOVE_CONTACT), TIME := now, USER := user, ACCOUNT_NAME := contact]
  }

  /** Success only on 200. Checked the same way as AddContactReply, but the
      source raises a different text, so the two stay separate. */
  function RemoveContactReply(ans: Dict): (r: Result<()>)
    ensures r.Ok? <==> RESPONSE in ans && ans[RESPONSE] == JNum(200)
    ensures r.Raise? ==> r.exc == Failure("Contact deleting failed")
  {
    if RESPONSE in ans && ans[RESPONSE] == JNum(200) then Ok(())
    else Raise(Failure("Contact deleting failed"))
  }

  /** The server's replies to the four requests read back: a 202 list is
      returned as sent, a 200 confirms a change, and a 400 refusal is an
      error for every helper. */
  lemma RequestRepliesRoundTrip(list: seq<Json>, error: string)
    ensures ContactsListReply(Response202(list)) == Ok(JList(list))
    ensures UserListReply(Response202(list)) == Ok(JList(list))
    ensures AddContactReply(Response200).Ok? && RemoveContactReply(Response200).Ok?
    ensures ContactsListReply(Response400(error)).Raise? && UserListReply(Response400(error)).Raise?
    ensures AddContactReply(Response400(error)).Raise? && RemoveContactReply(Response400(error)).Raise?
  {
    assert Response400(error)[RESPONSE] == JNum(400);
  }


  // The reader thread.

  /** `ClientReader.run`: read until the loop ends or the reads run out. */
  method ReaderRun(me: string, inbound: seq<Received>) returns (shown: seq<Chat>, end: End)
    ensures (shown, end) == Reader(AppReader, me, inbound)
  {
    shown, end := [], Reading;
    var i := 0;
    while i < |inbound|
      invariant 0 <= i <= |inbound|
      invariant end == Reading && Reader(AppReader, me, inbound[..i]) == (shown, end)
    {
      assert inbound[..i + 1][..i] == inbound[..i];
      ghost var step := ReadOutcome(AppReader, me, inbound[i]);
      ghost var shown0 := shown;
      assert Reader(AppReader, me, inbound[..i + 1]) == (shown + (if step.0.Some? then [step.0.value] else []), step.1);
      match inbound[i] {
        case Frame(m) =>
          if ChatFor(m, me) {
            shown := shown + [Chat(m[SENDER], m[MESSAGE_TEXT])];
          }
        case Failed(e) =>
          if (e.OSError? && e.errno != 0) || e.JsonDecodeError? {
            end := Stopped;
          } else if !e.OSError? && !e.ConnectionError? {
            end := Crashed(e);
          }
      }
      assert end == step.1;
      assert shown == shown0 + (if step.0.Some? then [step.0.value] else []);
      if end != Reading {
        ReaderStops(AppReader, me, inbound, i + 1);
        return;
      }
      i := i + 1;
    }
    assert inbound[..i] == inbound;
  }
}
