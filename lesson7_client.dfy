/** The lesson 7 client (lesson_7/client.py): a client that either listens
    to the broadcast or sends chats, chosen on the command line. Its
    presence is lesson 5's and its reply reading is the final client's. */
module Lesson7Client {
  import opened Jim
  import opened Cli
  import opened ChatReader
  import Lesson5Client
  import Lesson7Router

  /** `message_from_server(message)`: a chat frame with a sender and a text
      is shown; there is no check of whom it is addressed to. */
  function MessageFromServer(m: Dict): (r: Option<Chat>)
    ensures r.Some? <==> Is(m, ACTION, MESSAGE) && SENDER_L7 in m && MESSAGE_TEXT in m
    ensures r.Some? ==> r.value == Chat(m[SENDER_L7], m[MESSAGE_TEXT])
  {
    if Is(m, ACTION, MESSAGE) && SENDER_L7 in m && MESSAGE_TEXT in m then
      Some(Chat(m[SENDER_L7], m[MESSAGE_TEXT]))
    else None
  }

  /** `create_message(sock, account_name)` with the typed line: 'q' closes the
      socket and exits with status 0; anything else is a chat frame. */
  function CreateMessage(me: string, line: string, now: Json): (r: Outcome<Dict>)
    ensures r.Exit? <==> line == "q"
    ensures r.Exit? ==> r.status == 0
    ensures r.Run? ==> Is(r.value, ACTION, MESSAGE) && r.value.Keys == {ACTION, TIME, ACCOUNT_NAME, MESSAGE_TEXT}
    ensures r.Run? ==> r.value[ACCOUNT_NAME] == JStr(me) && r.value[MESSAGE_TEXT] == JStr(line)
  {
    if line == "q" then Exit(0)
    else Run(map[ACTION := JStr(MESSAGE), TIME := now, ACCOUNT_NAME := JStr(me), MESSAGE_TEXT := JStr(line)])
  }

  /** `arg_parser()` after parsing: the port is checked first, then the
      mode, which must be 'listen' or 'send'. */
  function ClientParams(port: int, mode: string): (r: Outcome<(int, string)>)
    ensures r.Run? <==> PORT_MIN <= port <= PORT_MAX && mode in {"listen", "send"}
    ensures r.Run? ==> r.value == (port, mode)
    ensures r.Exit? ==> r.status == 1
  {
    match CheckPort(port)
    case Exit(status) => Exit(status)
    case Run(p) => if mode !in {"listen", "send"} then Exit(1) else Run((p, mode))
  }

  /** The client shows chats addressed to anyone: the destination of a
      frame plays no part. */
  lemma NoDestinationCheck(m: Dict, to: Json)
    ensures MessageFromServer(m[DESTINATION := to]) == MessageFromServer(m)
  {
    assert DESTINATION != ACTION && DESTINATION != SENDER_L7 && DESTINATION != MESSAGE_TEXT by {
      assert |DESTINATION| == 2;
    }
  }

  /** A chat typed in a sending client travels whole: the lesson 7 server
      queues it under the sender's name, and the frame it broadcasts from
      the queue is shown by a listening client as that sender and text. */
  lemma ChatRoundTrip(s: Lesson7Router.State, me: string, line: string, now: Json, later: Json,
                      client: Conn, net: Net)
    requires line != "q"
    ensures var r := Lesson7Router.ProcessClientMessage(s, CreateMessage(me, line, now).value, client, net);
      && r == Lesson7Router.Step(s.(messages := s.messages + [Lesson7Router.Pending(JStr(me), JStr(line))]), None, None)
      && MessageFromServer(Lesson7Router.Outgoing(Lesson7Router.Pending(JStr(me), JStr(line)), later))
           == Some(Chat(JStr(me), JStr(line)))
  {
    var m := CreateMessage(me, line, now).value;
    assert !IsPresence(m) by {
      assert m[ACTION] == JStr(MESSAGE);
      assert MESSAGE != PRESENCE;
    }
    Lesson7Router.ChatQueued(s, m, client, net);
  }

  /** The presence this client sends is the one the lesson 7 server
      answers with 200, whatever name the client runs under. */
  lemma PresenceAccepted(s: Lesson7Router.State, name: Json, now: Json, client: Conn, net: Net)
    requires client !in s.closed && client !in net.broken
    ensures Lesson7Router.ProcessClientMessage(s, Lesson5Client.MakePresence(name, now), client, net).st.sent
      == s.sent + [Delivery(client, Response200)]
  {
    Lesson7Router.PresenceOnlyGuest(s, Lesson5Client.MakePresence(name, now), client, net);
  }
}
