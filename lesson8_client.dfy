/** The console client of lesson 8 (lesson_8/client.py): its receiver loop,
    its command loop and the chats it sends. Its presence, exit frame,
    reply reading and port check are those of the final client. */
module Lesson8Client {
  import opened Jim
  import opened ChatReader
  import opened AppClient

  /** `message_from_server(sock, client_name)`: read until a read error ends
      the loop or the reads run out. */
  method MessageFromServer(me: string, inbound: seq<Received>) returns (shown: seq<Chat>, end: End)
    ensures (shown, end) == Reader(Lesson8Receiver, me, inbound)
  {
    shown, end := [], Reading;
    var i := 0;
    while i < |inbound|
      invariant 0 <= i <= |inbound|
      invariant end == Reading && Reader(Lesson8Receiver, me, inbound[..i]) == (shown, end)
    {
      assert inbound[..i + 1][..i] == inbound[..i];
      ghost var step := ReadOutcome(Lesson8Receiver, me, inbound[i]);
      ghost var shown0 := shown;
      assert Reader(Lesson8Receiver, me, inbound[..i + 1]) ==
        (shown + (if step.0.Some? then [step.0.value] else []), step.1);
      match inbound[i] {
        case Frame(m) =>
          if ChatFor(m, me) {
            shown := shown + [Chat(m[SENDER], m[MESSAGE_TEXT])];
          }
        case Failed(e) =>
          end := if IsOSError(e) || e.JsonDecodeError? then Stopped else Crashed(e);
      }
      assert end == step.1;
      assert shown == shown0 + (if step.0.Some? then [step.0.value] else []);
      if end != Reading {
        ReaderStops(Lesson8Receiver, me, inbound, i + 1);
        return;
      }
      i := i + 1;
    }
    assert inbound[..i] == inbound;
  }

  /** `create_message(sock, account_name)`: the chat is sent, or the send
      raised and `sys.exit(1)` ends the user-interface thread it runs in;
      `main` then sees the thread gone and returns normally. */
  datatype Posting = Posted(frame: Dict) | SenderEnded

  function CreateMessage(me: string, to: string, text: string, now: Json, sendErr: Option<Exc>): (r: Posting)
    ensures r.Posted? <==> sendErr.None?
    ensures r.Posted? ==>
      IsChat(r.frame) && ChatFor(r.frame, to) && r.frame[SENDER] == JStr(me) && r.frame[MESSAGE_TEXT] == JStr(text)
  {
    if sendErr.None? then Posted(ChatFrame(me, to, now, text)) else SenderEnded
  }

  /** How the command loop ended: it waits for more input, the 'exit'
      command closed it, a failed chat send ended the thread, or the
      exit frame's send raised and ended the thread. */
  datatype Ending = Waiting | Closed | SenderThreadEnded | SendRaised(exc: Exc)

  /** The frames sent and how the loop ended. */
  datatype Console = Console(sent: seq<Dict>, ending: Ending)

  /** The outcome of the k-th send: an exception, or None when it went
      through (sends past the end of the list go through). */
  function SendOutcome(sendErrs: seq<Option<Exc>>, k: nat): Option<Exc> {
    if k < |sendErrs| then sendErrs[k] else None
  }

  /** `user_interactions(sock, client_name)` over the lines typed from line
      `i` on, after the frames in `sent`. 'message' reads two more lines
      (receiver, text); 'exit' sends the exit frame and ends the loop;
      'help' and any other line only print. */
  function Interact(me: string, lines: seq<string>, i: nat, sendErrs: seq<Option<Exc>>, now: Json,
                    sent: seq<Dict>): Console
    decreases |lines| - i
  {
    if i >= |lines| then Console(sent, Waiting)
    else if lines[i] == "message" then
      if i + 2 >= |lines| then Console(sent, Waiting)
      else match CreateMessage(me, lines[i + 1], lines[i + 2], now, SendOutcome(sendErrs, |sent|))
        case SenderEnded => Console(sent, SenderThreadEnded)
        case Posted(frame) => Interact(me, lines, i + 3, sendErrs, now, sent + [frame])
    else if lines[i] == "exit" then
      match SendOutcome(sendErrs, |sent|)
      case None => Console(sent + [CreateExitMessage(me, now)], Closed)
      case Some(e) => Console(sent, SendRaised(e))
    else Interact(me, lines, i + 1, sendErrs, now, sent)
  }

  /** The loop itself. */
  method UserInteractions(me: string, lines: seq<string>, sendErrs: seq<Option<Exc>>, now: Json)
    returns (sent: seq<Dict>, ending: Ending)
    ensures Console(sent, ending) == Interact(me, lines, 0, sendErrs, now, [])
  {
    sent := [];
    var i := 0;
    while i < |lines|
      invariant Interact(me, lines, 0, sendErrs, now, []) == Interact(me, lines, i, sendErrs, now, sent)
      decreases |lines| - i
    {
      var command := lines[i];
      if command == "message" {
        if i + 2 >= |lines| {
          return sent, Waiting;
        }
        var err := SendOutcome(sendErrs, |sent|);
        if err.Some? {
          return sent, SenderThreadEnded;
        }
        sent := sent + [ChatFrame(me, lines[i + 1], now, lines[i + 2])];
        i := i + 3;
      } else if command == "exit" {
        var err := SendOutcome(sendErrs, |sent|);
        if err.Some? {
          return sent, SendRaised(err.value);
        }
        return sent + [CreateExitMessage(me, now)], Closed;
      } else {
        i := i + 1;
      }
    }
    ending := Waiting;
  }

  /** 'exit' ends the loop: if its send goes through, the exit frame is the
      last frame sent and the lines after it are never read. */
  lemma ExitEndsLoop(me: string, lines: seq<string>, i: nat, sendErrs: seq<Option<Exc>>, now: Json,
                     sent: seq<Dict>, more: seq<string>)
    requires i < |lines| && lines[i] == "exit" && SendOutcome(sendErrs, |sent|).None?
    ensures Interact(me, lines, i, sendErrs, now, sent) == Console(sent + [CreateExitMessage(me, now)], Closed)
    ensures Interact(me, lines + more, i, sendErrs, now, sent) == Interact(me, lines, i, sendErrs, now, sent)
  {
    assert (lines + more)[i] == "exit";
  }

  /** A line that is no command is skipped and the loop reads the next one. */
  lemma UnknownCommandContinues(me: string, lines: seq<string>, i: nat, sendErrs: seq<Option<Exc>>,
                                now: Json, sent: seq<Dict>)
    requires i < |lines| && lines[i] !in {"message", "exit"}
    ensures Interact(me, lines, i, sendErrs, now, sent) == Interact(me, lines, i + 1, sendErrs, now, sent)
  {
  }

  /** Every frame the loop sends after `sent` is a chat from this user,
      except an exit frame, which can only be the last and only on Closed. */
  lemma {:induction false} SentFrames(me: string, lines: seq<string>, i: nat, sendErrs: seq<Option<Exc>>,
                                      now: Json, sent: seq<Dict>)
    ensures var c := Interact(me, lines, i, sendErrs, now, sent);
      && |c.sent| >= |sent| && c.sent[..|sent|] == sent
      && (forall k :: |sent| <= k < |c.sent| && (c.ending != Closed || k < |c.sent| - 1) ==>
            IsChat(c.sent[k]) && c.sent[k][SENDER] == JStr(me))
      && (c.ending == Closed ==> |c.sent| > |sent| && c.sent[|c.sent| - 1] == CreateExitMessage(me, now))
    decreases |lines| - i
  {
    if i < |lines| {
      if lines[i] == "message" && i + 2 < |lines| {
        var r := CreateMessage(me, lines[i + 1], lines[i + 2], now, SendOutcome(sendErrs, |sent|));
        if r.Posted? {
          SentFrames(me, lines, i + 3, sendErrs, now, sent + [r.frame]);
          var c := Interact(me, lines, i + 3, sendErrs, now, sent + [r.frame]);
          assert c.sent[..|sent| + 1][..|sent|] == sent;
          assert c.sent[..|sent|] == sent;
        }
      } else if lines[i] != "message" && lines[i] != "exit" {
        SentFrames(me, lines, i + 1, sendErrs, now, sent);
      }
    }
  }
}
