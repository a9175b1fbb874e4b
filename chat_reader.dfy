/** The receiving loop of the console clients (the reader thread of
    app/client.py and `message_from_server` of lesson_8/client.py): the
    chats shown and how the loop ended. The two differ only in which read
    errors end the loop. */
module ChatReader {
  import opened Jim

  /** A chat the reader showed (and saved): its sender and text. */
  datatype Chat = Chat(sender: Json, text: Json)

  /** How the reading loop ended: it is still reading, it left with
      `break`, or an exception none of its handlers catch ended the thread. */
  datatype End = Reading | Stopped | Crashed(exc: Exc)

  /** Whose error handlers the loop has: app/client.py ignores an OSError
      without an errno (its socket has a timeout), lesson_8/client.py stops
      at any OSError. */
  datatype Handlers = AppReader | Lesson8Receiver

  /** What one read does: show a chat addressed to this client, ignore a
      frame or a timeout, or end the loop. In the app an OSError with an
      errno ends it, and one without (a timeout, or a ConnectionError raised
      with no errno) is caught by `except OSError` and ignored; in lesson 8
      every OSError and ConnectionError ends it. A JSON decode error ends
      the loop; any other exception escapes. */
  function ReadOutcome(h: Handlers, me: string, got: Received): (r: (Option<Chat>, End))
    ensures r.0.Some? ==> r.1 == Reading && got.Frame? && ChatFor(got.msg, me)
    ensures got.Frame? ==> r.1 == Reading && (r.0.Some? <==> ChatFor(got.msg, me))
  {
    match got
    case Frame(m) =>
      if ChatFor(m, me) then (Some(Chat(m[SENDER], m[MESSAGE_TEXT])), Reading) else (None, Reading)
    case Failed(e) =>
      if h.Lesson8Receiver? then
        if IsOSError(e) || e.JsonDecodeError? then (None, Stopped) else (None, Crashed(e))
      else if e.OSError? then (None, if e.errno != 0 then Stopped else Reading)
      else if e.ConnectionError? then (None, Reading)
      else if e.JsonDecodeError? then (None, Stopped)
      else (None, Crashed(e))
  }

  /** The reader over a sequence of reads: the chats shown, in order, and how
      it ended. Nothing after the read that ends the loop is looked at. */
  function Reader(h: Handlers, me: string, inbound: seq<Received>): (seq<Chat>, End)
    decreases |inbound|
  {
    if inbound == [] then ([], Reading)
    else
      var prev := Reader(h, me, inbound[..|inbound| - 1]);
      if prev.1 != Reading then prev
      else
        var step := ReadOutcome(h, me, inbound[|inbound| - 1]);
        (prev.0 + (if step.0.Some? then [step.0.value] else []), step.1)
  }

  /** Once the loop has ended, later reads change nothing. */
  lemma {:induction false} ReaderStops(h: Handlers, me: string, inbound: seq<Received>, k: nat)
    requires k <= |inbound| && Reader(h, me, inbound[..k]).1 != Reading
    ensures Reader(h, me, inbound) == Reader(h, me, inbound[..k])
    decreases |inbound|
  {
    if k < |inbound| {
      var init := inbound[..|inbound| - 1];
      assert init[..k] == inbound[..k];
      ReaderStops(h, me, init, k);
    } else {
      assert inbound[..k] == inbound;
    }
  }

  /** Every chat the reader shows came from a frame addressed to this
      client, and a loop that is still reading has shown every such frame. */
  lemma {:induction false} ReaderShowsOwnChats(h: Handlers, me: string, inbound: seq<Received>)
    ensures forall c :: c in Reader(h, me, inbound).0 ==>
      exists k :: 0 <= k < |inbound| && inbound[k].Frame? && ChatFor(inbound[k].msg, me)
        && c == Chat(inbound[k].msg[SENDER], inbound[k].msg[MESSAGE_TEXT])
    ensures Reader(h, me, inbound).1 == Reading ==>
      forall k :: 0 <= k < |inbound| && inbound[k].Frame? && ChatFor(inbound[k].msg, me) ==>
        Chat(inbound[k].msg[SENDER], inbound[k].msg[MESSAGE_TEXT]) in Reader(h, me, inbound).0
    decreases |inbound|
  {
    if inbound != [] {
      var init := inbound[..|inbound| - 1];
      ReaderShowsOwnChats(h, me, init);
      forall c | c in Reader(h, me, inbound).0
        ensures exists k :: (0 <= k < |inbound| && inbound[k].Frame? && ChatFor(inbound[k].msg, me)
          && c == Chat(inbound[k].msg[SENDER], inbound[k].msg[MESSAGE_TEXT]))
      {
        if c in Reader(h, me, init).0 {
          var k :| 0 <= k < |init| && init[k].Frame? && ChatFor(init[k].msg, me)
            && c == Chat(init[k].msg[SENDER], init[k].msg[MESSAGE_TEXT]);
          assert inbound[k] == init[k];
        } else {
          assert inbound[|inbound| - 1].Frame?;
        }
      }
      if Reader(h, me, inbound).1 == Reading {
        forall k | 0 <= k < |inbound| && inbound[k].Frame? && ChatFor(inbound[k].msg, me)
          ensures Chat(inbound[k].msg[SENDER], inbound[k].msg[MESSAGE_TEXT]) in Reader(h, me, inbound).0
        {
          if k < |init| {
            assert init[k] == inbound[k];
          }
        }
      }
    }
  }


  /** Which read errors end the loop: in both clients a JSON decode error
      and an OSError with an errno do; a timeout or an errno-less
      ConnectionError ends lesson 8's loop but not the app's; any other
      exception escapes from both. */
  lemma ReadErrorsEndLoop(me: string, e: Exc)
    ensures IsOSError(e) || e.JsonDecodeError? ==> ReadOutcome(Lesson8Receiver, me, Failed(e)) == (None, Stopped)
    ensures !IsOSError(e) && !e.JsonDecodeError? ==>
      ReadOutcome(Lesson8Receiver, me, Failed(e)) == (None, Crashed(e))
      && ReadOutcome(AppReader, me, Failed(e)) == (None, Crashed(e))
    ensures e.JsonDecodeError? || (e.OSError? && e.errno != 0) ==> ReadOutcome(AppReader, me, Failed(e)) == (None, Stopped)
    ensures ReadOutcome(AppReader, me, Failed(OSError(0))) == (None, Reading)
    ensures ReadOutcome(AppReader, me, Failed(ConnectionError)) == (None, Reading)
  {
  }
}
