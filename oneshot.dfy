/** The `while True` loop of the lesson 3 and lesson 6 servers' `main`:
    accept a connection, read one frame, answer it with the reply of
    `process_client_message`, close the connection. A ValueError or
    JSONDecodeError on the way closes the connection without a reply; any
    other exception leaves `main` and ends the server. The two servers
    differ only in their `process_client_message`, which is the `handler`
    parameter here. */
module OneShot {
  import opened Jim
  import opened Registry

  /** What the loop body leaves behind for one accepted connection. */
  datatype Session = Session(reply: Option<Dict>, closed: bool, raised: Option<Exc>)

  /** The loop body for connection c whose `get_message` had outcome `got`.
      A freshly accepted connection has not been closed, so only the
      network can make the send fail. A frame the handler answers gets
      exactly that answer and is closed; a ValueError (a bad frame or a bad
      encoding) closes the connection with no answer; everything else ends
      the server without closing it. */
  function Handle(handler: Dict -> Result<Dict>, c: Conn, got: Received, net: Net): (h: Session)
    ensures h.reply.Some? <==> got.Frame? && handler(got.msg).Ok? && c !in net.broken
    ensures h.reply.Some? ==> h.reply.value == handler(got.msg).value
    ensures h.raised.None? <==> h.closed
    ensures h.raised.Some? ==> !IsValueError(h.raised.value) && h.reply.None?
    ensures got.Failed? ==> (h.raised.None? <==> IsValueError(got.exc))
  {
    var outcome :=
      match got
      case Failed(e) => Raise(e)
      case Frame(m) =>
        match handler(m)
        case Raise(e) => Raise(e)
        case Ok(reply) =>
          match SendError({}, net, c)
          case Some(e) => Raise(e)
          case None => Ok(reply);
    match outcome
    case Ok(reply) => Session(Some(reply), true, None)
    case Raise(e) =>
      if IsValueError(e) then Session(None, true, None)
      else Session(None, false, Some(e))
  }

  /** Replies sent, connections closed and the exception that ended `main`. */
  datatype Served = Served(sent: seq<Delivery>, closed: seq<Conn>, raised: Option<Exc>)

  /** The loop run over the connections accepted so far, oldest first; it
      stops at the first exception that escapes. */
  function ServeAll(handler: Dict -> Result<Dict>, accepted: seq<Incoming>, net: Net): Served
    decreases |accepted|
  {
    if accepted == [] then Served([], [], None)
    else
      var prev := ServeAll(handler, accepted[..|accepted| - 1], net);
      if prev.raised.Some? then prev
      else
        var inc := accepted[|accepted| - 1];
        var h := Handle(handler, inc.conn, inc.got, net);
        Served(prev.sent + (if h.reply.Some? then [Delivery(inc.conn, h.reply.value)] else []),
               prev.closed + (if h.closed then [inc.conn] else []),
               h.raised)
  }

  /** The accepted connections, in order. */
  function Arrivals(accepted: seq<Incoming>): (r: seq<Conn>)
    ensures |r| == |accepted| && forall k :: 0 <= k < |r| ==> r[k] == accepted[k].conn
  {
    seq(|accepted|, k requires 0 <= k < |accepted| => accepted[k].conn)
  }

  /** The connections replies went to, in order. */
  function Recipients(sent: seq<Delivery>): (r: seq<Conn>)
    ensures |r| == |sent| && forall k :: 0 <= k < |r| ==> r[k] == sent[k].to
  {
    seq(|sent|, k requires 0 <= k < |sent| => sent[k].to)
  }

  /** Once an exception has escaped, later connections are never served. */
  lemma {:induction false} ServeAllStops(handler: Dict -> Result<Dict>, accepted: seq<Incoming>, k: nat, net: Net)
    requires k <= |accepted|
    requires ServeAll(handler, accepted[..k], net).raised.Some?
    ensures ServeAll(handler, accepted, net) == ServeAll(handler, accepted[..k], net)
    decreases |accepted|
  {
    if k < |accepted| {
      var init := accepted[..|accepted| - 1];
      assert init[..k] == accepted[..k];
      ServeAllStops(handler, init, k, net);
    } else {
      assert accepted[..k] == accepted;
    }
  }

  /** Every reply goes to a connection that is then closed, only accepted
      connections are closed, and while the server survives every accepted
      connection is closed, in order. */
  lemma {:induction false} ServeAllClosesAccepted(handler: Dict -> Result<Dict>, accepted: seq<Incoming>, net: Net)
    ensures var r := ServeAll(handler, accepted, net);
      && (forall d :: d in r.sent ==> d.to in r.closed)
      && (forall c :: c in r.closed ==> c in Arrivals(accepted))
      && (r.raised.None? ==> r.closed == Arrivals(accepted))
      && (r.raised.Some? ==> !IsValueError(r.raised.value))
    decreases |accepted|
  {
    if accepted != [] {
      var init := accepted[..|accepted| - 1];
      var inc := accepted[|accepted| - 1];
      assert Arrivals(accepted) == Arrivals(init) + [inc.conn];
      ServeAllClosesAccepted(handler, init, net);
    }
  }

  /** No connection gets two replies, as long as the accepted connections
      are distinct. */
  lemma {:induction false} ServeAllOneReplyEach(handler: Dict -> Result<Dict>, accepted: seq<Incoming>, net: Net)
    requires NoDup(Arrivals(accepted))
    ensures NoDup(Recipients(ServeAll(handler, accepted, net).sent))
    decreases |accepted|
  {
    if accepted != [] {
      var init := accepted[..|accepted| - 1];
      var inc := accepted[|accepted| - 1];
      assert Arrivals(init) == Arrivals(accepted)[..|accepted| - 1];
      LastNotInInit(Arrivals(accepted));
      ServeAllOneReplyEach(handler, init, net);
      ServeAllClosesAccepted(handler, init, net);
      var prev := ServeAll(handler, init, net);
      if prev.raised.None? {
        var r := ServeAll(handler, accepted, net);
        assert forall d :: d in prev.sent ==> d.to != inc.conn;
        forall i, j | 0 <= i < j < |Recipients(r.sent)|
          ensures Recipients(r.sent)[i] != Recipients(r.sent)[j]
        {
          if j >= |prev.sent| {
            assert r.sent[i] in prev.sent;
          } else {
            assert Recipients(prev.sent)[i] == Recipients(r.sent)[i];
            assert Recipients(prev.sent)[j] == Recipients(r.sent)[j];
          }
        }
      }
    }
  }

  /** The loop itself, over the connections accepted while it runs. */
  method Serve(handler: Dict -> Result<Dict>, accepted: seq<Incoming>, net: Net)
    returns (sent: seq<Delivery>, closed: seq<Conn>, raised: Option<Exc>)
    ensures Served(sent, closed, raised) == ServeAll(handler, accepted, net)
  {
    sent, closed, raised := [], [], None;
    var i := 0;
    while i < |accepted|
      invariant 0 <= i <= |accepted|
      invariant ServeAll(handler, accepted[..i], net) == Served(sent, closed, None)
    {
      assert accepted[..i + 1][..i] == accepted[..i];
      var c := accepted[i].conn;
      var outcome: Result<Dict>;
      match accepted[i].got {
        case Failed(e) => outcome := Raise(e);
        case Frame(m) =>
          outcome := handler(m);
          if outcome.Ok? && c in net.broken {
            outcome := Raise(OSError(EPIPE));
          }
      }
      if outcome.Ok? {
        sent := sent + [Delivery(c, outcome.value)];
        closed := closed + [c];
      } else if IsValueError(outcome.exc) {
        closed := closed + [c];
      } else {
        raised := Some(outcome.exc);
        ServeAllStops(handler, accepted, i + 1, net);
        return;
      }
      i := i + 1;
    }
    assert accepted[..i] == accepted;
  }
}
