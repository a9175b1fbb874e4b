/** The lesson 6 server (lesson_6/server.py): a one-shot presence checker.
    Each accepted connection sends one frame, gets `{response: 200}` if it
    is the guest's presence and `{response: 400, error: 'Bad Request'}`
    otherwise, and is closed. */
module Lesson6Server {
  import opened Jim
  import opened OneShot

  /** `process_client_message(message)`. It keeps no state: it is a
      function of the frame alone. Looking up `message[USER][ACCOUNT_NAME]`
      raises when the user value is not a dict holding that key. */
  function ProcessClientMessage(m: Dict): (r: Result<Dict>)
    ensures r.Raise? <==> GuestPresence(m).Raise?
    ensures r.Raise? ==> r.exc == KeyError || r.exc == TypeError
    ensures r.Ok? ==> r.value == Response200 || r.value == BadRequestReply
  {
    match GuestPresence(m)
    case Raise(e) => Raise(e)
    case Ok(guest) => Ok(if guest then Response200 else BadRequestReply)
  }

  /** The reply is 200 exactly for a presence frame carrying a time and a
      user dict whose account name is 'Guest'; every other frame that does
      not raise gets the 400 refusal. */
  lemma AcceptsOnlyGuest(m: Dict)
    ensures ProcessClientMessage(m) == Ok(Response200) <==>
      && Is(m, ACTION, PRESENCE) && TIME in m && USER in m
      && m[USER].JObj? && ACCOUNT_NAME in m[USER].fields
      && m[USER].fields[ACCOUNT_NAME] == JStr(GUEST)
    ensures !IsPresence(m) ==> ProcessClientMessage(m) == Ok(BadRequestReply)
  {
    assert Response200 != BadRequestReply by {
      assert ERROR !in Response200;
    }
  }

  /** The frames of app/tests/test_server.py (which exercises this
      single-argument validator), for any time value t. */
  lemma ServerTests(t: Json)
    ensures ProcessClientMessage(map[ACTION := JStr(PRESENCE), TIME := t,
              USER := JObj(map[ACCOUNT_NAME := JStr("Guest")])]) == Ok(Response200)
    ensures ProcessClientMessage(map[ACTION := JStr(PRESENCE), TIME := t,
              USER := JObj(map[ACCOUNT_NAME := JStr("Test")])]) == Ok(BadRequestReply)
    ensures ProcessClientMessage(map[ACTION := JStr(PRESENCE), TIME := t]) == Ok(BadRequestReply)
    ensures ProcessClientMessage(map[ACTION := JStr("test"), TIME := t,
              USER := JObj(map[ACCOUNT_NAME := JStr("Test")])]) == Ok(BadRequestReply)
    ensures ProcessClientMessage(map[TIME := t,
              USER := JObj(map[ACCOUNT_NAME := JStr("Test")])]) == Ok(BadRequestReply)
    ensures ProcessClientMessage(map[ACTION := JStr(PRESENCE),
              USER := JObj(map[ACCOUNT_NAME := JStr("Test")])]) == Ok(BadRequestReply)
  {
    var guest := JStr("Guest");
    var test := JStr("Test");
    assert guest != test by { assert guest.s[0] != test.s[0]; }
    assert JStr("test") != JStr(PRESENCE) by { assert "test"[0] != PRESENCE[0]; }
  }

  /** A read or a frame the server can digest: a frame whose presence test
      does not raise, sent over a connection that stays up, or a bad frame
      or encoding that `get_message` reports as ValueError. */
  predicate Digestible(inc: Incoming, net: Net) {
    || (inc.got.Frame? && GuestPresence(inc.got.msg).Ok? && inc.conn !in net.broken)
    || (inc.got.Failed? && IsValueError(inc.got.exc))
  }

  /** On digestible input the server never stops: every accepted connection
      is closed, and exactly those that sent a frame got a reply, 200 for
      the guest and the 400 refusal for anyone else. */
  lemma {:induction false} ServesDigestible(accepted: seq<Incoming>, net: Net)
    requires forall k :: 0 <= k < |accepted| ==> Digestible(accepted[k], net)
    ensures var r := ServeAll(ProcessClientMessage, accepted, net);
      && r.raised.None? && r.closed == Arrivals(accepted)
      && |r.sent| == |FramesOf(accepted)|
      && forall i :: 0 <= i < |r.sent| ==>
           (&& r.sent[i].to == FramesOf(accepted)[i].conn
            && (r.sent[i].body == Response200 <==> GuestPresence(FramesOf(accepted)[i].got.msg) == Ok(true)))
    decreases |accepted|
  {
    if accepted != [] {
      var init := accepted[..|accepted| - 1];
      var inc := accepted[|accepted| - 1];
      ServesDigestible(init, net);
      ServeAllClosesAccepted(ProcessClientMessage, accepted, net);
      assert Response200 != BadRequestReply by {
        assert ERROR !in Response200;
      }
    }
  }

  /** The accepted connections whose read produced a frame, in order. */
  function FramesOf(accepted: seq<Incoming>): (r: seq<Incoming>)
    ensures forall i :: 0 <= i < |r| ==> r[i].got.Frame? && r[i] in accepted
    ensures |r| <= |accepted|
    decreases |accepted|
  {
    if accepted == [] then []
    else
      var inc := accepted[|accepted| - 1];
      FramesOf(accepted[..|accepted| - 1]) + (if inc.got.Frame? then [inc] else [])
  }
}
