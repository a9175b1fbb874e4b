/** The lesson 5 client (lesson_5/client.py): one presence, one reply read
    and logged. Its presence always names the guest, and it reads any
    response code other than 200 as a refusal. */
module Lesson5Client {
  import opened Jim
  import AppClient
  import Lesson3Server

  /** `make_presence(account_name)`: the guest's presence, whatever name is
      passed. */
  function MakePresence(name: Json, now: Json): (m: Dict)
    ensures m == AppClient.MakePresence(JStr(GUEST), now)
    ensures GuestPresence(m) == Ok(true)
  {
    map[ACTION := JStr(PRESENCE), TIME := now, USER := JObj(map[ACCOUNT_NAME := JStr("Guest")])]
  }

  /** `process_server_answer(message)`: '200 : OK' for a 200, the error text
      for any other response code (KeyError without one), and ValueError
      when there is no 'response' at all. */
  function ProcessServerAnswer(m: Dict): (r: Result<string>)
    ensures r == Ok("200 : OK") <==> RESPONSE in m && m[RESPONSE] == JNum(200)
    ensures r == Raise(ValueError) <==> RESPONSE !in m
    ensures RESPONSE in m && m[RESPONSE] != JNum(200) ==>
      (ERROR in m ==> r == Ok("400 : " + Show(m[ERROR]))) && (ERROR !in m ==> r == Raise(KeyError))
  {
    if RESPONSE in m then
      if m[RESPONSE] == JNum(200) then Ok("200 : OK")
      else if ERROR in m then
        assert ("400 : " + Show(m[ERROR]))[0] == '4';
        Ok("400 : " + Show(m[ERROR]))
      else Raise(KeyError)
    else Raise(ValueError)
  }

  /** The tail of `main`: the read reply's text is logged (Some), or a
      ValueError or JSON decode error is caught and logged (None); any other
      exception ends the program. */
  function Greet(got: Received): (r: Result<Option<string>>)
    ensures r.Raise? ==> !IsValueError(r.exc)
    ensures got.Frame? && RESPONSE !in got.msg ==> r == Ok(None)
    ensures r.Ok? && r.value.Some? ==> got.Frame? && ProcessServerAnswer(got.msg) == Ok(r.value.value)
    ensures got.Failed? ==> (r == Ok(None) <==> IsValueError(got.exc)) && (r.Raise? ==> r.exc == got.exc)
    ensures got.Frame? && ProcessServerAnswer(got.msg).Ok? ==> r == Ok(Some(ProcessServerAnswer(got.msg).value))
    ensures got.Frame? && ProcessServerAnswer(got.msg).Raise? && !IsValueError(ProcessServerAnswer(got.msg).exc) ==>
      r == Raise(ProcessServerAnswer(got.msg).exc)
  {
    match got
    case Failed(e) => if IsValueError(e) then Ok(None) else Raise(e)
    case Frame(m) =>
      match ProcessServerAnswer(m)
      case Ok(text) => Ok(Some(text))
      case Raise(e) => if IsValueError(e) then Ok(None) else Raise(e)
  }

  /** The cases of lesson_6/tests/test_client.py, asked of this client: the
      presence is the expected dict, a 200 reads as '200 : OK' and a frame
      without 'response' raises ValueError; the frame `{response: 'Bad
      Request'}` makes it raise KeyError instead of returning
      '400 : Bad Request', because it reads the error text from 'error'. */
  lemma LessonSixTests(name: Json, now: Json)
    ensures MakePresence(name, now)[TIME := JNum(2)] ==
      map[ACTION := JStr(PRESENCE), TIME := JNum(2), USER := JObj(map[ACCOUNT_NAME := JStr("Guest")])]
    ensures ProcessServerAnswer(map[RESPONSE := JNum(200)]) == Ok("200 : OK")
    ensures ProcessServerAnswer(map[RESPONSE := JStr("Bad Request")]) == Raise(KeyError)
    ensures ProcessServerAnswer(map[ERROR := JStr("error")]) == Raise(ValueError)
  {
    assert RESPONSE != ERROR;
  }

  /** Against the servers of its time: the lesson 6 refusal reads as
      '400 : Bad Request', while the lesson 3 refusal, which has no
      'response' key, is logged as an encoding error. */
  lemma ReadsServerRefusals()
    ensures ProcessServerAnswer(BadRequestReply) == Ok("400 : Bad Request")
    ensures Greet(Frame(Lesson3Server.Refusal)) == Ok(None)
  {
    assert BadRequestReply[RESPONSE] == JNum(400);
    assert "400 : " + "Bad Request" == "400 : Bad Request";
    Lesson3Server.AcceptsOnlyGuest(map[]);
    assert Lesson3Server.ProcessClientMessage(map[]) == Ok(Lesson3Server.Refusal);
  }
}
