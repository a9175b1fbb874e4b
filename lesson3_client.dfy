/** The lesson 3 client (lesson_3/client.py): one presence, one reply read
    and printed. Its presence carries the given name (that of the final
    client); its reply reading prints the response code of a refusal and
    returns, rather than raises, ValueError when there is no response. */
module Lesson3Client {
  import opened Jim
  import AppClient
  import Lesson3Server

  /** What `process_server_answer` returns: a text, or the ValueError class
      itself. */
  datatype Answer = Text(s: string) | ValueErrorClass

  /** `process_server_answer(message)`. */
  function ProcessServerAnswer(m: Dict): (r: Answer)
    ensures r == ValueErrorClass <==> RESPONSE !in m
    ensures r == Text("200 : OK") <==> RESPONSE in m && m[RESPONSE] == JNum(200)
    ensures r.Text? && r != Text("200 : OK") ==> RESPONSE in m && r.s == "400 : " + Show(m[RESPONSE])
  {
    if RESPONSE in m then
      if m[RESPONSE] == JNum(200) then Text("200 : OK")
      else
        assert ("400 : " + Show(m[RESPONSE]))[0] == '4';
        Text("400 : " + Show(m[RESPONSE]))
    else ValueErrorClass
  }

  /** The tail of `main`: the reply is printed (Some), the ValueError class
      included; a read failing with ValueError or a JSON decode error is
      caught (None); any other read failure ends the program. Reading the
      reply itself never raises. */
  function Greet(got: Received): (r: Result<Option<Answer>>)
    ensures r.Raise? <==> got.Failed? && !IsValueError(got.exc)
    ensures got.Frame? ==> r == Ok(Some(ProcessServerAnswer(got.msg)))
  {
    match got
    case Failed(e) => if IsValueError(e) then Ok(None) else Raise(e)
    case Frame(m) => Ok(Some(ProcessServerAnswer(m)))
  }

  /** The cases of lesson_6/tests/test_client.py, asked of this client: the
      default presence is the expected dict, a 200 reads as '200 : OK', the
      frame `{response: 'Bad Request'}` reads as '400 : Bad Request'; a frame
      without 'response' does not raise, it returns ValueError. */
  lemma LessonSixTests(now: Json)
    ensures AppClient.MakePresence(JStr(GUEST), now)[TIME := JNum(2)] ==
      map[ACTION := JStr(PRESENCE), TIME := JNum(2), USER := JObj(map[ACCOUNT_NAME := JStr("Guest")])]
    ensures ProcessServerAnswer(map[RESPONSE := JNum(200)]) == Text("200 : OK")
    ensures ProcessServerAnswer(map[RESPONSE := JStr("Bad Request")]) == Text("400 : Bad Request")
    ensures ProcessServerAnswer(map[ERROR := JStr("error")]) == ValueErrorClass
  {
    assert RESPONSE != ERROR;
  }

  /** Against the lesson 3 server: the guest's acceptance reads as
      '200 : OK', but the server's refusal carries no 'response' key, so
      this client prints the ValueError class for it. */
  lemma ReadsLessonThreeServer(now: Json)
    ensures Lesson3Server.ProcessClientMessage(AppClient.MakePresence(JStr(GUEST), now)) == Ok(Response200)
    ensures ProcessServerAnswer(Response200) == Text("200 : OK")
    ensures ProcessServerAnswer(Lesson3Server.Refusal) == ValueErrorClass
  {
    Lesson3Server.AcceptsOnlyGuest(map[]);
    Lesson3Server.AcceptsOnlyGuest(AppClient.MakePresence(JStr(GUEST), now));
    assert Lesson3Server.ProcessClientMessage(map[]) == Ok(Lesson3Server.Refusal);
  }
}
