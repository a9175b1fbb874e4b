/** The lesson 3 server (lesson_3/server.py): the first one-shot presence
    checker. It differs from lesson 6 in the key of its refusal: the 400 is
    stored under RESPONSE_DEFAULT_IP_ADDRESSES, so a refusal carries no
    'response' key at all. */
module Lesson3Server {
  import opened Jim

  /** The refusal `process_client_message` returns. */
  const Refusal: Dict := map[RESPONSE_DEFAULT_IP_ADDRESSES := JNum(400), ERROR := JStr("Bad Request")]

  /** `process_client_message(message)`: stateless, and raising exactly when
      `message[USER][ACCOUNT_NAME]` cannot be looked up. A reply has a
      'response' key exactly when it is the acceptance. */
  function ProcessClientMessage(m: Dict): (r: Result<Dict>)
    ensures r.Raise? <==> GuestPresence(m).Raise?
    ensures r.Ok? ==> (RESPONSE in r.value <==> r.value == Response200)
    ensures r.Ok? && r.value != Response200 ==>
      r.value == map[RESPONSE_DEFAULT_IP_ADDRESSES := JNum(400), ERROR := JStr("Bad Request")]
  {
    match GuestPresence(m)
    case Raise(e) => Raise(e)
    case Ok(guest) => Ok(if guest then Response200 else Refusal)
  }

  /** `{response: 200}` exactly for a presence frame with a time and a user
      dict whose account name is 'Guest'; every other frame that does not
      raise gets a reply without a 'response' key. */
  lemma AcceptsOnlyGuest(m: Dict)
    ensures ProcessClientMessage(m) == Ok(Response200) <==>
      && Is(m, ACTION, PRESENCE) && TIME in m && USER in m
      && m[USER].JObj? && ACCOUNT_NAME in m[USER].fields
      && m[USER].fields[ACCOUNT_NAME] == JStr(GUEST)
    ensures ProcessClientMessage(m).Ok? && ProcessClientMessage(m) != Ok(Response200) ==>
      RESPONSE !in ProcessClientMessage(m).value
  {
    assert RESPONSE !in Refusal by {
      assert RESPONSE != RESPONSE_DEFAULT_IP_ADDRESSES by {
        assert |RESPONSE| != |RESPONSE_DEFAULT_IP_ADDRESSES|;
      }
      assert RESPONSE != ERROR;
    }
  }
}
