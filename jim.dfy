/** The JIM wire vocabulary shared by every iteration of the chat relay:
    decoded frames are JSON objects, the keys and actions are fixed strings,
    and the server answers with small reply dictionaries.
    The frame codec itself (send_json_message / get_message) is not part of
    this model: a read is represented by its outcome, a send by a Delivery. */
module Jim {

  /** A decoded JSON value. Python's `time.time()` floats travel as opaque
      values; the model never inspects them. */
  datatype Json =
    | JNull
    | JBool(b: bool)
    | JNum(n: int)
    | JStr(s: string)
    | JList(items: seq<Json>)
    | JObj(fields: map<string, Json>)

  /** One decoded frame: a JSON object. */
  type Dict = map<string, Json>

  /** Largest frame the codec reads at once (bytes). */
  const MAX_PACKAGE_LENGTH: nat := 1024
  const DEFAULT_SERVER_ADDRESS: string := "127.0.0.1"
  const DEFAULT_SERVER_PORT: int := 7777

  // Main keys
  const ACTION: string := "action"
  const TIME: string := "time"
  const USER: string := "user"
  const ACCOUNT_NAME: string := "account_name"
  const SENDER: string := "from"
  const DESTINATION: string := "to"
  /** The sender key of the lesson_7 iteration. */
  const SENDER_L7: string := "sender"

  // Other keys and actions
  const MESSAGE: string := "message"
  const MESSAGE_TEXT: string := "message text"
  const PRESENCE: string := "presence"
  const RESPONSE: string := "response"
  const ERROR: string := "error"
  const RESPONSE_DEFAULT_IP_ADDRESSES: string := "response_default_ip_addresses"
  const EXIT: string := "exit"

  // Directory actions and the payload key. Their values live in a constants
  // file that is not part of this model; only their distinctness matters.
  const GET_CONTACTS: string := "get_contacts"
  const ADD_CONTACT: string := "add"
  const REMOVE_CONTACT: string := "remove"
  const USERS_REQUEST: string := "get_users"
  const LIST_INFO: string := "data_list"

  /** `key in m and m[key] == value` for a string value. */
  predicate Is(m: Dict, key: string, value: string) {
    key in m && m[key] == JStr(value)
  }

  /** Python refuses lists and dicts as dictionary keys (TypeError). */
  predicate Hashable(v: Json) {
    !v.JList? && !v.JObj?
  }

  /** Python exceptions that the relay raises or catches. */
  datatype Exc =
    | KeyError
    | TypeError
    | ValueError
    | JsonDecodeError           // a subclass of ValueError
    | AttributeError
    | OSError(errno: int)       // errno 0 stands for a falsy errno (a timeout)
    | ConnectionError           // a subclass of OSError
    | ServerError(text: string)   // the clients' own exception class
    | Failure(text: string)       // a plain `Exception(text)`

  /** `except OSError` catches OSError and its subclass ConnectionError. */
  predicate IsOSError(e: Exc) {
    e.OSError? || e.ConnectionError?
  }

  /** `except ValueError` catches ValueError and JSONDecodeError. */
  predicate IsValueError(e: Exc) {
    e.ValueError? || e.JsonDecodeError?
  }

  /** Bad file descriptor: any I/O on a socket this process closed. */
  const EBADF: int := 9
  /** Broken pipe: a send to a connection whose peer went away. */
  const EPIPE: int := 32
  /** Not connected: `getpeername()` on a connection whose peer is gone. */
  const ENOTCONN: int := 107

  /** A value or the exception that replaced it. */
  datatype Result<T> = Ok(value: T) | Raise(exc: Exc)

  datatype Option<T> = None | Some(value: T)

  /** `v[key]` where v came out of a frame: a dict lookup, KeyError for a
      missing key, TypeError for any value that is not a dict. */
  function Subscript(v: Json, key: string): Result<Json> {
    match v
    case JObj(fields) => if key in fields then Ok(fields[key]) else Raise(KeyError)
    case _ => Raise(TypeError)
  }

  /** A connection handle: an opaque id plus the peer address that
      `getpeername()` reports. */
  datatype Conn = Conn(id: nat, ip: string, port: int)

  /** One frame written to one connection. */
  datatype Delivery = Delivery(to: Conn, body: Dict)

  /** The outcome of one `get_message` call. */
  datatype Received = Frame(msg: Dict) | Failed(exc: Exc)

  // Reply dictionaries. RESPONSE_400 and RESPONSE_202 are module-level
  // dictionaries that the servers mutate before each send; since the
  // mutation always happens right before the send, the value sent is the
  // one built here.
  const Response200: Dict := map[RESPONSE := JNum(200)]

  function Response400(error: string): Dict {
    map[RESPONSE := JNum(400), ERROR := JStr(error)]
  }

  function Response202(list: seq<Json>): Dict {
    map[RESPONSE := JNum(202), LIST_INFO := JList(list)]
  }

  /** The reply a server sends when it refuses a request. */
  const BAD_REQUEST: string := "Bad request"
  const NAME_TAKEN: string := "User with such name already exists."

  /** What the network does to the connections of one cycle: a send to a
      broken connection fails, and `getpeername()` fails on a connection
      whose peer is gone. */
  datatype Net = Net(broken: set<Conn>, peerless: set<Conn>)

  /** The exception `send_json_message(c, ...)` raises, if any: a socket the
      server closed itself, or one whose peer went away. */
  function SendError(closed: set<Conn>, net: Net, c: Conn): (r: Option<Exc>)
    ensures r.None? <==> c !in closed && c !in net.broken
    ensures r.Some? ==> IsOSError(r.value)
  {
    if c in closed then Some(OSError(EBADF))
    else if c in net.broken then Some(OSError(EPIPE))
    else None
  }

  /** The exception `c.getpeername()` raises, if any. */
  function PeerError(closed: set<Conn>, net: Net, c: Conn): (r: Option<Exc>)
    ensures r.None? <==> c !in closed && c !in net.peerless
    ensures r.Some? ==> IsOSError(r.value)
  {
    if c in closed then Some(OSError(EBADF))
    else if c in net.peerless then Some(OSError(ENOTCONN))
    else None
  }

  /** One readable connection of a dispatch cycle with the outcome of the
      `get_message` call on it. */
  datatype Incoming = Incoming(conn: Conn, got: Received)

  // Frame shapes, as the servers test them: an action plus the keys that
  // must be present.
  predicate IsPresence(m: Dict) {
    Is(m, ACTION, PRESENCE) && TIME in m && USER in m
  }

  /** The account name the early servers accept, and the clients' default. */
  const GUEST: string := "Guest"

  /** The presence test of the early servers, including the
      `message[USER][ACCOUNT_NAME] == 'Guest'` lookup, which can raise. */
  function GuestPresence(m: Dict): Result<bool> {
    if IsPresence(m) then
      match Subscript(m[USER], ACCOUNT_NAME)
      case Raise(e) => Raise(e)
      case Ok(v) => Ok(v == JStr(GUEST))
    else Ok(false)
  }

  /** The refusal of the early servers' `process_client_message`. */
  const BadRequestReply: Dict := map[RESPONSE := JNum(400), ERROR := JStr("Bad Request")]

  predicate IsChat(m: Dict) {
    Is(m, ACTION, MESSAGE) && DESTINATION in m && TIME in m && SENDER in m && MESSAGE_TEXT in m
  }

  /** The clients' "is this chat for me" test: a chat frame with a
      sender, a destination and a text, addressed to `me`. */
  predicate ChatFor(m: Dict, me: string) {
    Is(m, ACTION, MESSAGE) && SENDER in m && DESTINATION in m && MESSAGE_TEXT in m
    && m[DESTINATION] == JStr(me)
  }

  predicate IsExit(m: Dict) {
    Is(m, ACTION, EXIT) && ACCOUNT_NAME in m
  }

  predicate IsGetContacts(m: Dict) {
    Is(m, ACTION, GET_CONTACTS) && USER in m
  }

  predicate IsAddContact(m: Dict) {
    Is(m, ACTION, ADD_CONTACT) && ACCOUNT_NAME in m && USER in m
  }

  predicate IsRemoveContact(m: Dict) {
    Is(m, ACTION, REMOVE_CONTACT) && ACCOUNT_NAME in m && USER in m
  }

  predicate IsUsersRequest(m: Dict) {
    Is(m, ACTION, USERS_REQUEST) && ACCOUNT_NAME in m
  }

  /** Decimal digits of a natural number. */
  function NatToString(n: nat): (r: string)
    ensures |r| > 0
    ensures forall i :: 0 <= i < |r| ==> '0' <= r[i] <= '9'
    decreases n
  {
    if n < 10 then [(n + '0' as int) as char]
    else NatToString(n / 10) + [(n % 10 + '0' as int) as char]
  }

  /** Python's `str()` of a value, as an f-string renders it. Lists and
      dicts are rendered by a placeholder (their repr is not modelled). */
  function Show(v: Json): string {
    match v
    case JNull => "None"
    case JBool(b) => if b then "True" else "False"
    case JNum(n) => if n < 0 then "-" + NatToString(-n) else NatToString(n)
    case JStr(s) => s
    case JList(_) => "[...]"
    case JObj(_) => "{...}"
  }
}
