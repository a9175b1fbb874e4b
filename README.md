# Message handling of the messanging-desktop-app chat relay, in Dafny

The repository is a course project that grows a JSON-over-TCP chat relay
lesson by lesson: a one-shot presence checker (lessons 3 and 6), a broadcast
relay (lesson 7), a relay that routes chats by name (lesson 8), and a final
desktop application (`app/`). The final application has a server thread, an
SQL storage object, a console client and a Qt client transport. This project
models the message-handling logic of each iteration separately, because the
iterations behave differently. It leaves out the sockets, threads and Qt.

Frames are dictionaries (`Jim.Dict`, a map from keys to JSON values). Python's
exceptions are values of `Jim.Exc`. Reads and sends are parameters:

- A read is a `Received`: a frame, or the exception `get_message` raised.
- A send fails according to a `Net`, which lists the connections whose peer
  is gone.
- A send on a connection the program closed itself fails with EBADF.

Each operation returns its exception, if any, next to its new state. This
lets the model follow which `except` clause catches what. Where the source
updates objects in place, the model is a class whose methods change its
fields. Each such method is proved equal to a function over a state value,
and the properties are lemmas about those functions.

| file | module | source |
|---|---|---|
| jim.dfy | Jim | the JIM keys, replies, exceptions and frame shapes |
| registry.dfy | Registry | the `names` dict in insertion order, `list.remove` |
| app_router.dfy, app_server.dfy | AppRouter, AppServer | app/server.py |
| lesson8_server.dfy | Lesson8Router, Lesson8Server | lesson_8/server.py |
| lesson7_server.dfy | Lesson7Router, Lesson7Server | lesson_7/server.py |
| oneshot.dfy | OneShot | the accept loop of lesson_3 and lesson_6 |
| lesson6_server.dfy, lesson3_server.dfy | Lesson6Server, Lesson3Server | lesson_6/server.py, lesson_3/server.py |
| cli.dfy | Cli | `get_params`, the clients' port check, the argv fallback |
| server_database.dfy | StorageTables, ServerDatabase | app/server_database.py |
| chat_reader.dfy | ChatReader | the receiving loops of app/client.py and lesson_8/client.py |
| app_client.dfy | AppClient | app/client.py |
| transport.dfy | TransportLogic, Transport | app/client/transport.py |
| lesson8_client.dfy, lesson7_client.dfy, lesson5_client.dfy, lesson3_client.dfy | Lesson8Client, Lesson7Client, Lesson5Client, Lesson3Client | the lesson clients |
| host_range_ping.dfy | HostRangePing | app/ping_funcs/host_range_ping.py |

## Model

| member | source | states |
|---|---|---|
| AppRouter.PresenceRegisters | app/server.py:150-158 | A presence frame with a free, hashable name binds that name to the requesting connection. It records a login with the peer's address and answers 200. Nothing else changes. |
| AppRouter.PresenceKeepsBindings | app/server.py:150-164 | A presence frame never rebinds a name that is already bound. |
| AppRouter.PresenceNameTaken | app/server.py:159-164 | A presence frame for a bound name is answered 400 "User with such name already exists.". The requester is unlisted and closed, and `names` is unchanged. |
| AppRouter.ChatQueued | app/server.py:167-172 | A chat frame with to, time, from and text is queued and counted in storage. No reply is sent. |
| AppRouter.BadRequest | app/server.py:204-208 | A frame that matches no branch is answered 400 "Bad request". The connection stays listed and nothing else changes. |
| AppRouter.ExitLogsOut | app/server.py:174-181 | Exit logs out the named account, then unlists, closes and unbinds that account's connection, whoever sent the frame. `clients` loses exactly the first occurrence of that connection. Other bindings, the queue and the sent frames are unchanged. |
| AppRouter.ExitUnknownAccount | app/server.py:174-176 | An exit for an unbound account records the logout and then raises KeyError. |
| AppRouter.DirectoryNeedsOwner | app/server.py:183-203 | A directory request whose user is unhashable raises TypeError. An unbound user raises KeyError. A user bound to another connection gets "Bad request". |
| AppRouter.DirectoryServed | app/server.py:183-203 | The owner of the name is served. Contacts and users come back as 202 with list_info. Add and remove are stored and answered 200. |
| AppRouter.ProcessClientMessageValid | app/server.py:146-208 | Routing keeps the names unique and `clients` duplicate-free. No closed connection stays listed. |
| AppRouter.ReadFailureTearsDown | app/server.py:111-122 | A read that raises OSError unlists the connection. The first name bound to it is logged out and unbound. |
| AppRouter.ReadOtherErrorEndsRun | app/server.py:113-115 | Only OSError is caught around a read. Any other exception ends the server thread. |
| AppRouter.ReadPhaseStops | app/server.py:111-122 | Once a read raises uncaught, the rest of the read loop does not run. |
| AppRouter.ReadOneValid | app/server.py:111-122 | One read keeps the state well formed. |
| AppRouter.ReadPhaseValid | app/server.py:111-122 | The read loop keeps the state well formed. |
| AppRouter.DeliverToRecipient | app/server.py:134-139 | A chat for a name bound to a writable, healthy connection is written to that connection only. |
| AppRouter.DeliverUnknownDropped | app/server.py:142-144 | A chat for an unbound name is dropped. |
| AppRouter.DeliverFailureLogsOut | app/server.py:124-131 | A chat for a bound but unwritable recipient, or one whose send fails, costs the recipient its session. The connection is unlisted, the name logged out and unbound, and nothing is sent. |
| AppRouter.DeliverStops | app/server.py:124-131 | Once delivery raises uncaught, later queued chats are not handled. |
| AppRouter.DeliverOneValid | app/server.py:124-131 | One delivery keeps the state well formed. |
| AppRouter.DeliverOnlyToWritable | app/server.py:124-132 | Everything the delivery loop writes goes to a writable connection and is one of the queued chats. Earlier writes are kept. |
| AppRouter.DeliverValid | app/server.py:124-132 | The delivery loop keeps the state well formed. |
| AppRouter.CycleDrainsQueue | app/server.py:124-132 | A completed cycle leaves the queue empty. Every delivered frame went to a writable connection. |
| AppRouter.CycleValid | app/server.py:111-132 | A cycle keeps the state well formed. |
| AppServer.Server.constructor | app/server.py:61-73 | The server starts with no clients, names, messages or effects. |
| AppServer.Server.Send | app/server.py:156 | Sending equals AppRouter.Send on the fields. |
| AppServer.Server.RemoveClient | app/server.py:122 | `clients.remove` equals AppRouter.Remove; an absent connection raises ValueError. |
| AppServer.Server.ServeOwner | app/server.py:183-203 | Serving a directory request equals the function's directory branch. |
| AppServer.Server.ProcessClientMessage | app/server.py:146-208 | The in-place routing equals AppRouter.ProcessClientMessage. |
| AppServer.Server.ReadOne | app/server.py:112-122 | One read iteration with its `except OSError` equals AppRouter.ReadOne. |
| AppServer.Server.ProcessMessage | app/server.py:134-144 | `process_message` equals AppRouter.ProcessMessage. |
| AppServer.Server.DeliverOne | app/server.py:124-131 | One delivery iteration with its bare `except` equals AppRouter.DeliverOne. |
| AppServer.Server.ReadAll | app/server.py:111-122 | The read loop equals AppRouter.ReadPhase. |
| AppServer.Server.DeliverAll | app/server.py:124-132 | The delivery loop and the queue clearing equal AppRouter.DeliveryPhase. |
| AppServer.Server.Cycle | app/server.py:111-132 | One pass of the loops equals AppRouter.Cycle. |
| Registry.FirstNameOfBound | app/server.py:117-121 | The first name in insertion order bound to a connection is bound to it. |
| Registry.LookupAppend | app/server.py:153 | Binding a fresh name makes it resolve to its connection and keeps every other binding. |
| Registry.LookupUnbind | app/server.py:178 | `del names[n]` unbinds n and keeps every other binding. |
| Registry.LookupSpec | app/server.py:152 | `name in names` holds iff some binding has that name, and `names[name]` is that binding's connection. |
| Registry.UniqueAppend | app/server.py:152-153 | Binding a name that is not bound keeps every name bound at most once. |
| Registry.UniqueUnbind | app/server.py:178 | Unbinding keeps every name bound at most once. |
| Registry.RemoveFirstSpec | app/server.py:122 | On a duplicate-free list, `remove(x)` takes out exactly x. |
| Lesson8Router.PresenceRegisters | lesson_8/server.py:31-35 | A presence with a free name sets `names[name] = client` and sends `{response: 200}`. Other bindings are kept. |
| Lesson8Router.PresenceNameTaken | lesson_8/server.py:36-42 | A presence with a bound name is answered 400. The requester is unlisted and closed, and `names` is unchanged. |
| Lesson8Router.ChatQueued | lesson_8/server.py:44-48 | A complete chat is appended to `messages_list` and nothing is sent. |
| Lesson8Router.ExitTearsDown | lesson_8/server.py:50-54 | Exit unlists, closes and unbinds the named account's connection. `clients` loses exactly the first occurrence of that connection. Other bindings, the queue and the sent frames are unchanged. |
| Lesson8Router.BadRequest | lesson_8/server.py:55-59 | Anything else is answered 400 "Bad request". |
| Lesson8Router.ProcessClientMessageValid | lesson_8/server.py:20-59 | Routing keeps the state well formed. |
| Lesson8Router.ProcessMessageRoutes | lesson_8/server.py:63-80 | `process_message` sends only to a bound, writable recipient. A bound recipient that is not writable raises ConnectionError. An unbound one is only logged. |
| Lesson8Router.DeliverFailureUnbinds | lesson_8/server.py:161-168 | A failed delivery unlists the recipient's connection and unbinds the name. Nothing is sent or closed. |
| Lesson8Router.ReadFailureKeepsNames | lesson_8/server.py:152-159 | A failed read unlists the connection but leaves every name bound to it. |
| Lesson8Router.StaleNameEndsServer | lesson_8/server.py:152-168 | A chat for a name left bound to an unlisted connection makes the delivery handler's `clients.remove` raise ValueError, which nothing catches. |
| Lesson8Router.ReadPhaseStops | lesson_8/server.py:152-159 | An uncaught exception ends the read loop. |
| Lesson8Router.DeliverStops | lesson_8/server.py:161-168 | An uncaught exception ends the delivery loop. |
| Lesson8Router.ReadOneValid | lesson_8/server.py:152-159 | One read keeps the state well formed. |
| Lesson8Router.ReadPhaseValid | lesson_8/server.py:152-159 | The read loop keeps the state well formed. |
| Lesson8Router.DeliverOneValid | lesson_8/server.py:161-168 | One delivery keeps the state well formed. |
| Lesson8Router.DeliverValid | lesson_8/server.py:161-168 | The delivery loop keeps the state well formed. |
| Lesson8Router.DeliverOnlyToWritable | lesson_8/server.py:161-168 | Every frame the delivery loop writes goes to a writable connection. |
| Lesson8Router.CycleDrainsQueue | lesson_8/server.py:152-168 | A completed cycle clears the queue and keeps the state well formed. |
| Lesson8Server.Relay.constructor | lesson_8/server.py:126-129 | `clients`, `messages` and `names` start empty, with nothing closed or sent. |
| Lesson8Server.Relay.Send | lesson_8/server.py:35 | Sending equals Lesson8Router.Send. |
| Lesson8Server.Relay.RemoveClient | lesson_8/server.py:40 | `clients.remove` equals Lesson8Router.Remove. |
| Lesson8Server.Relay.ProcessClientMessage | lesson_8/server.py:20-59 | The in-place routing equals Lesson8Router.ProcessClientMessage. |
| Lesson8Server.Relay.ReadOne | lesson_8/server.py:152-159 | One read iteration equals Lesson8Router.ReadOne. |
| Lesson8Server.Relay.ProcessMessage | lesson_8/server.py:63-80 | `process_message` equals Lesson8Router.ProcessMessage. |
| Lesson8Server.Relay.DeliverOne | lesson_8/server.py:161-167 | One delivery iteration equals Lesson8Router.DeliverOne. |
| Lesson8Server.Relay.ReadAll | lesson_8/server.py:152-159 | The read loop equals Lesson8Router.ReadPhase. |
| Lesson8Server.Relay.DeliverAll | lesson_8/server.py:161-168 | The delivery loop over the queue, then its clearing, as in Lesson8Router.Cycle. |
| Lesson8Server.Relay.Cycle | lesson_8/server.py:152-168 | One pass of `main`'s loops equals Lesson8Router.Cycle. |
| Lesson7Router.PresenceOnlyGuest | lesson_7/server.py:29-32 | `{response: 200}` is sent exactly for the guest's presence with action, time and user. No other frame makes the server send anything. |
| Lesson7Router.PresenceNotGuest | lesson_7/server.py:29-42 | Another name's presence gets the 400 dictionary. |
| Lesson7Router.ChatQueued | lesson_7/server.py:33-36 | A message with time and text is queued as an (account_name, text) pair. Without account_name it raises KeyError. |
| Lesson7Router.OtherwiseRefused | lesson_7/server.py:37-42 | Any other frame returns the 400 "Bad Request" dictionary, which is not sent, and changes nothing. |
| Lesson7Router.ReadFailureRemoves | lesson_7/server.py:111-117 | Any exception while reading or processing unlists that connection. |
| Lesson7Router.ReadPhaseStops | lesson_7/server.py:111-117 | An exception the handler cannot absorb ends the read loop. |
| Lesson7Router.BroadcastDequeuesOne | lesson_7/server.py:119-126 | At most one message, the oldest, is dequeued per cycle, and only when some client is writable. |
| Lesson7Router.OutgoingFields | lesson_7/server.py:120-125 | The dequeued message is rebuilt as action, sender, time and text. |
| Lesson7Router.SendAllServesEveryone | lesson_7/server.py:127-133 | The message reaches every writable client whose send succeeds, its author included. A client whose send fails is closed and unlisted, and the others are still served. |
| Lesson7Router.SendAllKeepsQueue | lesson_7/server.py:127-133 | The broadcast loop leaves the queue alone. |
| Lesson7Router.SendAllStops | lesson_7/server.py:127-133 | An escaping exception ends the broadcast loop. |
| Lesson7Router.BroadcastServesWritable | lesson_7/server.py:119-133 | A whole broadcast phase sends the oldest chat to every writable client whose send succeeds. |
| Lesson7Router.ReachedSpec | lesson_7/server.py:127-133 | Reached lists exactly the writable clients whose send succeeds, in order. |
| Lesson7Router.ReadOneValid | lesson_7/server.py:111-117 | One read keeps every listed client open and listed once. |
| Lesson7Router.ReadPhaseValid | lesson_7/server.py:111-117 | The read loop keeps the state well formed. |
| Lesson7Router.SendAllValid | lesson_7/server.py:127-133 | The broadcast loop keeps the state well formed. |
| Lesson7Router.CycleValid | lesson_7/server.py:111-133 | A cycle keeps every listed client open and listed once. |
| Lesson7Server.Relay.constructor | lesson_7/server.py:82-83 | `clients` and `messages` start empty, with nothing closed or sent. |
| Lesson7Server.Relay.Send | lesson_7/server.py:30-31 | Sending equals Lesson7Router.Send. |
| Lesson7Server.Relay.RemoveClient | lesson_7/server.py:117 | `clients.remove` equals Lesson7Router.Remove. |
| Lesson7Server.Relay.ProcessClientMessage | lesson_7/server.py:20-42 | The routing equals Lesson7Router.ProcessClientMessage, with the returned dictionary as the reply. |
| Lesson7Server.Relay.ReadOne | lesson_7/server.py:111-117 | One read iteration with its bare `except` equals Lesson7Router.ReadOne. |
| Lesson7Server.Relay.SendOne | lesson_7/server.py:127-133 | One broadcast send equals Lesson7Router.SendOne. |
| Lesson7Server.Relay.Cycle | lesson_7/server.py:111-133 | One pass of `main`'s loops, with its `del messages[0]`, equals Lesson7Router.Cycle. |
| Cli.ServerParamsSpec | lesson_7/server.py:45-73 | The port is the given one or 7777, and in 1024..65535. The address is the one after -a, or "". `-p` as the last argument, a port that is not a sign followed by ASCII digits, an out-of-range port, or `-a` as the last argument exits with status 1. |
| Cli.ServerParamsPort | lesson_6/server.py:39-51 | `-p N` starts the server on port N exactly when N is in range. |
| Cli.ParseIntShow | lesson_6/server.py:40-42 | `int(str(n)) == n`, so every in-range port can be given. |
| Cli.CheckPort | lesson_8/client.py:146-150 | A client port is accepted iff 1023 < port < 65536. Otherwise the client exits with status 1. The same code is at app/client.py:252-256. |
| Cli.ArgvFallback | lesson_5/client.py:49-54 | With fewer than two arguments the address and port fall back to the defaults. A port that is not a sign followed by ASCII digits raises ValueError. The same code is at lesson_3/client.py:42-47. |
| OneShot.Handle | lesson_6/server.py:76-86 | A frame the handler answers gets exactly that reply, then the connection is closed. A ValueError or decode error closes it with no reply. Anything else ends the server. |
| OneShot.ServeAllStops | lesson_6/server.py:76-86 | Once an exception escapes, later connections are never served. |
| OneShot.ServeAllClosesAccepted | lesson_6/server.py:76-86 | Every reply goes to a connection that is then closed. While the server survives, every accepted connection is closed, in order. |
| OneShot.ServeAllOneReplyEach | lesson_6/server.py:76-86 | No connection gets two replies. |
| OneShot.Serve | lesson_3/server.py:61-71 | The accept loop equals ServeAll. |
| Lesson6Server.ProcessClientMessage | lesson_6/server.py:18-32 | The result is a function of the frame alone. It raises exactly when the user lookup does, and otherwise is the 200 or the 400 "Bad Request" reply. |
| Lesson6Server.AcceptsOnlyGuest | lesson_6/server.py:25-32 | `{response: 200}` iff action is presence, time and user are present, and account_name is 'Guest'. Any non-presence frame gets 400. |
| Lesson6Server.ServerTests | app/tests/test_server.py:20-40 | The six test frames get the replies the tests expect. |
| Lesson6Server.ServesDigestible | lesson_6/server.py:76-86 | On well-formed input the server never stops. Every connection is closed and each frame gets one reply, 200 exactly for the guest. |
| Lesson3Server.ProcessClientMessage | lesson_3/server.py:9-22 | The validator is pure. A reply has a 'response' key exactly when it is the 200. |
| Lesson3Server.AcceptsOnlyGuest | lesson_3/server.py:16-22 | 200 iff a guest presence. The refusal stores 400 under RESPONSE_DEFAULT_IP_ADDRESSES and has no 'response' key. |
| StorageTables.ResetValid | app/server_database.py:60-61 | Construction empties active_user and keeps user and login_history. |
| StorageTables.LoginSpec | app/server_database.py:63-80 | A user row is created exactly for an unknown name; a known user only gets a new last_login. One active row and one history row are appended, and usernames stay unique. |
| StorageTables.LogoutSpec | app/server_database.py:82-86 | A logout fails exactly for a never-seen name. Otherwise it deletes all of the user's active rows, keeps the others, and leaves user and login_history unchanged. |
| StorageTables.UsersNeverForgotten | app/server_database.py:88-91 | `users_list` contains every user who ever logged in; logins and logouts never remove one. |
| StorageTables.JoinValid | app/server_database.py:93-101 | The active list has one entry per active row, carrying its user's name. |
| StorageTables.LoginHistoryOfUser | app/server_database.py:103-114 | The corrected history of a named user equals OfUser of the joined history: that user's visits, in order. With no name or an empty name it is the whole joined history. |
| StorageTables.OfUserSpec | app/server_database.py:112-114 | The filter keeps a visit iff it belongs to the named user, and keeps it as many times as it occurs. |
| StorageTables.OfUserAppend | app/server_database.py:112-114 | Filtering a concatenation filters each part and keeps them in order. |
| StorageTables.LoginHistoryIgnoresName | app/server_database.py:112-114 | As written, asking for client_1's history also returns client_2's login. |
| StorageTables.FindUser | app/server_database.py:65 | The first user row with that name, or none. |
| StorageTables.Without | app/server_database.py:85-86 | A row is kept iff it does not belong to the user. A kept row keeps its multiplicity; the user's rows drop to zero. |
| StorageTables.WithoutAppend | app/server_database.py:85-86 | Deleting from a concatenation deletes from each part and keeps them in order. |
| StorageTables.UsersList | app/server_database.py:88-91 | One (username, last_login) entry per user row. |
| ServerDatabase.ServerStorage.constructor | app/server_database.py:53-61 | The object starts from the persisted tables with active_user emptied. |
| ServerDatabase.ServerStorage.UserLogin | app/server_database.py:63-80 | The new tables are Login of the old and stay valid. |
| ServerDatabase.ServerStorage.UserLogout | app/server_database.py:82-86 | Matches Logout: it raises AttributeError for an unknown name, otherwise deletes the user's active rows. |
| ServerDatabase.ServerStorage.UsersList | app/server_database.py:88-91 | Returns every user row's (name, last_login). |
| ServerDatabase.ServerStorage.ActiveUsersList | app/server_database.py:93-101 | Returns the active rows joined with their users. |
| ServerDatabase.ServerStorage.LoginHistory | app/server_database.py:103-114 | Returns the history of the named user, or all of it (the corrected filter). |
| AppClient.ProcessServerAnswer | app/client.py:205-218 | '200 : OK' iff response 200. For response 400 it is '400 : ' + error, or KeyError without one. Anything else, a missing response included, raises ValueError. The same code is at lesson_8/client.py:118-131 and lesson_7/client.py:68-81. |
| AppClient.ReadsServerReplies | app/client.py:205-218 | The server's 200 reads as '200 : OK', its 400 as '400 : ' + its text, and its 202 raises ValueError. |
| AppClient.MakePresence | app/client.py:221-237 | A presence frame {action: presence, time, user: {account_name: n}} that the servers recognise as a presence. The same code is at lesson_8/client.py:99-115 and lesson_3/client.py:10-24. |
| AppClient.CreateExitMessage | app/client.py:35-41 | {action: exit, time, account_name: own name}, which the servers read as an exit. The same code is at lesson_8/client.py:61-67. |
| AppClient.ChatFrame | lesson_8/client.py:44-50 | The chat dict has action message, from the sender, to, time and text, and is addressed to the receiver. |
| AppClient.CreateMessage | app/client.py:43-77 | Nothing is sent iff the database does not know the receiver. Otherwise the chat frame is sent. A timeout (falsy errno) is only logged. Any other OSError means the connection is lost, and the sender thread ends. |
| AppClient.ContactsListRequest | app/client.py:261-275 | The contacts request names the user. |
| AppClient.ContactsListReply | app/client.py:261-275 | list_info is returned only for a 202 reply. Otherwise ServerError is raised, or KeyError when 202 lacks list_info. |
| AppClient.AddContactRequest | app/client.py:278-292 | The add request names user and contact. |
| AppClient.AddContactReply | app/client.py:278-292 | Only 200 succeeds; anything else raises 'New contact was not created. Server error.'. |
| AppClient.UserListRequest | app/client.py:295-307 | The users request names the account. |
| AppClient.UserListReply | app/client.py:295-307 | list_info only on 202; anything else raises. |
| AppClient.RemoveContactRequest | app/client.py:310-324 | The remove request names user and contact. |
| AppClient.RemoveContactReply | app/client.py:310-324 | Only 200 succeeds; anything else raises 'Contact deleting failed'. |
| AppClient.RequestRepliesRoundTrip | app/client.py:261-324 | The server's 202 list and 200 are accepted by the matching helper, and its 400 is refused by each. |
| AppClient.ReaderRun | app/client.py:170-202 | The reader loop equals ChatReader.Reader with the app's handlers. |
| ChatReader.ReadOutcome | app/client.py:186-202 | A frame is shown iff action is message, from, to and text are present, and to is the user's own name. Only a frame is ever shown. |
| ChatReader.ReaderShowsOwnChats | lesson_8/client.py:26-33 | Every shown chat came from a frame addressed to this user. A loop still reading has shown every such frame. |
| ChatReader.ReaderStops | lesson_8/client.py:34-36 | After the read that ends the loop, nothing more is read. |
| ChatReader.ReadErrorsEndLoop | lesson_8/client.py:34-36 | Lesson 8 stops at the first OSError, connection error or decode error. The app stops on an OSError with an errno or a decode error, and keeps reading after a timeout. Any other exception escapes. |
| Lesson8Client.MessageFromServer | lesson_8/client.py:20-36 | The receiver loop equals ChatReader.Reader with lesson 8's handlers. |
| Lesson8Client.CreateMessage | lesson_8/client.py:39-58 | The chat is sent with from = account_name iff the send does not raise. A failed send ends the user-interface thread (`sys.exit` in a thread), after which `main` returns normally. |
| Lesson8Client.UserInteractions | lesson_8/client.py:78-96 | The command loop equals Interact. |
| Lesson8Client.ExitEndsLoop | lesson_8/client.py:88-94 | 'exit' sends the exit frame last and ends the loop; later lines are never read. |
| Lesson8Client.UnknownCommandContinues | lesson_8/client.py:95-96 | An unknown command only prints a hint, and the loop reads the next line. |
| Lesson8Client.SentFrames | lesson_8/client.py:78-96 | The loop sends only this user's chats, plus the exit frame as the very last one when it closes. |
| Lesson7Client.MessageFromServer | lesson_7/client.py:19-26 | A frame is shown iff action is message and sender and text are present. |
| Lesson7Client.NoDestinationCheck | lesson_7/client.py:22-26 | The destination plays no part: chats addressed to anyone are shown. |
| Lesson7Client.CreateMessage | lesson_7/client.py:29-46 | 'q' exits with status 0. Any other line gives {action: message, time, account_name, message text}. |
| Lesson7Client.ClientParams | lesson_7/client.py:97-105 | Accepted iff 1023 < port < 65536 and the mode is listen or send. Otherwise exit 1. |
| Lesson7Client.ChatRoundTrip | lesson_7/server.py:33-36 | A chat typed in a sending client is queued by the lesson 7 server as (name, text). The frame broadcast from it is shown by a listener with that sender and text. |
| Lesson7Client.PresenceAccepted | lesson_7/client.py:50-65 | The client's presence gets the lesson 7 server's 200 whatever name it runs under. |
| Lesson5Client.MakePresence | lesson_5/client.py:17-31 | The presence always names 'Guest' and ignores its argument. The same code is at lesson_7/client.py:50-65. |
| Lesson5Client.ProcessServerAnswer | lesson_5/client.py:34-44 | 200 gives '200 : OK'. Any other code, not only 400, gives '400 : ' + error. A missing response raises ValueError. |
| Lesson5Client.Greet | lesson_5/client.py:62-67 | A reply the client reads gives its text. A read or reading failure that is a ValueError or decode error is caught and logged (no text). Any other exception escapes unchanged. |
| Lesson5Client.LessonSixTests | lesson_6/tests/test_client.py:10-28 | The presence, 200 and missing-response tests hold. `{response: 'Bad Request'}` raises KeyError instead of giving '400 : Bad Request'. |
| Lesson5Client.ReadsServerRefusals | lesson_5/client.py:34-44 | The lesson 6 refusal reads as '400 : Bad Request'. The lesson 3 refusal, which has no response key, is logged as an error. |
| Lesson3Client.ProcessServerAnswer | lesson_3/client.py:27-37 | 200 gives '200 : OK'. Any other response gives '400 : ' + the response value itself. A missing response returns the ValueError class. |
| Lesson3Client.Greet | lesson_3/client.py:55-60 | The answer, including the ValueError class, is printed. Reading the reply never raises. |
| Lesson3Client.LessonSixTests | lesson_6/tests/test_client.py:10-28 | The presence, 200 and 'Bad Request' tests hold. The missing-response test does not, because nothing is raised. |
| Lesson3Client.ReadsLessonThreeServer | lesson_3/server.py:16-22 | Against the lesson 3 server, the guest reads '200 : OK' and the refusal reads as the ValueError class. |
| TransportLogic.ProcessServerAnsSpec | app/client/transport.py:94-115 | 200 returns normally. 400 raises ServerError with the error text. Another code is only logged. A non-response frame is saved as (from, 'in', text) and signalled once iff it is a chat addressed to the user; otherwise nothing happens. |
| TransportLogic.ProcessServerAnsReplies | app/client/transport.py:97-101 | The server's 200 is accepted silently, and its 400 raises ServerError with its text. |
| TransportLogic.ConnectAttemptsSpec | app/client/transport.py:56-65 | At most 5 attempts are made, the loop stops at the first success, and it fails only when all 5 fail. |
| TransportLogic.ConnectionInitSpec | app/client/transport.py:50-81 | 'Cannot connect to the server' is raised when every attempt fails. Otherwise the presence is sent, and no OSError or decode error escapes. |
| TransportLogic.ListUpdatesSpec | app/client/transport.py:117-148 | Contacts reach the database only on 202, one add_contact per entry in order. Users are added only on 202. |
| TransportLogic.ContactsFromServer | app/client/transport.py:117-133 | The server's 202 contact list is added entry by entry. |
| TransportLogic.ShutdownSpec | app/client/transport.py:174-187 | `running` is false afterwards. The exit frame is sent, and a send OSError is ignored. |
| TransportLogic.RunOneSpec | app/client/transport.py:207-228 | An OSError with an errno, or a decode error, clears `running` and signals connection_lost. A timeout changes nothing. |
| TransportLogic.RunStops | app/client/transport.py:207 | Once `running` is false or an exception escapes, no more reads are made. |
| TransportLogic.RunSignalsLossOnce | app/client/transport.py:207-228 | The loop sends nothing. connection_lost is signalled at most once, as the last event, exactly when `running` ends false. |
| TransportLogic.Items | app/client/transport.py:129-131 | Iterating list_info yields a list's items, or a string's characters, each as a one-character string. Numbers, booleans and None raise TypeError. |
| TransportLogic.AddEach | app/client/transport.py:130-131 | One add_contact call per entry, in order. |
| Transport.ClientTransport.constructor | app/client/transport.py:24-31 | Before the connection is made, the transport is not running and has nothing sent, stored or signalled. |
| TransportLogic.InitSpec | app/client/transport.py:33-48 | Starting from a stopped transport, it ends up running iff `__init__` returns. No OSError or decode error escapes. Failing every connect attempt raises "Cannot connect to the server". A lost connection during the list updates raises ServerError "Connection with server lost". A timeout there is tolerated: the transport runs and the contacts are not requested. |
| Transport.ClientTransport.Init | app/client/transport.py:33-48 | The connection, the two list updates and the `except` clauses equal TransportLogic.Init. |
| Transport.ClientTransport.ProcessServerAns | app/client/transport.py:94-115 | Equals TransportLogic.ProcessServerAns on the fields. |
| Transport.ClientTransport.ConnectionInit | app/client/transport.py:50-81 | The retry loop and presence exchange equal TransportLogic.ConnectionInit. |
| Transport.ClientTransport.ContactsListUpdate | app/client/transport.py:117-133 | The loop over the contacts equals TransportLogic.ContactsListUpdate. |
| Transport.ClientTransport.UserListUpdate | app/client/transport.py:135-148 | Equals TransportLogic.UserListUpdate. |
| Transport.ClientTransport.TransportShutdown | app/client/transport.py:174-187 | Equals TransportLogic.Shutdown and leaves `running` false. |
| Transport.ClientTransport.SendMessage | app/client/transport.py:189-203 | Sends {action: message, from: username, to, time, text}, then processes the answer, as TransportLogic.SendMessage. |
| Transport.ClientTransport.Run | app/client/transport.py:205-228 | The receive loop equals TransportLogic.Run. |
| HostRangePing.ReadStart | app/ping_funcs/host_range_ping.py:13-14 | A line is accepted iff it parses as an IPv4 address. last_oct is its fourth field, which is the address's low byte. |
| HostRangePing.StartPrompt | app/ping_funcs/host_range_ping.py:10-17 | The first loop stops at the first parsable line; every line before it was rejected. |
| HostRangePing.CountValue | app/ping_funcs/host_range_ping.py:21-24 | A count is numeric iff it is a non-empty string of digits, and its value is `int(end_ip)`, the decimal value of those digits. |
| HostRangePing.CountOfRendered | app/ping_funcs/host_range_ping.py:21-24 | Typing the decimal rendering of n gives the count n. |
| HostRangePing.CountPrompt | app/ping_funcs/host_range_ping.py:19-28 | The second loop accepts the first line that is numeric with last_oct + count <= 256, and rejects all before it. |
| HostRangePing.CountRejections | app/ping_funcs/host_range_ping.py:21-26 | A non-numeric count, or one with last_oct + count > 256, is rejected and the next line is read. |
| HostRangePing.HostList | app/ping_funcs/host_range_ping.py:29-30 | The host list has exactly count entries. |
| HostRangePing.AcceptedRangeStaysInOctet | app/ping_funcs/host_range_ping.py:1-3 | For an accepted count, every address is valid, keeps the start's first three octets, and the x-th one's last octet is last_oct + x. |
| HostRangePing.ParseDotted | app/ping_funcs/host_range_ping.py:13-14 | `ip_address(str(a)) == a`, and last_oct is its low byte. |
| HostRangePing.OctetValue | app/ping_funcs/host_range_ping.py:13 | An accepted octet field is all digits, with value at most 255. |
| HostRangePing.ParseIPv4 | app/ping_funcs/host_range_ping.py:13 | Parsing succeeds iff the line has exactly four dot-separated valid octets. |
| HostRangePing.PromptStart | app/ping_funcs/host_range_ping.py:10-17 | The first loop equals StartPrompt. |
| HostRangePing.PromptCount | app/ping_funcs/host_range_ping.py:19-28 | The second loop equals CountPrompt. |
| HostRangePing.BuildHostList | app/ping_funcs/host_range_ping.py:29-30 | The comprehension builds HostList. |
| HostRangePing.HostRangeRun | app/ping_funcs/host_range_ping.py:9-30 | The whole function up to the ping equals HostRange. |

## Left out

- Sockets, `select`, `accept`, `connect`, `settimeout`, `time.sleep`, threads and locks. Reads, sends and `select`'s writable list are parameters. The lesson 8 and Qt client threads are modelled one loop at a time.
- The frame codec (`send_json_message`/`get_message`) is not part of this model. A read is an outcome parameter; a send fails according to `Net`.
- Qt signals and dialogs: emitting a signal is an entry in an event log.
- The SQLAlchemy session and engine. The storage of app/server.py is a log of the calls it makes, because the methods app/server.py calls (`process_message`, `get_contacts`, `add_contact`, `remove_contact`) are not defined in app/server_database.py. The client database is also a call log.
- `time.time()` and `datetime.now()`: times are opaque values passed in. In Lesson8Client.UserInteractions one value stands for every frame's time.
- Key order: a dictionary payload is a map, so the key order of a frame is not modelled. The order of `names` is modelled, because app/server.py iterates it.
- Reply templates: RESPONSE_400 and RESPONSE_202 are shared module constants that app/server.py mutates in place. Each reply is modelled as a fresh value holding what was written into it.
- `str()` of lists and dicts (`Jim.Show`) is a placeholder text. Only numbers, strings, booleans and None are rendered as Python does.
- argparse in the lesson 7 and 8 and app clients: the model starts from the parsed port and mode. The name prompt of lesson_8/client.py `main` is also left out.
- `ClientTransport.add_contact`/`remove_contact` (app/client/transport.py:150-172) are not modelled. They follow the same send-then-`process_server_ans` pattern as `send_message`.
- `main` of the lesson 7 client, which alternates between sending and listening, is not modelled.
- TransportLogic.Items: iterating a dict-valued list_info (which yields its keys in insertion order) is modelled as TypeError. Numbers, booleans and None raise TypeError as in Python.
- HostRangePing.ReadStart: IPv6 input (which `ip_address` accepts, but `split('.')[3]` usually rejects) is treated as a rejected line.
- HostRangePing.CountValue: only ASCII digits are modelled. Python also accepts other Unicode decimal digits (`int('３')` is 3), so such a count is accepted there and rejected here. Numerals that are numeric but not decimal (such as '½') pass `isnumeric`, and `int` then raises ValueError, which ends the function; the model rejects them as well.
- The ping (`host_ping`, subprocesses), tabulate output and `str()` rendering of the generated addresses are not modelled.
- app/server.py `main`, `get_params` with configparser, the server GUI, launcher, lesson 1 and lesson 2 scripts: I/O or foreign libraries.

- Cli.ParseInt: Python's `int()` also strips surrounding whitespace, accepts `_` between digits and accepts non-ASCII decimal digits. `-p " 8888"`, `-p 8_888` or a port argument `" 7777"` are accepted by the source but rejected by the model, which accepts only an optional sign followed by ASCII digits. The same applies to Cli.ServerParamsSpec and Cli.ArgvFallback.
- Jim.Json: JSON floats are not values of the model. Python reads `{"response": 200.0}` as a 200 reply, and the model cannot represent that frame. Python's cross-type key equality (`True == 1 == 1.0`, with equal hashes) is not modelled either. After a presence with account_name `true`, app/server.py finds `1` already in `names`, while Registry.Lookup compares Json values structurally, so the model registers the second name.
- Jim.GET_CONTACTS, ADD_CONTACT, REMOVE_CONTACT, USERS_REQUEST and LIST_INFO hold placeholder strings. Their values come from a constants file that is not part of this model; only their distinctness is used.

## Findings

| source | as written | input that shows it | evidently intended | confidence | as-written member | corrected member |
|---|---|---|---|---|---|---|
| app/server_database.py:112-114 | `query.filter(...)` returns a new query that is discarded, so `query.all()` returns every login whatever the name | after logins of client_1 and client_2, `login_history('client_1')` also returns client_2's row | only the named user's logins ("login history by user") | high, not executed | StorageTables.LoginHistoryAsWritten (lemma StorageTables.LoginHistoryIgnoresName) | StorageTables.LoginHistory (lemma StorageTables.LoginHistoryOfUser, used by ServerDatabase.ServerStorage.LoginHistory) |
