/** The server's storage (app/server_database.py): three tables, `user`,
    `active_user` and `login_history`, held as in-memory sequences of rows.
    SQL engines, sessions and commits are not modelled: each method call is
    one committed change. The clock (`datetime.now()`) is a parameter. */
module StorageTables {
  import opened Jim

  /** A reading of the clock. */
  type Instant = int

  /** A row of `user`: its id, a unique username and the last login time. */
  datatype UserRow = UserRow(id: nat, username: string, lastLogin: Instant)

  /** A row of `active_user` or `login_history`: which user, from where, when. */
  datatype SessionRow = SessionRow(user: nat, ip: string, port: int, at: Instant)

  datatype Tables = Tables(users: seq<UserRow>, active: seq<SessionRow>, history: seq<SessionRow>)

  /** A row of `users_list()`. */
  datatype Seen = Seen(username: string, lastLogin: Instant)

  /** A row of `active_users_list()` and `login_history()`: a session row
      joined with its user's name. */
  datatype Visit = Visit(username: string, ip: string, port: int, at: Instant)

  /** Ids are assigned 1, 2, ... and user rows are never deleted; usernames
      are unique; every session row names an existing user. */
  predicate Valid(t: Tables) {
    && (forall i :: 0 <= i < |t.users| ==> t.users[i].id == i + 1)
    && (forall i, j :: 0 <= i < j < |t.users| ==> t.users[i].username != t.users[j].username)
    && (forall r :: r in t.active ==> 1 <= r.user <= |t.users|)
    && (forall r :: r in t.history ==> 1 <= r.user <= |t.users|)
  }

  /** `query(User).filter_by(username=name).first()`, as a position. */
  function FindUser(users: seq<UserRow>, name: string): (r: Option<nat>)
    ensures r.Some? ==> r.value < |users| && users[r.value].username == name
    ensures r.Some? ==> forall i :: 0 <= i < r.value ==> users[i].username != name
    ensures r.None? <==> forall i :: 0 <= i < |users| ==> users[i].username != name
    decreases |users|
  {
    if users == [] then None
    else if users[0].username == name then Some(0)
    else
      match FindUser(users[1..], name)
      case None => None
      case Some(i) => Some(i + 1)
  }

  /** The user row with a given id, as the joins look it up. */
  function UserById(users: seq<UserRow>, id: nat): (r: Option<UserRow>)
    ensures r.Some? ==> r.value in users && r.value.id == id
    ensures r.None? ==> forall u :: u in users ==> u.id != id
    decreases |users|
  {
    if users == [] then None
    else if users[0].id == id then Some(users[0])
    else UserById(users[1..], id)
  }

  /** `ServerStorage()`: the tables as a previous run left them, with
      `active_user` emptied. */
  function Reset(t: Tables): Tables {
    t.(active := [])
  }

  /** `user_login(name, ip, port)`: create the user or refresh its
      last_login, then add one active row and one history row for it. */
  function Login(t: Tables, name: string, ip: string, port: int, now: Instant): Tables {
    match FindUser(t.users, name)
    case Some(i) =>
      var id := t.users[i].id;
      Tables(t.users[i := t.users[i].(lastLogin := now)],
             t.active + [SessionRow(id, ip, port, now)],
             t.history + [SessionRow(id, ip, port, now)])
    case None =>
      var id := |t.users| + 1;
      Tables(t.users + [UserRow(id, name, now)],
             t.active + [SessionRow(id, ip, port, now)],
             t.history + [SessionRow(id, ip, port, now)])
  }

  /** The rows of `rows` that do not belong to user `id`, in order. */
  function Without(rows: seq<SessionRow>, id: nat): (r: seq<SessionRow>)
    ensures forall x :: x in r <==> x in rows && x.user != id
    ensures forall x :: multiset(r)[x] == if x.user == id then 0 else multiset(rows)[x]
    ensures |r| <= |rows|
    decreases |rows|
  {
    if rows == [] then []
    else
      var last := rows[|rows| - 1];
      assert rows == rows[..|rows| - 1] + [last];
      Without(rows[..|rows| - 1], id) + (if last.user == id then [] else [last])
  }

  /** Deleting a user's rows from a concatenation deletes them from each
      part and keeps the parts in order. */
  lemma {:induction false} WithoutAppend(a: seq<SessionRow>, b: seq<SessionRow>, id: nat)
    ensures Without(a + b, id) == Without(a, id) + Without(b, id)
    decreases |b|
  {
    if b != [] {
      var b0 := b[..|b| - 1];
      assert (a + b)[..|a + b| - 1] == a + b0;
      assert (a + b)[|a + b| - 1] == b[|b| - 1];
      WithoutAppend(a, b0, id);
    } else {
      assert a + b == a;
    }
  }

  /** `user_logout(name)`: delete the user's active rows. An unknown name
      makes `first()` return None, and reading its `.id` raises
      AttributeError. */
  function Logout(t: Tables, name: string): Result<Tables> {
    match FindUser(t.users, name)
    case None => Raise(AttributeError)
    case Some(i) => Ok(t.(active := Without(t.active, t.users[i].id)))
  }

  /** `users_list()`: (username, last_login) of every user row. */
  function UsersList(t: Tables): (r: seq<Seen>)
    ensures |r| == |t.users|
    ensures forall i :: 0 <= i < |r| ==> r[i] == Seen(t.users[i].username, t.users[i].lastLogin)
  {
    seq(|t.users|, i requires 0 <= i < |t.users| => Seen(t.users[i].username, t.users[i].lastLogin))
  }

  /** The inner join of session rows with `user` on the user id. */
  function Join(users: seq<UserRow>, rows: seq<SessionRow>): (r: seq<Visit>)
    ensures |r| <= |rows|
    decreases |rows|
  {
    if rows == [] then []
    else
      var last := rows[|rows| - 1];
      Join(users, rows[..|rows| - 1]) +
        match UserById(users, last.user)
        case None => []
        case Some(u) => [Visit(u.username, last.ip, last.port, last.at)]
  }

  /** `active_users_list()`. */
  function ActiveUsersList(t: Tables): seq<Visit> {
    Join(t.users, t.active)
  }

  /** `login_history(username)` as written: the filtered query is built and
      thrown away, so every history row is returned whatever the name. */
  function LoginHistoryAsWritten(t: Tables, username: Option<string>): seq<Visit> {
    Join(t.users, t.history)
  }

  /** `login_history(username)` as its docstring describes it: the history
      of one user, or of all users when no (or an empty) name is given. */
  function LoginHistory(t: Tables, username: Option<string>): (r: seq<Visit>)
    ensures |r| <= |t.history|
    decreases |t.history|
  {
    if username.None? || username.value == "" then Join(t.users, t.history)
    else if t.history == [] then []
    else
      var init := t.(history := t.history[..|t.history| - 1]);
      LoginHistory(init, username) +
        match UserById(t.users, t.history[|t.history| - 1].user)
        case Some(u) =>
          if u.username == username.value then
            [Visit(u.username, t.history[|t.history| - 1].ip, t.history[|t.history| - 1].port,
                   t.history[|t.history| - 1].at)]
          else []
        case None => []
  }

  // ---------------------------------------------------------------------
  // Properties

  /** When ids are 1, 2, ..., the user with id k sits at position k - 1. */
  lemma UserByIdAt(users: seq<UserRow>, id: nat)
    requires forall i :: 0 <= i < |users| ==> users[i].id == i + 1
    requires 1 <= id <= |users|
    ensures UserById(users, id) == Some(users[id - 1])
  {
    assert users[id - 1] in users;
    var k :| 0 <= k < |users| && users[k] == UserById(users, id).value;
  }

  /** A name unknown to `users` is found at the end once a row for it is
      appended. */
  lemma FindUserAppend(users: seq<UserRow>, u: UserRow, name: string)
    requires FindUser(users, name).None? && u.username == name
    ensures FindUser(users + [u], name) == Some(|users|)
  {
    var all := users + [u];
    assert all[|users|].username == name;
  }

  /** Construction keeps `user` and `login_history`, empties `active_user`,
      and keeps the tables consistent. */
  lemma ResetValid(t: Tables)
    requires Valid(t)
    ensures var r := Reset(t);
      Valid(r) && r.users == t.users && r.history == t.history && r.active == []
  {
  }

  /** A login creates a user row exactly for an unknown name, only refreshes
      last_login of a known one, and appends one active and one history row
      for that user; usernames stay unique. */
  lemma LoginSpec(t: Tables, name: string, ip: string, port: int, now: Instant)
    requires Valid(t)
    ensures var r := Login(t, name, ip, port, now);
      && Valid(r)
      && var i := FindUser(r.users, name);
      && i.Some?
      && r.users[i.value].lastLogin == now
      && (FindUser(t.users, name).None? <==> |r.users| == |t.users| + 1)
      && (FindUser(t.users, name).Some? ==> FindUser(t.users, name) == i)
      && (forall k :: 0 <= k < |t.users| && k != i.value ==> r.users[k] == t.users[k])
      && r.active == t.active + [SessionRow(i.value + 1, ip, port, now)]
      && r.history == t.history + [SessionRow(i.value + 1, ip, port, now)]
  {
    var r := Login(t, name, ip, port, now);
    match FindUser(t.users, name)
    case Some(i) =>
      assert r.users[i].username == name;
      assert FindUser(r.users, name) == Some(i) by {
        assert forall k :: 0 <= k < i ==> r.users[k] == t.users[k];
      }
    case None =>
      FindUserAppend(t.users, UserRow(|t.users| + 1, name, now), name);
  }

  /** A logout fails exactly for a name that never logged in; otherwise it
      removes every active row of that user, keeps all other active rows,
      and leaves `user` and `login_history` unchanged. */
  lemma LogoutSpec(t: Tables, name: string)
    requires Valid(t)
    ensures var r := Logout(t, name);
      && (r.Raise? <==> forall i :: 0 <= i < |t.users| ==> t.users[i].username != name)
      && (r.Raise? ==> r.exc == AttributeError)
      && (r.Ok? ==>
            && Valid(r.value)
            && r.value.users == t.users && r.value.history == t.history
            && var id := FindUser(t.users, name).value + 1;
            && (forall x :: x in r.value.active <==> x in t.active && x.user != id)
            && t.users[id - 1].username == name)
  {
  }

  /** `users_list` answers every user who has ever logged in: a login puts
      its name there, and neither a login nor a logout removes one. */
  lemma UsersNeverForgotten(t: Tables, name: string, ip: string, port: int, now: Instant, other: string)
    requires Valid(t)
    ensures exists s :: s in UsersList(Login(t, name, ip, port, now)) && s.username == name
    ensures forall s :: s in UsersList(t) ==>
      exists s' :: s' in UsersList(Login(t, name, ip, port, now)) && s'.username == s.username
    ensures Logout(t, other).Ok? ==> UsersList(Logout(t, other).value) == UsersList(t)
  {
    var r := Login(t, name, ip, port, now);
    LoginSpec(t, name, ip, port, now);
    var i := FindUser(r.users, name).value;
    assert UsersList(r)[i].username == name;
    forall s | s in UsersList(t)
      ensures exists s' :: s' in UsersList(r) && s'.username == s.username
    {
      var k :| 0 <= k < |UsersList(t)| && UsersList(t)[k] == s;
      assert UsersList(r)[k].username == s.username;
    }
  }

  /** The active list is the active table joined with the users: under
      Valid, one entry per active row, carrying its user's name. */
  lemma {:induction false} JoinValid(users: seq<UserRow>, rows: seq<SessionRow>)
    requires forall i :: 0 <= i < |users| ==> users[i].id == i + 1
    requires forall r :: r in rows ==> 1 <= r.user <= |users|
    ensures var j := Join(users, rows);
      && |j| == |rows|
      && forall k :: 0 <= k < |j| ==>
           j[k] == Visit(users[rows[k].user - 1].username, rows[k].ip, rows[k].port, rows[k].at)
    decreases |rows|
  {
    if rows != [] {
      var init := rows[..|rows| - 1];
      var last := rows[|rows| - 1];
      assert forall r :: r in init ==> r in rows;
      JoinValid(users, init);
      assert last in rows;
      UserByIdAt(users, last.user);
      var v := Visit(users[last.user - 1].username, last.ip, last.port, last.at);
      var ji := Join(users, init);
      var j := Join(users, rows);
      assert j == ji + [v];
      assert |ji| == |init|;
      forall k | 0 <= k < |rows|
        ensures j[k] == Visit(users[rows[k].user - 1].username, rows[k].ip, rows[k].port, rows[k].at)
      {
        if k < |init| {
          assert rows[k] == init[k];
          assert j[k] == ji[k];
        }
      }
    }
  }

  /** The visits of one user, in order: an independent reference for the
      filter `login_history` is meant to apply. */
  function OfUser(vs: seq<Visit>, name: string): seq<Visit>
    decreases |vs|
  {
    if vs == [] then []
    else
      var last := vs[|vs| - 1];
      OfUser(vs[..|vs| - 1], name) + (if last.username == name then [last] else [])
  }

  /** OfUser keeps exactly the named user's visits, each as often as it
      occurs. */
  lemma {:induction false} OfUserSpec(vs: seq<Visit>, name: string)
    ensures forall v :: v in OfUser(vs, name) <==> v in vs && v.username == name
    ensures forall v :: multiset(OfUser(vs, name))[v] == if v.username == name then multiset(vs)[v] else 0
    decreases |vs|
  {
    if vs != [] {
      var last := vs[|vs| - 1];
      assert vs == vs[..|vs| - 1] + [last];
      OfUserSpec(vs[..|vs| - 1], name);
    }
  }

  /** The corrected login history of a user is exactly that user's visits
      in the joined history, in order and with their multiplicity; with no
      (or an empty) name it is the whole joined history. */
  lemma {:induction false} LoginHistoryOfUser(t: Tables, username: Option<string>)
    ensures LoginHistory(t, username) ==
      if username.None? || username.value == "" then Join(t.users, t.history)
      else OfUser(Join(t.users, t.history), username.value)
    decreases |t.history|
  {
    if username.Some? && username.value != "" && t.history != [] {
      var name := username.value;
      var init := t.(history := t.history[..|t.history| - 1]);
      var last := t.history[|t.history| - 1];
      LoginHistoryOfUser(init, username);
      var tail := match UserById(t.users, last.user)
        case None => []
        case Some(u) => [Visit(u.username, last.ip, last.port, last.at)];
      assert Join(t.users, t.history) == Join(t.users, init.history) + tail;
      OfUserAppend(Join(t.users, init.history), tail, name);
      if tail != [] {
        assert OfUser(tail, name) == OfUser([], name) + (if tail[0].username == name then tail else []);
      }
    }
  }

  /** Filtering a concatenation filters each part, in order. */
  lemma {:induction false} OfUserAppend(a: seq<Visit>, b: seq<Visit>, name: string)
    ensures OfUser(a + b, name) == OfUser(a, name) + OfUser(b, name)
    decreases |b|
  {
    if b != [] {
      var b0 := b[..|b| - 1];
      assert (a + b)[..|a + b| - 1] == a + b0;
      var last := b[|b| - 1];
      assert (a + b)[|a + b| - 1] == last;
      var extra := if last.username == name then [last] else [];
      assert OfUser(a + b, name) == OfUser(a + b0, name) + extra;
      assert OfUser(b, name) == OfUser(b0, name) + extra;
      OfUserAppend(a, b0, name);
    } else {
      assert a + b == a;
    }
  }

  /** The query built for a name is discarded: asking for client_1's
      history after client_1 and client_2 logged in also returns
      client_2's login. */
  lemma LoginHistoryIgnoresName()
    ensures var t0 := Tables([], [], []);
      var t := Login(Login(t0, "client_1", "192.168.1.4", 8888, 1), "client_2", "192.168.1.5", 7777, 2);
      && Visit("client_2", "192.168.1.5", 7777, 2) in LoginHistoryAsWritten(t, Some("client_1"))
      && Visit("client_2", "192.168.1.5", 7777, 2) !in LoginHistory(t, Some("client_1"))
  {
    var t0 := Tables([], [], []);
    var t1 := Login(t0, "client_1", "192.168.1.4", 8888, 1);
    var u1 := UserRow(1, "client_1", 1);
    var u2 := UserRow(2, "client_2", 2);
    var h1 := SessionRow(1, "192.168.1.4", 8888, 1);
    var h2 := SessionRow(2, "192.168.1.5", 7777, 2);
    assert t1 == Tables([u1], [h1], [h1]);
    assert FindUser([u1], "client_2") == None by {
      assert "client_1"[7] != "client_2"[7];
    }
    var t := Login(t1, "client_2", "192.168.1.5", 7777, 2);
    assert t == Tables([u1, u2], [h1, h2], [h1, h2]);
    assert Valid(t);
    JoinValid(t.users, t.history);
    assert Join(t.users, t.history)[1] == Visit("client_2", "192.168.1.5", 7777, 2);
    LoginHistoryOfUser(t, Some("client_1"));
    OfUserSpec(Join(t.users, t.history), "client_1");
    assert "client_2" != "client_1" by {
      assert "client_1"[7] != "client_2"[7];
    }
  }
}

/** `ServerStorage` as a class whose three tables its methods update. */
module ServerDatabase {
  import opened Jim
  import opened StorageTables

  class ServerStorage {
    var users: seq<UserRow>
    var active: seq<SessionRow>
    var history: seq<SessionRow>

    function Snapshot(): Tables
      reads this
    {
      Tables(users, active, history)
    }

    /** `ServerStorage()` over the tables a previous run left behind. */
    constructor (persisted: Tables)
      requires Valid(persisted)
      ensures Snapshot() == Reset(persisted) && Valid(Snapshot())
    {
      users := persisted.users;
      active := [];
      history := persisted.history;
    }

    method UserLogin(name: string, ip: string, port: int, now: Instant)
      requires Valid(Snapshot())
      modifies this
      ensures Snapshot() == Login(old(Snapshot()), name, ip, port, now) && Valid(Snapshot())
    {
      LoginSpec(Snapshot(), name, ip, port, now);
      var found := FindUser(users, name);
      var id: nat;
      if found.Some? {
        id := users[found.value].id;
        users := users[found.value := users[found.value].(lastLogin := now)];
      } else {
        id := |users| + 1;
        users := users + [UserRow(id, name, now)];
      }
      active := active + [SessionRow(id, ip, port, now)];
      history := history + [SessionRow(id, ip, port, now)];
    }

    method UserLogout(name: string) returns (raised: Option<Exc>)
      requires Valid(Snapshot())
      modifies this
      ensures match Logout(old(Snapshot()), name)
        case Raise(e) => raised == Some(e) && Snapshot() == old(Snapshot())
        case Ok(t) => raised == None && Snapshot() == t
      ensures Valid(Snapshot())
    {
      LogoutSpec(Snapshot(), name);
      var found := FindUser(users, name);
      if found.None? {
        return Some(AttributeError);
      }
      active := Without(active, users[found.value].id);
      raised := None;
    }

    /** `users_list()`: every user row, in table order. */
    method UsersList() returns (r: seq<Seen>)
      ensures |r| == |users|
      ensures forall i :: 0 <= i < |r| ==> r[i].username == users[i].username && r[i].lastLogin == users[i].lastLogin
    {
      r := StorageTables.UsersList(Snapshot());
    }

    /** `active_users_list()`: one entry per active row with its user's name. */
    method ActiveUsersList() returns (r: seq<Visit>)
      requires Valid(Snapshot())
      ensures |r| == |active|
      ensures forall k :: 0 <= k < |r| ==>
        r[k] == Visit(users[active[k].user - 1].username, active[k].ip, active[k].port, active[k].at)
    {
      JoinValid(users, active);
      r := StorageTables.ActiveUsersList(Snapshot());
    }

    /** `login_history(username)`: that user's logins, or all of them. */
    method LoginHistory(username: Option<string>) returns (r: seq<Visit>)
      requires Valid(Snapshot())
      ensures username.None? || username.value == "" ==> r == Join(users, history)
      ensures username.Some? && username.value != "" ==> r == OfUser(Join(users, history), username.value)
    {
      LoginHistoryOfUser(Snapshot(), username);
      r := StorageTables.LoginHistory(Snapshot(), username);
    }
  }
}
