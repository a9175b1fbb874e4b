/** The `names` dictionary of the servers (display name -> connection) and
    the `clients` list. Python dictionaries keep insertion order and the
    app server iterates over `names` looking for the first name bound to a
    connection, so the dictionary is an ordered sequence of bindings. */
module Registry {
  import opened Jim

  datatype Binding = Binding(name: Json, conn: Conn)

  type Names = seq<Binding>

  /** No display name occurs twice: a dictionary has unique keys. */
  predicate Unique(ns: Names) {
    forall i, j :: 0 <= i < j < |ns| ==> ns[i].name != ns[j].name
  }

  /** `ns.get(name)`. */
  function Lookup(ns: Names, name: Json): Option<Conn> {
    if ns == [] then None
    else if ns[0].name == name then Some(ns[0].conn)
    else Lookup(ns[1..], name)
  }

  predicate Bound(ns: Names, name: Json) {
    Lookup(ns, name).Some?
  }

  /** `del ns[name]` (of a bound name). */
  function Unbind(ns: Names, name: Json): Names {
    if ns == [] then []
    else if ns[0].name == name then Unbind(ns[1..], name)
    else [ns[0]] + Unbind(ns[1..], name)
  }

  /** The first name, in insertion order, bound to connection c. */
  function FirstNameOf(ns: Names, c: Conn): Option<Json> {
    if ns == [] then None
    else if ns[0].conn == c then Some(ns[0].name)
    else FirstNameOf(ns[1..], c)
  }

  /** The connections some name is bound to. */
  function Conns(ns: Names): set<Conn> {
    set i | 0 <= i < |ns| :: ns[i].conn
  }

  /** Lookup finds exactly the names that occur in the bindings. */
  lemma {:induction false} LookupSpec(ns: Names, name: Json)
    ensures Lookup(ns, name).Some? <==> exists i :: 0 <= i < |ns| && ns[i].name == name
    ensures Lookup(ns, name).Some? ==>
      exists i :: 0 <= i < |ns| && ns[i] == Binding(name, Lookup(ns, name).value)
  {
    if ns != [] {
      LookupSpec(ns[1..], name);
      if ns[0].name != name {
        if Lookup(ns, name).Some? {
          var i :| 0 <= i < |ns[1..]| && ns[1..][i] == Binding(name, Lookup(ns, name).value);
          assert ns[i + 1] == Binding(name, Lookup(ns, name).value);
        }
        if exists i :: 0 <= i < |ns| && ns[i].name == name {
          var i :| 0 <= i < |ns| && ns[i].name == name;
          assert ns[1..][i - 1].name == name;
        }
      }
    }
  }

  /** Binding a new name at the end makes it resolve to its connection and
      leaves every other name as it was. */
  lemma {:induction false} LookupAppend(ns: Names, b: Binding, name: Json)
    requires !Bound(ns, b.name)
    ensures Lookup(ns + [b], name) == if name == b.name then Some(b.conn) else Lookup(ns, name)
  {
    if ns == [] {
    } else {
      assert (ns + [b])[1..] == ns[1..] + [b];
      if ns[0].name != name {
        LookupAppend(ns[1..], b, name);
      }
    }
  }

  /** After `del ns[name]` the name is unbound and every other name keeps
      its connection. */
  lemma {:induction false} LookupUnbind(ns: Names, name: Json, other: Json)
    ensures Lookup(Unbind(ns, name), other) == if other == name then None else Lookup(ns, other)
  {
    if ns != [] {
      LookupUnbind(ns[1..], name, other);
    }
  }

  /** Removal only ever drops bindings, never adds one. */
  lemma {:induction false} UnbindSubset(ns: Names, name: Json)
    ensures forall b :: b in Unbind(ns, name) ==> b in ns && b.name != name
  {
    if ns != [] {
      UnbindSubset(ns[1..], name);
    }
  }

  /** A dictionary keeps unique keys through insertion of a fresh key and
      through deletion. */
  lemma UniqueAppend(ns: Names, b: Binding)
    requires Unique(ns) && !Bound(ns, b.name)
    ensures Unique(ns + [b])
  {
    LookupSpec(ns, b.name);
  }

  lemma {:induction false} UniqueUnbind(ns: Names, name: Json)
    requires Unique(ns)
    ensures Unique(Unbind(ns, name))
  {
    if ns != [] {
      UniqueUnbind(ns[1..], name);
      UnbindSubset(ns[1..], name);
      var rest := Unbind(ns[1..], name);
      if ns[0].name != name {
        forall j | 0 <= j < |rest| ensures rest[j].name != ns[0].name {
          assert rest[j] in rest;
          var k :| 0 <= k < |ns[1..]| && ns[1..][k] == rest[j];
          assert ns[k + 1] == rest[j];
        }
      }
    }
  }

  /** The first name bound to c is indeed bound to c. */
  lemma {:induction false} FirstNameOfBound(ns: Names, c: Conn)
    requires Unique(ns)
    ensures FirstNameOf(ns, c).Some? ==> Lookup(ns, FirstNameOf(ns, c).value) == Some(c)
    ensures FirstNameOf(ns, c).None? <==> c !in Conns(ns)
  {
    if ns != [] {
      FirstNameOfBound(ns[1..], c);
      assert Conns(ns) == {ns[0].conn} + Conns(ns[1..]) by {
        forall x | x in Conns(ns) ensures x in {ns[0].conn} + Conns(ns[1..]) {
          var i :| 0 <= i < |ns| && ns[i].conn == x;
          if i > 0 { assert ns[1..][i - 1].conn == x; }
        }
        forall x | x in Conns(ns[1..]) ensures x in Conns(ns) {
          var i :| 0 <= i < |ns[1..]| && ns[1..][i].conn == x;
          assert ns[i + 1].conn == x;
        }
      }
      if ns[0].conn != c && FirstNameOf(ns, c).Some? {
        var n := FirstNameOf(ns, c).value;
        assert ns[0].name != n by {
          LookupSpec(ns[1..], n);
          var i :| 0 <= i < |ns[1..]| && ns[1..][i].name == n;
          assert ns[i + 1].name == n;
        }
      }
    }
  }

  /** Python's `list.remove(x)`: drop the first occurrence (ValueError when
      x is absent is decided by the caller). */
  function RemoveFirst<T(==)>(s: seq<T>, x: T): seq<T> {
    if s == [] then []
    else if s[0] == x then s[1..]
    else [s[0]] + RemoveFirst(s[1..], x)
  }

  predicate NoDup<T(==)>(s: seq<T>) {
    forall i, j :: 0 <= i < j < |s| ==> s[i] != s[j]
  }

  /** The head of a duplicate-free list does not occur in its tail. */
  lemma HeadNotInTail<T>(s: seq<T>)
    requires NoDup(s) && s != []
    ensures s[0] !in s[1..] && NoDup(s[1..])
  {
    forall k | 0 <= k < |s[1..]| ensures s[1..][k] != s[0] {
      assert s[1..][k] == s[k + 1];
    }
  }

  /** The last element of a duplicate-free list does not occur before it. */
  lemma LastNotInInit<T>(s: seq<T>)
    requires NoDup(s) && s != []
    ensures s[|s| - 1] !in s[..|s| - 1] && NoDup(s[..|s| - 1])
  {
    var init := s[..|s| - 1];
    forall k | 0 <= k < |init| ensures init[k] != s[|s| - 1] {
      assert init[k] == s[k];
    }
  }

  /** On a list without duplicates, remove(x) takes out exactly x. */
  lemma {:induction false} RemoveFirstSpec<T>(s: seq<T>, x: T)
    requires NoDup(s)
    ensures NoDup(RemoveFirst(s, x))
    ensures forall y :: y in RemoveFirst(s, x) <==> y in s && y != x
    ensures x in s ==> |RemoveFirst(s, x)| == |s| - 1
  {
    if s != [] {
      HeadNotInTail(s);
      RemoveFirstSpec(s[1..], x);
    }
  }
}
