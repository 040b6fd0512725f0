/**
 * The subscriber registry: everyone who pressed /start, kept as a map from the
 * user id to the user's details, plus a log of first visits in the order they
 * happened. The stored map is keyed by the decimal text of the id; since
 * different ids have different texts (Text.IntStrInjective), the model keys it by
 * the id itself. Reading and writing the file, and the clock, are not modelled:
 * the registry holds the loaded data, and the time of a visit is a parameter.
 */
module UsersStore {
  import opened Wrappers
  import opened Text

  /** A stored user, as `add_user` writes it. */
  datatype User = User(userId: int, username: string, firstName: string, lastName: string, lastSeen: string)

  /** An entry of the log of first visits. */
  datatype Joined = Joined(userId: int, at: string)

  /** A row of `get_all_users`. */
  datatype Listed = Listed(userId: int, username: string, firstName: string, lastName: string,
                           firstSeen: string, lastSeen: string)

  /** The ids in the log of first visits. */
  function LogIds(log: seq<Joined>): set<int>
    decreases |log|
  {
    if log == [] then {} else {log[0].userId} + LogIds(log[1..])
  }

  lemma {:induction false} LogIdsSnoc(log: seq<Joined>, e: Joined)
    ensures LogIds(log + [e]) == LogIds(log) + {e.userId}
    decreases |log|
  {
    if log != [] {
      assert (log + [e])[1..] == log[1..] + [e];
      LogIdsSnoc(log[1..], e);
    }
  }

  /**
   * The users map and its key order as `add_user` keeps them: the order lists every
   * key once (the insertion order of the dictionary), and each key is the id of
   * the user stored under it.
   */
  ghost predicate WellFormed(users: map<int, User>, order: seq<int>) {
    && Distinct(order)
    && (forall k :: k in users <==> k in order)
    && KeysMatchIds(users)
  }

  predicate Distinct(order: seq<int>) {
    forall i, j :: 0 <= i < j < |order| ==> order[i] != order[j]
  }

  /** Each key is the id of the user stored under it. */
  ghost predicate KeysMatchIds(users: map<int, User>) {
    forall k :: k in users ==> users[k].userId == k
  }

  /** The keys an order lists. */
  function Elems(order: seq<int>): set<int> {
    set k | k in order
  }

  // ---- the listing ---------------------------------------------------------------

  /** The row for a log entry: the stored details of that user, or empty ones when none are stored. */
  function LogRow(e: Joined, users: map<int, User>): Listed {
    var uid := e.userId;
    if uid in users then
      var u := users[uid];
      Listed(e.userId, u.username, u.firstName, u.lastName, e.at, u.lastSeen)
    else
      Listed(e.userId, "", "", "", e.at, "")
  }

  /** The row for a stored user never seen in the log: first seen is taken to be last seen. */
  function UserRow(u: User): Listed {
    Listed(u.userId, u.username, u.firstName, u.lastName, u.lastSeen, u.lastSeen)
  }

  /** The first loop of `get_all_users`: the log in order, skipping users already listed. */
  function FromLog(log: seq<Joined>, users: map<int, User>, seen: set<int>): seq<Listed>
    decreases |log|
  {
    if log == [] then []
    else
      var uid := log[0].userId;
      if uid in seen then FromLog(log[1..], users, seen)
      else [LogRow(log[0], users)] + FromLog(log[1..], users, seen + {uid})
  }

  /** The second loop of `get_all_users`: the stored users, in key order, that the log never mentions. */
  function FromMap(order: seq<int>, users: map<int, User>, seen: set<int>): seq<Listed>
    decreases |order|
  {
    if order == [] then []
    else
      (if order[0] !in seen && order[0] in users then [UserRow(users[order[0]])] else [])
      + FromMap(order[1..], users, seen)
  }

  /** What `get_all_users` returns. */
  function Listing(log: seq<Joined>, users: map<int, User>, order: seq<int>): seq<Listed> {
    FromLog(log, users, {}) + FromMap(order, users, LogIds(log))
  }

  /** No user is listed twice. */
  predicate DistinctIds(rs: seq<Listed>) {
    forall i, j :: 0 <= i < j < |rs| ==> rs[i].userId != rs[j].userId
  }

  /** A row shows the stored details of its user, or empty details when none are stored. */
  predicate ShowsStored(r: Listed, users: map<int, User>) {
    var uid := r.userId;
    if uid in users then
      var u := users[uid];
      r.username == u.username && r.firstName == u.firstName && r.lastName == u.lastName
      && r.lastSeen == u.lastSeen
    else
      r.username == "" && r.firstName == "" && r.lastName == "" && r.lastSeen == ""
  }

  /** Every row of the first loop is for a user of the log not seen before, and shows the stored details. */
  lemma {:induction false} FromLogRows(log: seq<Joined>, users: map<int, User>, seen: set<int>)
    ensures forall r :: r in FromLog(log, users, seen) ==>
      r.userId in LogIds(log) && r.userId !in seen && ShowsStored(r, users)
    decreases |log|
  {
    if log != [] {
      var uid := log[0].userId;
      if uid in seen {
        FromLogRows(log[1..], users, seen);
      } else {
        FromLogRows(log[1..], users, seen + {uid});
      }
    }
  }

  /** The first loop lists no user twice. */
  lemma {:induction false} FromLogDistinct(log: seq<Joined>, users: map<int, User>, seen: set<int>)
    ensures DistinctIds(FromLog(log, users, seen))
    decreases |log|
  {
    if log != [] {
      var uid := log[0].userId;
      if uid in seen {
        FromLogDistinct(log[1..], users, seen);
      } else {
        var seen' := seen + {uid};
        FromLogDistinct(log[1..], users, seen');
        FromLogRows(log[1..], users, seen');
        var rest := FromLog(log[1..], users, seen');
        var rs := [LogRow(log[0], users)] + rest;
        assert rs == FromLog(log, users, seen);
        forall i, j | 0 <= i < j < |rs| ensures rs[i].userId != rs[j].userId {
          assert rs[j] == rest[j - 1];
          if i > 0 {
            assert rs[i] == rest[i - 1];
          } else {
            assert rest[j - 1] in rest;
          }
        }
      }
    }
  }

  /** The first loop lists as many users as the log holds beyond those already seen. */
  lemma {:induction false} FromLogLength(log: seq<Joined>, users: map<int, User>, seen: set<int>)
    ensures |FromLog(log, users, seen)| == |LogIds(log) - seen|
    decreases |log|
  {
    if log == [] {
    } else {
      var uid := log[0].userId;
      if uid in seen {
        FromLogLength(log[1..], users, seen);
        assert LogIds(log) - seen == LogIds(log[1..]) - seen;
      } else {
        FromLogLength(log[1..], users, seen + {uid});
        FirstSighting(uid, LogIds(log[1..]), seen);
      }
    }
  }

  /** An id not yet seen adds one to the ids still to list. */
  lemma FirstSighting(uid: int, rest: set<int>, seen: set<int>)
    requires uid !in seen
    ensures |({uid} + rest) - seen| == |rest - (seen + {uid})| + 1
  {
    var others := rest - (seen + {uid});
    assert ({uid} + rest) - seen == others + {uid};
    UnionSize(others, {uid});
    assert {uid} - others == {uid};
  }

  /** Every row of the second loop is for a stored user of the order not seen in the log, and shows the stored details. */
  lemma {:induction false} FromMapRows(order: seq<int>, users: map<int, User>, seen: set<int>)
    requires KeysMatchIds(users)
    ensures forall r :: r in FromMap(order, users, seen) ==>
      r.userId in users && r.userId in order && r.userId !in seen && ShowsStored(r, users)
    decreases |order|
  {
    if order != [] {
      FromMapRows(order[1..], users, seen);
      var tail := FromMap(order[1..], users, seen);
      var head: seq<Listed> := if order[0] !in seen && order[0] in users then [UserRow(users[order[0]])] else [];
      assert FromMap(order, users, seen) == head + tail;
      forall r | r in head + tail
        ensures r.userId in users && r.userId in order && r.userId !in seen && ShowsStored(r, users)
      {
        if r in tail {
          assert forall x :: x in order[1..] ==> x in order;
        } else {
          assert r == UserRow(users[order[0]]) && r.userId == order[0];
        }
      }
    }
  }

  lemma DistinctTail(order: seq<int>)
    requires Distinct(order) && order != []
    ensures Distinct(order[1..]) && order[0] !in order[1..]
  {
  }

  /** The second loop lists no user twice. */
  lemma {:induction false} FromMapDistinct(order: seq<int>, users: map<int, User>, seen: set<int>)
    requires Distinct(order) && KeysMatchIds(users)
    ensures DistinctIds(FromMap(order, users, seen))
    decreases |order|
  {
    if order != [] {
      DistinctTail(order);
      FromMapDistinct(order[1..], users, seen);
      FromMapRows(order[1..], users, seen);
      var tail := FromMap(order[1..], users, seen);
      var head: seq<Listed> := if order[0] !in seen && order[0] in users then [UserRow(users[order[0]])] else [];
      var rs := head + tail;
      assert rs == FromMap(order, users, seen);
      assert forall r :: r in head ==> r.userId == order[0];
      forall i, j | 0 <= i < j < |rs| ensures rs[i].userId != rs[j].userId {
        assert rs[j] == tail[j - |head|];
        if i >= |head| {
          assert rs[i] == tail[i - |head|];
        } else {
          assert tail[j - |head|] in tail;
        }
      }
    }
  }

  lemma ElemsCons(order: seq<int>)
    requires order != []
    ensures Elems(order) == {order[0]} + Elems(order[1..])
  {
    assert forall x :: x in order <==> x == order[0] || x in order[1..];
  }

  /** The second loop lists as many users as the order holds beyond those already seen. */
  lemma {:induction false} FromMapLength(order: seq<int>, users: map<int, User>, seen: set<int>)
    requires Distinct(order) && forall k :: k in order ==> k in users
    ensures |FromMap(order, users, seen)| == |Elems(order) - seen|
    decreases |order|
  {
    if order == [] {
      assert Elems(order) == {};
    } else {
      var k := order[0];
      DistinctTail(order);
      ElemsCons(order);
      FromMapLength(order[1..], users, seen);
      var rest := Elems(order[1..]);
      if k !in seen {
        NewKey(k, rest, seen);
      } else {
        assert ({k} + rest) - seen == rest - seen;
      }
    }
  }

  /** A key listed once and not yet seen adds one to the keys still to list. */
  lemma NewKey(k: int, rest: set<int>, seen: set<int>)
    requires k !in rest && k !in seen
    ensures |({k} + rest) - seen| == |rest - seen| + 1
  {
    var others := rest - seen;
    assert ({k} + rest) - seen == others + {k};
    UnionSize(others, {k});
    assert {k} - others == {k};
  }

  /** `get_all_users` lists no user twice. */
  lemma ListingDistinct(log: seq<Joined>, users: map<int, User>, order: seq<int>)
    requires WellFormed(users, order)
    ensures DistinctIds(Listing(log, users, order))
  {
    var a := FromLog(log, users, {});
    var b := FromMap(order, users, LogIds(log));
    FromLogRows(log, users, {});
    FromLogDistinct(log, users, {});
    FromMapRows(order, users, LogIds(log));
    FromMapDistinct(order, users, LogIds(log));
    var rs := a + b;
    forall i, j | 0 <= i < j < |rs| ensures rs[i].userId != rs[j].userId {
      if j < |a| {
        assert rs[i] == a[i] && rs[j] == a[j];
      } else if i >= |a| {
        assert rs[i] == b[i - |a|] && rs[j] == b[j - |a|];
      } else {
        assert rs[i] == a[i] && a[i] in a;
        assert rs[j] == b[j - |a|] && b[j - |a|] in b;
      }
    }
  }

  /**
   * Every row of `get_all_users` is for a user of the log or the map, and shows the
   * stored details, or empty ones when the log mentions a user the map lacks.
   */
  lemma ListingRows(log: seq<Joined>, users: map<int, User>, order: seq<int>)
    requires KeysMatchIds(users)
    ensures forall r :: r in Listing(log, users, order) ==>
      r.userId in LogIds(log) + users.Keys && ShowsStored(r, users)
  {
    FromLogRows(log, users, {});
    FromMapRows(order, users, LogIds(log));
  }

  /** A union counts the first set plus what the second adds to it. */
  lemma UnionSize(a: set<int>, b: set<int>)
    ensures |a + b| == |a| + |b - a|
  {
    assert a + b == a + (b - a);
    assert a !! (b - a);
  }

  /** In a well-formed registry the order lists exactly the stored keys. */
  lemma ElemsAreKeys(users: map<int, User>, order: seq<int>)
    requires forall k :: k in users <==> k in order
    ensures Elems(order) == users.Keys
  {
    forall k ensures k in Elems(order) <==> k in users.Keys {
      assert k in Elems(order) <==> k in order;
    }
  }

  /** `get_all_users` lists as many users as the log and the map hold together. */
  lemma ListingLength(log: seq<Joined>, users: map<int, User>, order: seq<int>)
    requires WellFormed(users, order)
    ensures |Listing(log, users, order)| == |LogIds(log) + users.Keys|
  {
    var ids := LogIds(log);
    FromLogLength(log, users, {});
    assert ids - {} == ids;
    FromMapLength(order, users, ids);
    ElemsAreKeys(users, order);
    UnionSize(ids, users.Keys);
  }

  /** The number of users listed is at least the number counted. */
  lemma ListingCoversCount(log: seq<Joined>, users: map<int, User>, order: seq<int>)
    requires WellFormed(users, order)
    ensures |Listing(log, users, order)| >= |users|
  {
    ListingLength(log, users, order);
    UnionSize(users.Keys, LogIds(log));
    assert LogIds(log) + users.Keys == users.Keys + LogIds(log);
  }

  /** When every logged user is also stored, as `add_user` keeps it, the listing has exactly one row per counted user. */
  lemma ListingMatchesCount(log: seq<Joined>, users: map<int, User>, order: seq<int>)
    requires WellFormed(users, order) && LogIds(log) <= users.Keys
    ensures |Listing(log, users, order)| == |users|
  {
    ListingLength(log, users, order);
    assert LogIds(log) + users.Keys == users.Keys;
  }

  /** One turn of the first loop of `get_all_users` keeps the rows listed so far plus the rows still to come. */
  lemma FromLogStep(log: seq<Joined>, i: nat, users: map<int, User>, seen: set<int>, acc: seq<Listed>)
    requires i < |log|
    ensures LogIds(log[..i + 1]) == LogIds(log[..i]) + {log[i].userId}
    ensures log[i].userId in seen ==>
      acc + FromLog(log[i + 1..], users, seen) == acc + FromLog(log[i..], users, seen)
    ensures log[i].userId !in seen ==>
      (acc + [LogRow(log[i], users)]) + FromLog(log[i + 1..], users, seen + {log[i].userId})
      == acc + FromLog(log[i..], users, seen)
  {
    assert log[..i + 1] == log[..i] + [log[i]];
    LogIdsSnoc(log[..i], log[i]);
    assert log[i..][1..] == log[i + 1..];
  }

  /** One turn of the second loop of `get_all_users`, likewise. */
  lemma FromMapStep(order: seq<int>, j: nat, users: map<int, User>, seen: set<int>, acc: seq<Listed>)
    requires j < |order|
    ensures order[j] in seen || order[j] !in users ==>
      acc + FromMap(order[j + 1..], users, seen) == acc + FromMap(order[j..], users, seen)
    ensures order[j] !in seen && order[j] in users ==>
      (acc + [UserRow(users[order[j]])]) + FromMap(order[j + 1..], users, seen)
      == acc + FromMap(order[j..], users, seen)
  {
    assert order[j..][1..] == order[j + 1..];
  }

  /** Storing a user under its id keeps the map and its order well formed; the order grows only for a new user. */
  lemma StoreKeepsWellFormed(users: map<int, User>, order: seq<int>, u: User)
    requires WellFormed(users, order)
    ensures WellFormed(users[u.userId := u], if u.userId in users then order else order + [u.userId])
  {
    var uid := u.userId;
    var users' := users[uid := u];
    if uid !in users {
      var order' := order + [uid];
      forall i, j | 0 <= i < j < |order'| ensures order'[i] != order'[j] {
        assert order'[i] == order[i];
        if j == |order| {
          assert order[i] in users;
        } else {
          assert order'[j] == order[j];
        }
      }
      forall k ensures k in users' <==> k in order' {
        assert k in order' <==> k in order || k == uid;
      }
    }
  }

  // ---- the registry --------------------------------------------------------------

  class Registry {
    var users: map<int, User>
    /** The keys of `users` in the order the dictionary holds them. */
    var order: seq<int>
    var byDate: seq<Joined>

    ghost predicate Valid()
      reads this
    {
      WellFormed(users, order)
    }

    /** A registry with no file yet, or one that could not be read: no users and an empty log. */
    constructor ()
      ensures Valid()
      ensures users == map[] && order == [] && byDate == []
    {
      users := map[];
      order := [];
      byDate := [];
    }

    /** A registry holding data loaded from the file. */
    constructor Loaded(users: map<int, User>, order: seq<int>, byDate: seq<Joined>)
      requires WellFormed(users, order)
      ensures Valid()
      ensures this.users == users && this.order == order && this.byDate == byDate
    {
      this.users := users;
      this.order := order;
      this.byDate := byDate;
    }

    /**
     * `add_user(user_id, username, first_name, last_name)` at time `now`: records the
     * user's details, logs the first visit of a new user, and tells whether the user
     * is new. A missing name is stored as "".
     */
    method AddUser(userId: int, username: Option<string>, firstName: Option<string>, lastName: Option<string>,
                   now: string) returns (isNew: bool)
      requires Valid()
      modifies this
      ensures Valid()
      ensures isNew <==> userId !in old(users)
      ensures byDate == old(byDate) + (if isNew then [Joined(userId, now)] else [])
      ensures users == old(users)[userId := User(userId, username.GetOr(""), firstName.GetOr(""),
                                                       lastName.GetOr(""), now)]
      ensures order == old(order) + (if isNew then [userId] else [])
      ensures |users| == |old(users)| + (if isNew then 1 else 0)
      ensures LogIds(old(byDate)) <= old(users).Keys ==> LogIds(byDate) <= users.Keys
    {
      var uid := userId;
      var u := User(userId, username.GetOr(""), firstName.GetOr(""), lastName.GetOr(""), now);
      isNew := uid !in users;
      StoreKeepsWellFormed(users, order, u);
      assert |users[uid := u]| == |users| + (if isNew then 1 else 0) by {
        if isNew {
          assert users[uid := u].Keys == users.Keys + {uid};
        } else {
          assert users[uid := u].Keys == users.Keys;
        }
      }
      if isNew {
        LogIdsSnoc(byDate, Joined(userId, now));
        byDate := byDate + [Joined(userId, now)];
        order := order + [uid];
      }
      users := users[uid := u];
    }

    /** `get_all_users()`: one loop over the log of first visits, then one over the stored users. */
    method GetAllUsers() returns (result: seq<Listed>)
      ensures result == Listing(byDate, users, order)
    {
      result := [];
      var seen: set<int> := {};
      for i := 0 to |byDate|
        invariant seen == LogIds(byDate[..i])
        invariant result + FromLog(byDate[i..], users, seen) == FromLog(byDate, users, {})
      {
        var e := byDate[i];
        var uid := e.userId;
        FromLogStep(byDate, i, users, seen, result);
        if uid in seen {
          continue;
        }
        seen := seen + {uid};
        var row;
        if uid in users {
          var u := users[uid];
          row := Listed(e.userId, u.username, u.firstName, u.lastName, e.at, u.lastSeen);
        } else {
          row := Listed(e.userId, "", "", "", e.at, "");
        }
        result := result + [row];
      }
      assert byDate[..|byDate|] == byDate && byDate[|byDate|..] == [];
      ghost var fromLog := result;
      assert order[0..] == order;
      for j := 0 to |order|
        invariant result + FromMap(order[j..], users, seen) == fromLog + FromMap(order, users, seen)
      {
        var uid := order[j];
        FromMapStep(order, j, users, seen, result);
        // `order` lists the keys of `users` when Valid() holds, so the second test only matters otherwise
        if uid !in seen && uid in users {
          var u := users[uid];
          result := result + [Listed(u.userId, u.username, u.firstName, u.lastName, u.lastSeen, u.lastSeen)];
        }
      }
      assert order[|order|..] == [];
      assert fromLog == FromLog(byDate, users, {}) && seen == LogIds(byDate);
    }

    /** `count_users()`: the number of stored users. */
    method CountUsers() returns (n: nat)
      ensures n == |users|
    {
      n := |users|;
    }
  }
}
