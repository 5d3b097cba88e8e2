/**
  The user model: registration that is a check-then-insert on `user_id`, and
  the listing of every stored user.
 */
module UserModel {
  import opened Values
  import opened Store

  /** What `add_user` returns: the stored user, with the numeric `id` of its
      key only when this call created it (an existing user comes back as
      stored, without `id`). */
  datatype UserView = UserView(key: Option<nat>, user: User)

  /** The result of the query `filter("user_id", "=", id)` over the users listed in `ids`. */
  function UsersWith(users: map<nat, User>, ids: seq<nat>, id: Value): (r: seq<nat>)
    ensures forall i :: 0 <= i < |r| ==> r[i] in ids && r[i] in users && users[r[i]].userId == id
    ensures forall k :: k in ids && k in users && users[k].userId == id ==> k in r
    ensures Increasing(ids) ==> Increasing(r)
    decreases |ids|
  {
    if ids == [] then []
    else
      var rest := UsersWith(users, ids[1..], id);
      if ids[0] in users && users[ids[0]].userId == id then
        assert Increasing(ids) ==> Increasing([ids[0]] + rest) by {
          if Increasing(ids) {
            PrependSmallest(ids, rest);
          }
        }
        [ids[0]] + rest
      else rest
  }

  /** The keys of the stored users whose `user_id` is `id`. */
  function IdsWith(users: map<nat, User>, id: Value): set<nat>
  {
    set k | k in users && users[k].userId == id
  }

  /** The users after registering `u` with `key` as the fresh key: unchanged
      when the query over `order` finds a user with the same `user_id`. */
  function Registered(users: map<nat, User>, order: seq<nat>, key: nat, u: User): map<nat, User>
  {
    if UsersWith(users, order, u.userId) != [] then users else users[key := u]
  }

  /** The query finds a user exactly when one with that `user_id` is stored,
      provided `order` lists every stored key. */
  lemma FoundIffStored(users: map<nat, User>, order: seq<nat>, id: Value)
    ensures IdsWith(users, id) == {} ==> UsersWith(users, order, id) == []
    ensures (forall k :: k in users ==> k in order) && IdsWith(users, id) != {} ==> UsersWith(users, order, id) != []
  {
    var r := UsersWith(users, order, id);
    assert forall i :: 0 <= i < |r| ==> r[i] in IdsWith(users, id);
    if (forall k :: k in users ==> k in order) && IdsWith(users, id) != {} {
      var k :| k in IdsWith(users, id);
      assert k in r;
    }
  }

  /** What `add_user` returns when `key` is the fresh key: the first user the
      query over `order` finds, as stored, or else `u` with its new key. */
  function Registration(users: map<nat, User>, order: seq<nat>, key: nat, u: User): (v: UserView)
    ensures UsersWith(users, order, u.userId) != [] ==> v.key.None? && v.user.userId == u.userId && v.user in users.Values
    ensures UsersWith(users, order, u.userId) == [] ==> v == UserView(Some(key), u)
  {
    var found := UsersWith(users, order, u.userId);
    if found != [] then UserView(None, users[found[0]]) else UserView(Some(key), u)
  }

  /** `add_user`: the first user (in key order) with `user_id == id` is returned
      as stored and nothing is saved, whatever `name` and `email` are;
      otherwise exactly `{user_id, name, email}` is saved under a fresh key
      and returned with that key. */
  method AddUser(ds: Datastore, id: Value, name: Value, email: Value) returns (v: UserView)
    requires ds.Valid()
    modifies ds`users, ds`nextId
    ensures ds.Valid()
    ensures v == Registration(old(ds.users), old(ds.UserOrder()), old(ds.nextId), User(id, name, email))
    ensures ds.users == Registered(old(ds.users), old(ds.UserOrder()), old(ds.nextId), User(id, name, email))
    ensures v.key.Some? ==> v.key.value !in old(ds.users)
  {
    var users := ds.users;
    var matches := UsersWith(users, ds.UserOrder(), id);
    if matches != [] {
      v := UserView(None, users[matches[0]]);
    } else {
      var newUser := User(id, name, email);
      var key := ds.SaveNewUser(newUser);
      v := UserView(Some(key), newUser);
    }
  }

  /** An existing registration wins: a new name and email are not looked at. */
  lemma RegistrationKeepsExisting(users: map<nat, User>, order: seq<nat>, key: nat, u: User, name: Value, email: Value)
    requires forall k :: k in users ==> k in order
    requires IdsWith(users, u.userId) != {}
    ensures Registration(users, order, key, u) == Registration(users, order, key, User(u.userId, name, email))
    ensures Registration(users, order, key, u).key.None?
  {
    FoundIffStored(users, order, u.userId);
  }

  /** Registering over a user with the same `user_id` changes nothing. */
  lemma RegisteredExisting(users: map<nat, User>, order: seq<nat>, key: nat, u: User)
    requires forall k :: k in users ==> k in order
    requires IdsWith(users, u.userId) != {}
    ensures Registered(users, order, key, u) == users
  {
    FoundIffStored(users, order, u.userId);
  }

  /** Registering a new `user_id` under a fresh key leaves exactly one user with it. */
  lemma RegisteredNew(users: map<nat, User>, order: seq<nat>, key: nat, u: User)
    requires key !in users && IdsWith(users, u.userId) == {}
    ensures IdsWith(Registered(users, order, key, u), u.userId) == {key}
  {
    FoundIffStored(users, order, u.userId);
    var after := users[key := u];
    assert Registered(users, order, key, u) == after;
    assert forall k :: k in users && users[k].userId == u.userId ==> k in IdsWith(users, u.userId);
  }

  /** Two registrations with the same `user_id`, one after the other, leave
      exactly one user with that `user_id`: the one the first created. */
  lemma {:induction false} RegisteredTwice(users: map<nat, User>, order1: seq<nat>, order2: seq<nat>, key1: nat, key2: nat, u1: User, u2: User)
    requires u1.userId == u2.userId
    requires key1 !in users && IdsWith(users, u1.userId) == {}
    requires forall k :: k in Registered(users, order1, key1, u1) ==> k in order2
    ensures IdsWith(Registered(Registered(users, order1, key1, u1), order2, key2, u2), u1.userId) == {key1}
  {
    var once := Registered(users, order1, key1, u1);
    RegisteredNew(users, order1, key1, u1);
    assert key1 in IdsWith(once, u2.userId);
    RegisteredExisting(once, order2, key2, u2);
  }

  /** `get_users`: every stored user as stored, in key order. */
  method GetUsers(ds: Datastore) returns (r: seq<User>)
    requires ds.Valid()
    ensures |r| == |ds.UserOrder()|
    ensures forall i :: 0 <= i < |r| ==> ds.UserOrder()[i] in ds.users && r[i] == ds.users[ds.UserOrder()[i]]
    ensures forall k :: k in ds.users ==> exists i :: 0 <= i < |r| && ds.UserOrder()[i] == k && r[i] == ds.users[k]
  {
    var order := ds.UserOrder();
    var users := ds.users;
    r := seq(|order|, i requires 0 <= i < |order| => users[order[i]]);
    forall k | k in users
      ensures exists i :: 0 <= i < |r| && order[i] == k && r[i] == users[k]
    {
      var i := IndexOf(order, k);
    }
  }
}
