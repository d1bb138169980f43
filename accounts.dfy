/**
 * The two tables behind the routes, `User` and `Prediction`, the queries the
 * routes run on them, and the integrity facts the database and the routes
 * maintain together: unique emails, predictions owned by existing users, and
 * a login session naming an existing user.
 *
 * Rows are kept in insertion order. Ids are the SQLite row ids, which, with
 * no deletion anywhere, are 1, 2, 3, ... in insertion order.
 */
module Accounts {
  import opened Wrappers
  import opened Estimator

  /** A `User` row; `password` holds the salted hash, never the password. */
  datatype User = User(id: nat, name: string, email: string, password: string)

  /** A `Prediction` row: the owner's id, the six submitted fields and the forecast. */
  datatype Prediction = Prediction(id: nat, userId: nat, profile: Profile, predictedCost: real)

  /** The two `User` columns the routes query by. */
  datatype Column = Name | Email

  function Field(u: User, c: Column): string {
    match c
    case Name => u.name
    case Email => u.email
  }

  /** `User.query.filter_by(<column>=value).first()`: the position of the earliest such user, if any. */
  function FirstBy(users: seq<User>, c: Column, value: string): (r: Option<nat>)
    ensures r.Some? ==> r.value < |users| && Field(users[r.value], c) == value
    ensures r.Some? ==> forall i :: 0 <= i < r.value ==> Field(users[i], c) != value
    ensures r.None? <==> forall i :: 0 <= i < |users| ==> Field(users[i], c) != value
  {
    if users == [] then None
    else if Field(users[0], c) == value then Some(0)
    else
      match FirstBy(users[1..], c, value)
      case None => None
      case Some(k) => Some(k + 1)
  }

  /** `Prediction.query.filter_by(user_id=uid).all()`: that user's predictions, in log order. */
  function OwnedBy(log: seq<Prediction>, uid: nat): (r: seq<Prediction>)
    ensures |r| <= |log|
  {
    if log == [] then []
    else
      var rest := OwnedBy(log[1..], uid);
      if log[0].userId == uid then [log[0]] + rest else rest
  }

  // ---------------------------------------------------------------------------
  // Integrity of the tables

  /** Row ids count up from 1 in insertion order. */
  ghost predicate UserIdsSequential(users: seq<User>) {
    forall i :: 0 <= i < |users| ==> users[i].id == i + 1
  }

  ghost predicate PredictionIdsSequential(log: seq<Prediction>) {
    forall j :: 0 <= j < |log| ==> log[j].id == j + 1
  }

  /** The `unique=True` constraint on `User.email`. */
  ghost predicate UniqueEmails(users: seq<User>) {
    forall i, j :: 0 <= i < j < |users| ==> users[i].email != users[j].email
  }

  /** The foreign key `Prediction.user_id -> user.id`: every prediction names an existing user. */
  ghost predicate OwnersExist(users: seq<User>, log: seq<Prediction>) {
    forall j :: 0 <= j < |log| ==> HasUser(users, log[j].userId)
  }

  /** Some user has id `uid`. */
  ghost predicate HasUser(users: seq<User>, uid: nat) {
    exists i :: 0 <= i < |users| && users[i].id == uid
  }

  /** The session's name, if any, is held by some registered user. */
  ghost predicate SessionNamesUser(users: seq<User>, session: Option<string>) {
    session.Some? ==> exists i :: 0 <= i < |users| && users[i].name == session.value
  }

  /** What the hashing library promises: a stored hash accepts the password it was made from, whatever the salt. */
  ghost predicate HashSound(hash: (string, string) -> string, check: (string, string) -> bool) {
    forall salt, password :: check(hash(salt, password), password)
  }

  // ---------------------------------------------------------------------------
  // Queries

  /** The logged-in user, found by name as the forecast and history routes do. */
  function SessionUser(users: seq<User>, name: string): (u: Option<User>)
    ensures u.Some? ==> u.value in users && u.value.name == name
    ensures u.None? <==> forall i :: 0 <= i < |users| ==> users[i].name != name
  {
    match FirstBy(users, Name, name)
    case None => None
    case Some(i) => Some(users[i])
  }

  /**
   * The login check: the name to store in the session, when a user with that
   * email exists and the stored hash accepts the password.
   */
  function Authenticate(users: seq<User>, check: (string, string) -> bool, email: string, password: string): (r: Option<string>)
    ensures r.Some? ==> exists i :: 0 <= i < |users| && users[i].email == email
                                   && check(users[i].password, password) && users[i].name == r.value
    ensures UniqueEmails(users) ==>
      (r.None? <==> forall i :: 0 <= i < |users| && users[i].email == email ==> !check(users[i].password, password))
  {
    match FirstBy(users, Email, email)
    case None => None
    case Some(i) => if check(users[i].password, password) then Some(users[i].name) else None
  }

  // ---------------------------------------------------------------------------
  // Lemmas

  /** Appending a user whose email is not yet taken keeps emails unique. */
  lemma FreshEmailKeepsUnique(users: seq<User>, u: User)
    requires UniqueEmails(users)
    requires forall i :: 0 <= i < |users| ==> users[i].email != u.email
    ensures UniqueEmails(users + [u])
  {
  }

  /** Looking a value up in a longer table finds the same earlier row, or else the appended one. */
  lemma {:induction false} FirstByAppend(users: seq<User>, u: User, c: Column, value: string)
    ensures FirstBy(users + [u], c, value) ==
      match FirstBy(users, c, value)
      case Some(i) => Some(i)
      case None => if Field(u, c) == value then Some(|users|) else None
  {
    if users != [] {
      assert (users + [u])[1..] == users[1..] + [u];
      FirstByAppend(users[1..], u, c, value);
    }
  }

  /**
   * The user found under a session name is the one who logged in exactly when
   * no earlier user shares that name: the lookup by name resolves to the first
   * holder of the name, whoever actually logged in.
   */
  lemma SessionUserIsFirstHolder(users: seq<User>, k: nat)
    requires k < |users|
    requires UserIdsSequential(users)
    ensures SessionUser(users, users[k].name).Some?
    ensures SessionUser(users, users[k].name).value.id == users[k].id <==>
      forall i :: 0 <= i < k ==> users[i].name != users[k].name
  {
    var found := FirstBy(users, Name, users[k].name);
    assert found.Some?;
    assert SessionUser(users, users[k].name).value.id == found.value + 1;
  }

  /** Appending a prediction appends it to its owner's history and leaves every other history as it was. */
  lemma {:induction false} OwnedByAppend(log: seq<Prediction>, q: Prediction, uid: nat)
    ensures OwnedBy(log + [q], uid) == OwnedBy(log, uid) + (if q.userId == uid then [q] else [])
  {
    if log == [] {
      assert log + [q] == [q];
    } else {
      assert (log + [q])[0] == log[0];
      assert (log + [q])[1..] == log[1..] + [q];
      OwnedByAppend(log[1..], q, uid);
    }
  }

  /** A user's history holds exactly the log's predictions credited to that user. */
  lemma {:induction false} OwnedByMembers(log: seq<Prediction>, uid: nat)
    ensures forall q :: q in OwnedBy(log, uid) <==> q in log && q.userId == uid
  {
    if log != [] {
      OwnedByMembers(log[1..], uid);
      assert log == [log[0]] + log[1..];
    }
  }

  /** Every prediction in a history has an id above any bound that the whole log's ids exceed. */
  lemma {:induction false} OwnedByAbove(log: seq<Prediction>, uid: nat, bound: nat)
    requires forall k :: 0 <= k < |log| ==> bound < log[k].id
    ensures forall k :: 0 <= k < |OwnedBy(log, uid)| ==> bound < OwnedBy(log, uid)[k].id
  {
    if log != [] {
      var tail := log[1..];
      assert forall k :: 0 <= k < |tail| ==> tail[k] == log[k + 1];
      OwnedByAbove(tail, uid, bound);
    }
  }

  /** History comes back in log order: when ids increase along the log, they increase along every user's history. */
  lemma {:induction false} OwnedByInLogOrder(log: seq<Prediction>, uid: nat)
    requires forall a, b :: 0 <= a < b < |log| ==> log[a].id < log[b].id
    ensures forall a, b :: 0 <= a < b < |OwnedBy(log, uid)| ==> OwnedBy(log, uid)[a].id < OwnedBy(log, uid)[b].id
  {
    if log != [] {
      var tail := log[1..];
      assert forall k :: 0 <= k < |tail| ==> tail[k] == log[k + 1];
      OwnedByInLogOrder(tail, uid);
      var rest := OwnedBy(tail, uid);
      OwnedByAbove(tail, uid, log[0].id);
      if log[0].userId == uid {
        var r := [log[0]] + rest;
        assert OwnedBy(log, uid) == r;
        forall a, b | 0 <= a < b < |r| ensures r[a].id < r[b].id {
          assert r[b] == rest[b - 1];
          if a > 0 {
            assert r[a] == rest[a - 1];
          }
        }
      }
    }
  }

  /** Appending a user keeps every prediction's owner resolvable. */
  lemma AppendUserKeepsOwners(users: seq<User>, u: User, log: seq<Prediction>)
    requires OwnersExist(users, log)
    ensures OwnersExist(users + [u], log)
  {
    forall j | 0 <= j < |log| ensures HasUser(users + [u], log[j].userId) {
      var i :| 0 <= i < |users| && users[i].id == log[j].userId;
      assert (users + [u])[i] == users[i];
    }
  }

  /** Appending a user keeps a resolvable session name resolvable. */
  lemma AppendUserKeepsSession(users: seq<User>, u: User, session: Option<string>)
    ensures SessionNamesUser(users, session) ==> SessionNamesUser(users + [u], session)
  {
    if SessionNamesUser(users, session) && session.Some? {
      var i :| 0 <= i < |users| && users[i].name == session.value;
      assert (users + [u])[i] == users[i];
    }
  }

  /** A freshly registered user can log in at once with the password they registered with. */
  lemma RegisteredUserCanLogIn(users: seq<User>, hash: (string, string) -> string, check: (string, string) -> bool,
                               name: string, email: string, password: string, salt: string)
    requires HashSound(hash, check)
    requires forall i :: 0 <= i < |users| ==> users[i].email != email
    ensures Authenticate(users + [User(|users| + 1, name, email, hash(salt, password))], check, email, password) == Some(name)
  {
    var u := User(|users| + 1, name, email, hash(salt, password));
    FirstByAppend(users, u, Email, email);
    assert check(hash(salt, password), password);
  }
}
