/**
 * The mock authentication store. `MOCK_USERS`, a module-level array the
 * source pushes new accounts onto, is the store's `mockUsers` field. The
 * simulated one-second delay is dropped: each request is its opening step
 * (`BeginRequest`) followed at once by the body of the timer callback.
 */
module Auth {
  import opened Common

  datatype MockUser = MockUser(id: string, username: string, password: string, name: string, citizenship: string)

  /** A signed-in user as the store holds it: a JavaScript object. */
  type User = map<string, JsValue>

  const InitialMockUsers: seq<MockUser> := [
    MockUser("1", "marcus", "password123", "Marcus Aurelius", "Roman"),
    MockUser("2", "livia", "password123", "Livia Drusilla", "Roman")
  ]

  const InvalidCredentials: string := "Invalid username or password"
  const UsernameExists: string := "Username already exists"

  /** The record without its password (`profileImage` is null for every mock user). */
  function PublicProfile(u: MockUser): (r: User)
    ensures "password" !in r
    ensures r.Keys == {"id", "username", "name", "citizenship", "profileImage"}
  {
    map[
      "id" := JsString(u.id),
      "username" := JsString(u.username),
      "name" := JsString(u.name),
      "citizenship" := JsString(u.citizenship),
      "profileImage" := JsNull]
  }

  const GuestUser: User := map[
    "id" := JsString("guest"),
    "username" := JsString("guest"),
    "name" := JsString("Roman Traveler"),
    "citizenship" := JsString("Roman"),
    "isGuest" := JsBool(true)]

  function HasCredentials(username: string, password: string): MockUser -> bool
  {
    (u: MockUser) => u.username == username && u.password == password
  }

  /** The `find` in `login`: the first user with that username and password. */
  function FindUser(users: seq<MockUser>, username: string, password: string): (r: Option<MockUser>)
    ensures r.None? <==> forall i :: 0 <= i < |users| ==> users[i].username != username || users[i].password != password
    ensures r.Some? ==> exists i :: (0 <= i < |users| && users[i] == r.value
      && r.value.username == username && r.value.password == password
      && forall j :: 0 <= j < i ==> users[j].username != username || users[j].password != password)
  {
    var r := Find(users, HasCredentials(username, password));
    assert r.Some? ==> var i := FindIndex(users, HasCredentials(username, password)).value;
      forall j :: 0 <= j < i ==> !HasCredentials(username, password)(users[j]);
    r
  }

  /** The `some` in `register`. */
  predicate UsernameTaken(users: seq<MockUser>, username: string)
  {
    exists i :: 0 <= i < |users| && users[i].username == username
  }

  /** The account `register` creates: the next id in sequence. */
  function NewUser(users: seq<MockUser>, username: string, password: string, name: string, citizenship: string): MockUser
  {
    MockUser(NatToString(|users| + 1), username, password, name, citizenship)
  }

  /** Every user's id is its one-based position, as `register` assigns them. */
  ghost predicate IdsAreSequential(users: seq<MockUser>)
  {
    forall i :: 0 <= i < |users| ==> users[i].id == NatToString(i + 1)
  }

  lemma InitialIdsAreSequential()
    ensures IdsAreSequential(InitialMockUsers)
  {
    assert NatToString(1) == "1" && NatToString(2) == "2";
  }

  /** Appending the account `register` creates keeps ids sequential. */
  lemma NewUserKeepsIdsSequential(users: seq<MockUser>, username: string, password: string, name: string, citizenship: string)
    requires IdsAreSequential(users)
    ensures IdsAreSequential(users + [NewUser(users, username, password, name, citizenship)])
  {
    var extended := users + [NewUser(users, username, password, name, citizenship)];
    forall i | 0 <= i < |extended| ensures extended[i].id == NatToString(i + 1) {
      if i < |users| {
        assert extended[i] == users[i];
      }
    }
  }

  /** Sequential ids are distinct ids. */
  lemma SequentialIdsAreDistinct(users: seq<MockUser>)
    requires IdsAreSequential(users)
    ensures forall i, j :: 0 <= i < j < |users| ==> users[i].id != users[j].id
  {
    forall i, j | 0 <= i < j < |users| ensures users[i].id != users[j].id {
      assert users[i].id == NatToString(i + 1) && users[j].id == NatToString(j + 1);
      NatToStringInjective(i + 1, j + 1);
    }
  }

  /** A registered user can log in with the credentials they registered with. */
  lemma RegisteredUserCanLogIn(users: seq<MockUser>, username: string, password: string, name: string, citizenship: string)
    requires !UsernameTaken(users, username)
    ensures FindUser(users + [NewUser(users, username, password, name, citizenship)], username, password)
         == Some(NewUser(users, username, password, name, citizenship))
  {
    FindAfterMisses(users, NewUser(users, username, password, name, citizenship), HasCredentials(username, password));
  }

  /** `{...user, ...updates}`: the updates win, every other key is kept. */
  function MergeProfile(user: Option<User>, updates: User): (r: User)
    ensures forall k :: k in updates ==> k in r && r[k] == updates[k]
    ensures user.Some? ==> forall k :: k in user.value && k !in updates ==> k in r && r[k] == user.value[k]
    ensures r.Keys == updates.Keys + (if user.Some? then user.value.Keys else {})
  {
    (if user.Some? then user.value else map[]) + updates
  }

  class AuthStore {
    var user: Option<User>
    var isAuthenticated: bool
    var isLoading: bool
    var error: Option<string>
    var mockUsers: seq<MockUser>

    constructor ()
      ensures user == None && !isAuthenticated && !isLoading && error == None
      ensures mockUsers == InitialMockUsers
    {
      user := None;
      isAuthenticated := false;
      isLoading := false;
      error := None;
      mockUsers := InitialMockUsers;
    }

    /** What `login` and `register` do before the timer fires. */
    method BeginRequest()
      modifies this`isLoading, this`error
      ensures isLoading && error == None
    {
      isLoading := true;
      error := None;
    }

    /** The timer callback of `login`. */
    method CompleteLogin(username: string, password: string)
      modifies this`user, this`isAuthenticated, this`isLoading, this`error
      ensures !isLoading
      ensures FindUser(mockUsers, username, password).Some? ==>
        && user == Some(PublicProfile(FindUser(mockUsers, username, password).value))
        && isAuthenticated && error == None
      ensures FindUser(mockUsers, username, password).None? ==>
        && error == Some(InvalidCredentials)
        && user == old(user) && isAuthenticated == old(isAuthenticated)
    {
      var found := FindUser(mockUsers, username, password);
      if found.Some? {
        user := Some(PublicProfile(found.value));
        isAuthenticated := true;
        isLoading := false;
        error := None;
      } else {
        isLoading := false;
        error := Some(InvalidCredentials);
      }
    }

    method Login(username: string, password: string)
      modifies this`user, this`isAuthenticated, this`isLoading, this`error
      ensures !isLoading
      ensures FindUser(mockUsers, username, password).Some? ==>
        && user == Some(PublicProfile(FindUser(mockUsers, username, password).value))
        && isAuthenticated && error == None
      ensures FindUser(mockUsers, username, password).None? ==>
        && error == Some(InvalidCredentials)
        && user == old(user) && isAuthenticated == old(isAuthenticated)
    {
      BeginRequest();
      CompleteLogin(username, password);
    }

    /** The timer callback of `register`. */
    method CompleteRegister(username: string, password: string, name: string, citizenship: string)
      modifies this`user, this`isAuthenticated, this`isLoading, this`error, this`mockUsers
      ensures !isLoading
      ensures UsernameTaken(old(mockUsers), username) ==>
        && error == Some(UsernameExists)
        && mockUsers == old(mockUsers)
        && user == old(user) && isAuthenticated == old(isAuthenticated)
      ensures !UsernameTaken(old(mockUsers), username) ==>
        && mockUsers == old(mockUsers) + [NewUser(old(mockUsers), username, password, name, citizenship)]
        && user == Some(PublicProfile(NewUser(old(mockUsers), username, password, name, citizenship)))
        && isAuthenticated && error == None
      ensures IdsAreSequential(old(mockUsers)) ==> IdsAreSequential(mockUsers)
    {
      var userExists := exists i :: 0 <= i < |mockUsers| && mockUsers[i].username == username;
      if userExists {
        isLoading := false;
        error := Some(UsernameExists);
        return;
      }
      var newUser := NewUser(mockUsers, username, password, name, citizenship);
      if IdsAreSequential(mockUsers) {
        NewUserKeepsIdsSequential(mockUsers, username, password, name, citizenship);
      }
      mockUsers := mockUsers + [newUser];
      user := Some(PublicProfile(newUser));
      isAuthenticated := true;
      isLoading := false;
      error := None;
    }

    method Register(username: string, password: string, name: string, citizenship: string)
      modifies this`user, this`isAuthenticated, this`isLoading, this`error, this`mockUsers
      ensures !isLoading
      ensures UsernameTaken(old(mockUsers), username) ==>
        && error == Some(UsernameExists)
        && mockUsers == old(mockUsers)
        && user == old(user) && isAuthenticated == old(isAuthenticated)
      ensures !UsernameTaken(old(mockUsers), username) ==>
        && mockUsers == old(mockUsers) + [NewUser(old(mockUsers), username, password, name, citizenship)]
        && user == Some(PublicProfile(NewUser(old(mockUsers), username, password, name, citizenship)))
        && isAuthenticated && error == None
      ensures IdsAreSequential(old(mockUsers)) ==> IdsAreSequential(mockUsers)
    {
      BeginRequest();
      CompleteRegister(username, password, name, citizenship);
    }

    method LoginAsGuest()
      modifies this`user, this`isAuthenticated, this`isLoading, this`error
      ensures user == Some(GuestUser) && GuestUser["isGuest"] == JsBool(true)
      ensures isAuthenticated && !isLoading && error == None
    {
      user := Some(GuestUser);
      isAuthenticated := true;
      isLoading := false;
      error := None;
    }

    method Logout()
      modifies this`user, this`isAuthenticated, this`error
      ensures user == None && !isAuthenticated && error == None
    {
      user := None;
      isAuthenticated := false;
      error := None;
    }

    method UpdateProfile(updates: User)
      modifies this`user
      ensures user == Some(MergeProfile(old(user), updates))
    {
      user := Some(MergeProfile(user, updates));
    }

    method ClearError()
      modifies this`error
      ensures error == None
    {
      error := None;
    }
  }

  /** Registering a fresh username and then logging in with it succeeds. */
  method RegisterThenLogin(store: AuthStore, username: string, password: string, name: string)
    requires !UsernameTaken(store.mockUsers, username)
    modifies store
    ensures store.isAuthenticated && store.error == None
    ensures store.user == Some(PublicProfile(NewUser(old(store.mockUsers), username, password, name, "Roman")))
  {
    ghost var before := store.mockUsers;
    store.Register(username, password, name, "Roman");
    RegisteredUserCanLogIn(before, username, password, name, "Roman");
    store.Login(username, password);
  }
}
