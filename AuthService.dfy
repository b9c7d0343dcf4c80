/** The session user slot of the document (src/services/authService.ts).
    Login is a placeholder: it compares e-mails and never looks at the
    password. */
module AuthService {
  import opened Types
  import opened Storage

  /** What `login` answers for a stored user slot: the stored user when its
      e-mail matches, nothing otherwise. No password enters. */
  function Authenticate(stored: Option<User>, email: Text): (r: Option<User>)
    ensures r.Some? <==> stored.Some? && stored.value.email == email
    ensures r.Some? ==> r == stored
  {
    if stored.Some? && stored.value.email == email then stored else None
  }

  method Login(store: Store, email: Text, password: Text) returns (user: Option<User>)
    ensures user == Authenticate(store.data.user, email)
  {
    var data := store.Load();
    user := Authenticate(data.user, email);
  }

  /** Replaces the user slot and keeps tasks and sessions. */
  method Register(store: Store, id: Text, email: Text, name: Text, password: Text) returns (user: User)
    modifies store
    ensures user == User(id, email, name)
    ensures store.data == old(store.data).(user := Some(user))
    ensures store.saves == old(store.saves) + 1
    ensures Authenticate(store.data.user, email) == Some(user)
  {
    user := User(id, email, name);
    var data := store.Load();
    data := data.(user := Some(user));
    store.Save(data);
  }

  /** Empties the user slot and keeps tasks and sessions. */
  method Logout(store: Store)
    modifies store
    ensures store.data == old(store.data).(user := None)
    ensures store.saves == old(store.saves) + 1
    ensures forall email :: Authenticate(store.data.user, email) == None
  {
    var data := store.Load();
    data := data.(user := None);
    store.Save(data);
  }

  method GetCurrentUser(store: Store) returns (user: Option<User>)
    ensures user == store.data.user
  {
    var data := store.Load();
    user := data.user;
  }

  /** Registering and then logging in with the same e-mail under any
      password yields the registered user; after a logout the same login
      yields nothing. */
  method RegisterLoginLogout(store: Store, id: Text, email: Text, name: Text, password: Text, other: Text)
    returns (user: User, first: Option<User>, second: Option<User>)
    modifies store
    ensures first == Some(user) && second == None
    ensures store.data == old(store.data).(user := None)
  {
    user := Register(store, id, email, name, password);
    first := Login(store, email, other);
    Logout(store);
    second := Login(store, email, other);
  }
}
