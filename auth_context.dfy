/** The session store: who is signed in (`user`), whether an operation is in
    flight (`loading`), and the persisted copy of the user under the storage
    key 'user'. Persisted storage is a map from keys to user records: the
    JSON encoding and decoding between them is taken as the identity. Every
    asynchronous operation is modelled as the part before its `await` (a
    `Begin...` method) and the part after it (a `Finish...` method); the timer
    it waits for is not modelled. */
module AuthContext {
  import opened Wrappers

  /** The avatar URL of a user record: either a literal URL, or the avatar
      service URL built from `encodeURIComponent(name)`, kept symbolic. */
  datatype Avatar = Fixed(url: string) | UiAvatarFor(name: string)

  datatype User = User(id: string, email: string, name: string, avatar: Avatar)

  /** Durable key/value storage, of which the session uses one key. */
  type Storage = map<string, User>

  const UserKey: string := "user"

  /** What `login`, `register` and `resetPassword` resolve to: `{ success: true }`
      or `{ success: false, error }`. */
  datatype AuthResult = AuthResult(success: bool, error: Option<string>)

  const Succeeded: AuthResult := AuthResult(true, None)

  /** What a page gets from awaiting an operation: the result, or a thrown error. */
  datatype Reply = Returned(result: AuthResult) | Threw

  const OutsideProviderMessage: string := "useAuth must be used within an AuthProvider"

  /** `useAuth()`: the context value of the nearest provider, or an error when
      there is none. */
  function UseAuth<C>(context: Option<C>): (r: Result<C, string>)
    ensures r.Success? <==> context.Some?
    ensures context.Some? ==> r.value == context.value
    ensures context.None? ==> r.error == OutsideProviderMessage
  {
    match context
    case None => Failure(OutsideProviderMessage)
    case Some(c) => Success(c)
  }

  /** The user decoded from storage, if the 'user' key is present. */
  function SavedUser(storage: Storage): (u: Option<User>)
    ensures u.Some? <==> UserKey in storage
    ensures u.Some? ==> u.value == storage[UserKey]
  {
    if UserKey in storage then Some(storage[UserKey]) else None
  }

  /** The record `login` creates: only the e-mail comes from the caller. */
  function LoginUser(email: string): (u: User)
    ensures u.email == email && u.id == "1" && u.name == "Test User"
    ensures u.avatar == Fixed("https://ui-avatars.com/api/?name=Test+User")
  {
    User("1", email, "Test User", Fixed("https://ui-avatars.com/api/?name=Test+User"))
  }

  /** The record `register` creates: e-mail and name come from the caller. */
  function RegisteredUser(email: string, name: string): (u: User)
    ensures u.email == email && u.name == name && u.id == "1"
    ensures u.avatar == UiAvatarFor(name)
  {
    User("1", email, name, UiAvatarFor(name))
  }

  /** Writing a user under the key and reading the key back yields that user. */
  lemma PersistThenHydrate(storage: Storage, u: User)
    ensures SavedUser(storage[UserKey := u]) == Some(u)
  {
  }

  /** After the key is removed, nothing is read back. */
  lemma RemoveThenHydrate(storage: Storage)
    ensures SavedUser(storage - {UserKey}) == None
  {
  }

  class AuthProvider {
    var user: Option<User>
    var loading: bool
    var storage: Storage

    /** Mounting the provider: `user` starts as whatever storage holds under
        'user', and `loading` starts true. */
    constructor (storage: Storage)
      ensures this.storage == storage
      ensures user == SavedUser(storage)
      ensures loading
    {
      this.storage := storage;
      user := SavedUser(storage);
      loading := true;
    }

    /** The mount effect `checkAuth`: re-reads the key; a failing read is
        swallowed. Either way `loading` ends false. */
    method CheckAuth(readFails: bool)
      modifies this`user, this`loading
      ensures !loading
      ensures !readFails && UserKey in storage ==> user == Some(storage[UserKey])
      ensures readFails || UserKey !in storage ==> user == old(user)
    {
      if !readFails {
        var saved := SavedUser(storage);
        if saved.Some? {
          user := saved;
        }
      }
      loading := false;
    }

    /** The synchronous start of `login`, `register` and `resetPassword`. */
    method BeginRequest()
      modifies this`loading
      ensures loading
    {
      loading := true;
    }

    /** The rest of `login` after its wait. `fails` says whether the `try`
        block throws: the wait rejects, or `localStorage.setItem` throws
        (storage full or unavailable). Either way nothing is written. */
    method FinishLogin(email: string, fails: bool) returns (r: AuthResult)
      modifies this
      ensures !loading
      ensures !fails ==> r == Succeeded && user == Some(LoginUser(email))
      ensures !fails ==> storage == old(storage)[UserKey := LoginUser(email)]
      ensures fails ==> r == AuthResult(false, Some("Invalid credentials"))
      ensures fails ==> user == old(user) && storage == old(storage)
    {
      var mockUser := LoginUser(email);
      if fails {
        r := AuthResult(false, Some("Invalid credentials"));
      } else {
        storage := storage[UserKey := mockUser];
        user := Some(mockUser);
        r := Succeeded;
      }
      loading := false;
    }

    /** `login(email, password)`: the password is never looked at. */
    method Login(email: string, password: string, fails: bool) returns (r: AuthResult)
      modifies this
      ensures !loading
      ensures !fails ==> r == Succeeded && user == Some(LoginUser(email))
      ensures !fails ==> storage == old(storage)[UserKey := LoginUser(email)]
      ensures fails ==> r == AuthResult(false, Some("Invalid credentials"))
      ensures fails ==> user == old(user) && storage == old(storage)
    {
      BeginRequest();
      r := FinishLogin(email, fails);
    }

    /** The rest of `register` after its wait. */
    method FinishRegister(email: string, name: string, fails: bool) returns (r: AuthResult)
      modifies this
      ensures !loading
      ensures !fails ==> r == Succeeded && user == Some(RegisteredUser(email, name))
      ensures !fails ==> storage == old(storage)[UserKey := RegisteredUser(email, name)]
      ensures fails ==> r == AuthResult(false, Some("Registration failed"))
      ensures fails ==> user == old(user) && storage == old(storage)
    {
      var mockUser := RegisteredUser(email, name);
      if fails {
        r := AuthResult(false, Some("Registration failed"));
      } else {
        storage := storage[UserKey := mockUser];
        user := Some(mockUser);
        r := Succeeded;
      }
      loading := false;
    }

    /** `register(email, password, name)`: the password is never looked at. */
    method Register(email: string, password: string, name: string, fails: bool) returns (r: AuthResult)
      modifies this
      ensures !loading
      ensures !fails ==> r == Succeeded && user == Some(RegisteredUser(email, name))
      ensures !fails ==> storage == old(storage)[UserKey := RegisteredUser(email, name)]
      ensures fails ==> r == AuthResult(false, Some("Registration failed"))
      ensures fails ==> user == old(user) && storage == old(storage)
    {
      BeginRequest();
      r := FinishRegister(email, name, fails);
    }

    /** `logout()`: synchronous, cannot fail. */
    method Logout()
      modifies this`user, this`storage
      ensures user == None
      ensures storage == old(storage) - {UserKey}
    {
      storage := storage - {UserKey};
      user := None;
    }

    /** `resetPassword(email)`: waits and reports; it touches neither the
        user nor storage. `fails` says whether the wait rejects, which the
        timer it waits for never does. */
    method ResetPassword(email: string, fails: bool) returns (r: AuthResult)
      modifies this`loading
      ensures !loading
      ensures !fails ==> r == Succeeded
      ensures fails ==> r == AuthResult(false, Some("Password reset failed"))
    {
      BeginRequest();
      if fails {
        r := AuthResult(false, Some("Password reset failed"));
      } else {
        r := Succeeded;
      }
      loading := false;
    }
  }

  /** A successful login followed by a logout leaves nobody signed in and
      nothing persisted under the key. */
  method LoginThenLogout(p: AuthProvider, email: string, password: string)
    modifies p
    ensures p.user == None && UserKey !in p.storage && !p.loading
  {
    var r := p.Login(email, password, false);
    assert r.success && p.user.value.email == email;
    p.Logout();
  }

  /** Whoever logs in is found again by the next provider mounted over the
      same storage: on its first render (`initial`) and after its mount
      effect has re-read the key. */
  method LoginThenRemount(p: AuthProvider, email: string, password: string)
      returns (q: AuthProvider, initial: Option<User>)
    modifies p
    ensures fresh(q)
    ensures initial == p.user == Some(LoginUser(email))
    ensures q.user == initial && !q.loading
  {
    var r := p.Login(email, password, false);
    PersistThenHydrate(old(p.storage), LoginUser(email));
    q := new AuthProvider(p.storage);
    initial := q.user;
    q.CheckAuth(false);
  }
}
