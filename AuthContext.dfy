/** The session provider: who is logged in, which backend is selected and
    whether the startup check has finished, persisted in `localStorage`. */
module AuthContext {
  import opened Js
  import opened Storage

  /** The user object the provider holds. `userType` is whatever the login
      form passed (`undefined` for the restored user). */
  datatype User = User(email: string, name: string, userType: Value)

  const DemoName: string := "Demo User"
  const DemoToken: string := "demo-token"

  /** The placeholder user installed on startup when a session is stored:
      the stored token is trusted without being checked. */
  const RestoredUser: User := User("user@example.com", DemoName, Undefined)

  /** What `login` resolves with: `{ data: { user, token } }`. */
  datatype LoginResult = LoginResult(user: User, token: string)

  /** The provider's state: `user`, `currentBackend` and `loading`. */
  datatype Session = Session(user: Option<User>, currentBackend: string, loading: bool)

  const InitialSession: Session := Session(None, AutoTask, true)

  /** `isAuthenticated: !!user`. */
  predicate IsAuthenticated(s: Session) {
    s.user.Some?
  }

  /** Both the token and the backend are stored and truthy (non-empty). */
  predicate HasStoredSession(items: map<string, string>) {
    Truthy(Lookup(items, AuthTokenKey)) && Truthy(Lookup(items, BackendKey))
  }

  /** The startup effect: restores the saved backend and the placeholder
      user when a session is stored, and ends the loading phase in every case. */
  function Restored(s: Session, items: map<string, string>): (t: Session)
    ensures !t.loading
    ensures HasStoredSession(items) ==> t.user == Some(RestoredUser) && t.currentBackend == items[BackendKey]
    ensures !HasStoredSession(items) ==> t.user == s.user && t.currentBackend == s.currentBackend
  {
    if HasStoredSession(items) then Session(Some(RestoredUser), items[BackendKey], false)
    else s.(loading := false)
  }

  /** The `backend` parameter of `login` defaults to `'AUTOTASK'`. */
  function LoginBackend(backend: Option<string>): (b: string)
    ensures backend.None? ==> b == AutoTask
    ensures backend.Some? ==> b == backend.value
  {
    backend.GetOr(AutoTask)
  }

  /** The store after `login`: the demo token and the chosen backend are
      written, every other key is left as it was. */
  function LoginItems(items: map<string, string>, backend: string): (r: map<string, string>)
    ensures Lookup(r, AuthTokenKey) == Some(DemoToken) && Lookup(r, BackendKey) == Some(backend)
    ensures forall k :: k != AuthTokenKey && k != BackendKey ==> Lookup(r, k) == Lookup(items, k)
  {
    items[AuthTokenKey := DemoToken][BackendKey := backend]
  }

  /** The session after `login`: authenticated as the given email and type
      on the chosen backend; the loading flag is not touched. */
  function LoggedIn(s: Session, email: string, userType: Value, backend: string): (t: Session)
    ensures IsAuthenticated(t)
    ensures t.user.value.email == email && t.user.value.name == DemoName && t.user.value.userType == userType
    ensures t.currentBackend == backend && t.loading == s.loading
  {
    Session(Some(User(email, DemoName, userType)), backend, s.loading)
  }

  /** The session after `logout`: anonymous on the default backend. */
  function LoggedOut(s: Session): (t: Session)
    ensures !IsAuthenticated(t) && t.currentBackend == AutoTask && t.loading == s.loading
  {
    Session(None, AutoTask, s.loading)
  }

  /** `logout` is idempotent: on the session and on the store. */
  lemma LogoutIdempotent(s: Session, items: map<string, string>)
    ensures LoggedOut(LoggedOut(s)) == LoggedOut(s)
    ensures WithoutSession(WithoutSession(items)) == WithoutSession(items)
  {
    WithoutSessionIdempotent(items);
  }

  /** Reloading after a `login` restores an authenticated session on the
      same backend, unless that backend was the empty string, which reads
      back as falsy and leaves the reloaded page anonymous. */
  lemma RestoreAfterLogin(items: map<string, string>, backend: string)
    ensures var t := Restored(InitialSession, LoginItems(items, backend));
      && (IsAuthenticated(t) <==> backend != "")
      && (backend != "" ==> t.currentBackend == backend)
      && !t.loading
  {
  }

  /** Reloading after a `logout` (or after the 401 handler cleared the
      store) gives an anonymous session on the default backend. */
  lemma RestoreAfterLogout(items: map<string, string>)
    ensures Restored(InitialSession, WithoutSession(items)) == Session(None, AutoTask, false)
  {
  }

  /** `AuthProvider`: the three state hooks plus the shared `localStorage`. */
  class AuthProvider {
    var user: Option<User>
    var currentBackend: string
    var loading: bool
    const storage: LocalStorage

    function Current(): Session
      reads this
    {
      Session(user, currentBackend, loading)
    }

    /** The initial state: no user, backend `'AUTOTASK'`, loading. */
    constructor (storage: LocalStorage)
      ensures Current() == InitialSession && this.storage == storage
    {
      user := None;
      currentBackend := AutoTask;
      loading := true;
      this.storage := storage;
    }

    /** The mount effect: read both keys and restore when both are truthy. */
    method Restore()
      modifies this
      ensures Current() == Restored(old(Current()), storage.items)
    {
      var token := storage.GetItem(AuthTokenKey);
      var savedBackend := storage.GetItem(BackendKey);
      if Truthy(token) && Truthy(savedBackend) {
        currentBackend := savedBackend.value;
        user := Some(RestoredUser);
      }
      loading := false;
    }

    /** `login(email, password, userType, backend = 'AUTOTASK')`, with the
        one-second timer taken as a single atomic step. */
    method Login(email: string, password: string, userType: Value, backend: Option<string>) returns (r: LoginResult)
      modifies this, storage
      ensures storage.items == LoginItems(old(storage.items), LoginBackend(backend))
      ensures Current() == LoggedIn(old(Current()), email, userType, LoginBackend(backend))
      ensures user == Some(r.user) && r.token == DemoToken
    {
      var b := LoginBackend(backend);
      var userData := User(email, DemoName, userType);
      storage.SetItem(AuthTokenKey, DemoToken);
      storage.SetItem(BackendKey, b);
      user := Some(userData);
      currentBackend := b;
      r := LoginResult(userData, DemoToken);
    }

    method Logout()
      modifies this, storage
      ensures storage.items == WithoutSession(old(storage.items))
      ensures Current() == LoggedOut(old(Current()))
    {
      storage.RemoveItem(AuthTokenKey);
      storage.RemoveItem(BackendKey);
      user := None;
      currentBackend := AutoTask;
    }
  }
}
