/**
 * The session store: at most one signed-in user, kept in memory and mirrored into the
 * browser's key-value storage under one fixed key, plus the three capability flags
 * derived from it.
 */
module AuthContext {
  import opened Common
  import opened Text

  /** `'admin' | 'member' | null`: the type admits a user without a role. */
  datatype UserRole = Admin | Member | NoRole

  datatype User = User(id: string, name: string, email: string, role: UserRole)

  /** The storage key the session is persisted under. */
  const StorageKey: string := "cable_flow_user"

  /** The three flags every gate and page reads. */
  datatype Capabilities = Capabilities(isAuthenticated: bool, isAdmin: bool, isMember: bool)

  /**
   * The user `login` signs in: the role is guessed from the email, the id and name follow
   * from the role, and the password is ignored.
   */
  function MockUser(email: string, password: string): (u: User)
    ensures u.email == email
    ensures u.role == Admin <==> Contains(email, "admin")
    ensures u.role != NoRole
    ensures u.role == Admin ==> u.id == "1" && u.name == "Admin User"
    ensures u.role == Member ==> u.id == "2" && u.name == "Member User"
  {
    if Contains(email, "admin") then User("1", "Admin User", email, Admin)
    else User("2", "Member User", email, Member)
  }

  /** The password plays no part in who is signed in. */
  lemma MockUserIgnoresPassword(email: string, p1: string, p2: string)
    ensures MockUser(email, p1) == MockUser(email, p2)
  {
  }

  /** What hydration reads back from the storage: the stored record, if there is one. */
  function Stored(storage: map<string, User>): (u: Option<User>)
    ensures u.Some? <==> StorageKey in storage
    ensures u.Some? ==> u.value == storage[StorageKey]
  {
    if StorageKey in storage then Some(storage[StorageKey]) else None
  }

  /** Writing a user under the key and reading it back returns that user. */
  lemma PersistRoundTrip(storage: map<string, User>, u: User)
    ensures Stored(storage[StorageKey := u]) == Some(u)
  {
  }

  /** `isAuthenticated`, `isAdmin` and `isMember` as the provider computes them from `user`. */
  function CapabilitiesOf(user: Option<User>): (c: Capabilities)
    ensures c.isAuthenticated <==> user.Some?
    ensures c.isAdmin <==> user.Some? && user.value.role == Admin
    ensures c.isMember <==> user.Some? && user.value.role == Member
    ensures !(c.isAdmin && c.isMember)
    ensures (c.isAdmin || c.isMember) ==> c.isAuthenticated
  {
    match user
    case None => Capabilities(false, false, false)
    case Some(u) => Capabilities(true, u.role == Admin, u.role == Member)
  }

  /** A user whose role is null is signed in but holds neither role. */
  lemma NoRoleIsOnlyAuthenticated(u: User)
    requires u.role == NoRole
    ensures CapabilitiesOf(Some(u)) == Capabilities(true, false, false)
  {
  }

  /**
   * `AuthProvider`'s state. `inFlight` holds the users of `login` calls still waiting out
   * the simulated network delay, oldest first; each delay ends with `ResolveLogin`.
   */
  class AuthProvider {
    var user: Option<User>
    var storage: map<string, User>
    var inFlight: seq<User>

    /** The provider mounts with no user; the storage survives from earlier visits. */
    constructor (storage: map<string, User>)
      ensures user == None && this.storage == storage && inFlight == []
    {
      user := None;
      this.storage := storage;
      inFlight := [];
    }

    /** The in-memory user agrees with what a reload would restore. */
    ghost predicate InSync()
      reads this
    {
      user == Stored(storage)
    }

    /** The mount effect: restore the stored user when there is one. */
    method Hydrate()
      requires user == None
      modifies this`user
      ensures user == Stored(storage)
      ensures InSync()
    {
      if StorageKey in storage {
        user := Some(storage[StorageKey]);
      }
    }

    /** `login`: builds the user at once; nothing changes until the delay has passed. */
    method Login(email: string, password: string)
      modifies this`inFlight
      ensures inFlight == old(inFlight) + [MockUser(email, password)]
    {
      inFlight := inFlight + [MockUser(email, password)];
    }

    /** The end of the oldest pending login's delay: set the user and persist it. */
    method ResolveLogin()
      requires inFlight != []
      modifies this
      ensures user == Some(old(inFlight)[0])
      ensures storage == old(storage)[StorageKey := old(inFlight)[0]]
      ensures inFlight == old(inFlight)[1..]
      ensures InSync()
    {
      var u := inFlight[0];
      user := Some(u);
      storage := storage[StorageKey := u];
      inFlight := inFlight[1..];
    }

    /** `logout`: forget the user and remove the stored record; pending logins still land. */
    method Logout()
      modifies this`user, this`storage
      ensures user == None
      ensures storage == old(storage) - {StorageKey}
      ensures StorageKey !in storage && InSync()
      ensures CapabilitiesOf(user) == Capabilities(false, false, false)
    {
      user := None;
      storage := storage - {StorageKey};
    }
  }

  /**
   * A visit that signs in and then reloads the page: the fresh provider hydrates the same
   * user the first one held.
   */
  method SignInThenReload(email: string, password: string, storage: map<string, User>)
    returns (before: Option<User>, after: Option<User>)
    ensures before == Some(MockUser(email, password))
    ensures after == before
  {
    var first := new AuthProvider(storage);
    first.Hydrate();
    first.Login(email, password);
    first.ResolveLogin();
    before := first.user;
    var second := new AuthProvider(first.storage);
    second.Hydrate();
    after := second.user;
  }

  /**
   * Signing out twice: both times the user is gone and nothing is stored, and the second
   * call changes nothing.
   */
  method SignOutTwice(storage: map<string, User>)
    returns (once: (Option<User>, map<string, User>), twice: (Option<User>, map<string, User>))
    ensures once == twice
    ensures once == (None, storage - {StorageKey})
  {
    var p := new AuthProvider(storage);
    p.Hydrate();
    p.Logout();
    once := (p.user, p.storage);
    p.Logout();
    assert p.storage == storage - {StorageKey} - {StorageKey};
    assert storage - {StorageKey} - {StorageKey} == storage - {StorageKey};
    twice := (p.user, p.storage);
  }

  /** With nothing stored, hydration leaves the visitor signed out. */
  method HydrateEmpty(storage: map<string, User>) returns (c: Capabilities)
    requires StorageKey !in storage
    ensures c == Capabilities(false, false, false)
  {
    var p := new AuthProvider(storage);
    p.Hydrate();
    c := CapabilitiesOf(p.user);
  }
}
