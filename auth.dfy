/** The login store (src/hooks/use-auth.ts): a cached user directory, the
    signed-in user and two flags. The credential check is a pure function of
    the directory; fetching, logging in and out update the store's fields.
    Only the signed-in user and the authenticated flag are persisted. */
module Auth {
  import opened Types
  import opened Text
  import Routes

  predicate EmailMatches(u: User, email: string) {
    Lower(u.email) == Lower(email)
  }

  /** `users.find(...)`: the position of the first user whose email equals the
      given one up to case. */
  function FirstMatch(users: seq<User>, email: string): (r: Option<nat>)
    ensures r.Some? ==> r.value < |users| && EmailMatches(users[r.value], email)
    ensures r.Some? ==> forall j :: 0 <= j < r.value ==> !EmailMatches(users[j], email)
    ensures r.None? ==> forall j :: 0 <= j < |users| ==> !EmailMatches(users[j], email)
  {
    if users == [] then None
    else if EmailMatches(users[0], email) then Some(0)
    else
      match FirstMatch(users[1..], email)
      case None => None
      case Some(i) => Some(i + 1)
  }

  datatype Credentials = Credentials(email: string, password: Option<string>)

  /** The user record kept in the session: the same record without password. */
  function Strip(u: User): User {
    u.(password := None)
  }

  /** The check `login` makes: the first user with a matching email, and a
      password equal to the supplied one (two absent passwords are equal). */
  function Authenticate(users: seq<User>, c: Credentials): (r: Option<User>)
    ensures r.Some? ==> r.value.password.None?
    ensures (forall j :: 0 <= j < |users| ==> !EmailMatches(users[j], c.email)) ==> r.None?
    ensures r.Some? <==> FirstMatch(users, c.email).Some? && users[FirstMatch(users, c.email).value].password == c.password
    ensures r.Some? ==> r.value == users[FirstMatch(users, c.email).value].(password := None)
  {
    match FirstMatch(users, c.email)
    case None => None
    case Some(i) => if users[i].password == c.password then Some(Strip(users[i])) else None
  }

  /** The first matching user alone decides the login: it succeeds exactly
      when that user's password is the supplied one, and yields that user's
      other fields unchanged. */
  lemma FirstMatchDecides(users: seq<User>, c: Credentials, i: nat)
    requires i < |users| && EmailMatches(users[i], c.email)
    requires forall j :: 0 <= j < i ==> !EmailMatches(users[j], c.email)
    ensures Authenticate(users, c).Some? <==> users[i].password == c.password
    ensures Authenticate(users, c).Some? ==>
      var u := Authenticate(users, c).value;
      u.email == users[i].email && u.name == users[i].name && u.role == users[i].role && u.location == users[i].location
  {
    assert FirstMatch(users, c.email) == Some(i);
  }

  /** Nobody can sign in with an email no user has, whatever the password. */
  lemma UnknownEmailRefused(users: seq<User>, c: Credentials)
    requires forall j :: 0 <= j < |users| ==> !EmailMatches(users[j], c.email)
    ensures Authenticate(users, c).None?
  {
  }

  /** A later user with the same email is never consulted: replacing any user
      after the first match leaves the outcome unchanged. */
  lemma LaterUsersIgnored(users: seq<User>, c: Credentials, i: nat, j: nat, other: User)
    requires FirstMatch(users, c.email) == Some(i)
    requires i < j < |users|
    ensures Authenticate(users[j := other], c) == Authenticate(users, c)
  {
    var changed := users[j := other];
    assert forall k :: 0 <= k <= i ==> changed[k] == users[k];
    FirstMatchDecides(changed, c, i);
    FirstMatchDecides(users, c, i);
  }

  /** Only the case of the typed email is ignored: lower-casing it first does
      not change the outcome. */
  lemma EmailCaseIgnored(users: seq<User>, c: Credentials)
    ensures Authenticate(users, c.(email := Lower(c.email))) == Authenticate(users, c)
  {
    LowerIdempotent(c.email);
    assert forall u :: EmailMatches(u, Lower(c.email)) <==> EmailMatches(u, c.email);
    var d := c.(email := Lower(c.email));
    match FirstMatch(users, c.email) {
      case None =>
        assert forall j :: 0 <= j < |users| ==> !EmailMatches(users[j], d.email);
        assert FirstMatch(users, d.email).None?;
      case Some(i) =>
        FirstMatchDecides(users, d, i);
    }
  }

  /** What `partialize` writes to local storage. */
  datatype PersistedAuth = PersistedAuth(currentUser: Option<User>, isAuthenticated: bool)

  class AuthStore {
    var users: seq<User>
    var currentUser: Option<User>
    var isAuthenticated: bool
    var loading: bool
    ghost var requests: seq<Routes.Request>

    /** A session is signed in exactly when a user is kept, and the kept user
        carries no password. */
    ghost predicate Valid()
      reads this
    {
      isAuthenticated == currentUser.Some? && (currentUser.Some? ==> currentUser.value.password.None?)
    }

    /** The persisted projection: the two session fields, nothing else. */
    function Persisted(): PersistedAuth
      reads this
    {
      PersistedAuth(currentUser, isAuthenticated)
    }

    constructor ()
      ensures Valid() && Persisted() == PersistedAuth(None, false)
      ensures users == [] && !loading && requests == []
    {
      users, currentUser, isAuthenticated, loading := [], None, false, false;
      requests := [];
    }

    /** Start-up with a stored session: the directory is not stored, so it
        starts empty. */
    constructor Rehydrate(saved: PersistedAuth)
      ensures Persisted() == saved
      ensures users == [] && !loading && requests == []
    {
      users, loading := [], false;
      currentUser, isAuthenticated := saved.currentUser, saved.isAuthenticated;
      requests := [];
    }

    method BeginFetchUsers()
      modifies this
      ensures loading && requests == old(requests) + [Routes.UsersGet]
      ensures users == old(users) && Persisted() == old(Persisted())
    {
      loading := true;
      requests := requests + [Routes.UsersGet];
    }

    method CompleteFetchUsers(reply: Outcome<seq<User>>)
      modifies this
      ensures users == (if reply.Ok? then reply.data else old(users))
      ensures !loading && requests == old(requests)
      ensures Persisted() == old(Persisted())
    {
      if reply.Ok? {
        users := reply.data;
      }
      loading := false;
    }

    /** Replaces the directory only on success; never touches the session. */
    method FetchUsers(reply: Outcome<seq<User>>)
      modifies this
      ensures users == (if reply.Ok? then reply.data else old(users))
      ensures !loading && requests == old(requests) + [Routes.UsersGet]
      ensures Persisted() == old(Persisted())
    {
      BeginFetchUsers();
      CompleteFetchUsers(reply);
    }

    /** Fetches the directory first when the cache is empty (`fetched` is the
        reply to that fetch and is not consulted otherwise), then checks the
        credentials against it. */
    method Login(c: Credentials, fetched: Outcome<seq<User>>) returns (ok: bool)
      modifies this
      ensures var pool := if old(users) == [] && fetched.Ok? then fetched.data else old(users);
        && users == pool
        && (ok <==> Authenticate(pool, c).Some?)
        && (ok ==> currentUser == Authenticate(pool, c) && isAuthenticated)
      ensures !ok ==> Persisted() == old(Persisted())
      ensures ok ==> Valid()
      ensures old(Valid()) ==> Valid()
      ensures requests == old(requests) + (if old(users) == [] then [Routes.UsersGet] else [])
      ensures loading == (old(users) != [] && old(loading))
    {
      if users == [] {
        FetchUsers(fetched);
      }
      var found := Authenticate(users, c);
      if found.Some? {
        currentUser, isAuthenticated := found, true;
        ok := true;
      } else {
        ok := false;
      }
    }

    /** Ends the session whatever its state, so a second call changes nothing. */
    method Logout()
      modifies this
      ensures Persisted() == PersistedAuth(None, false) && Valid()
      ensures users == old(users) && loading == old(loading) && requests == old(requests)
    {
      currentUser, isAuthenticated := None, false;
    }
  }
}
