/**
 * The session/auth context (src/context/AuthContext.tsx): the triple
 * user/profile/loading, the profile fetch with its bounded retry loop, and
 * the operations the pages call.
 *
 * Backend answers are parameters: `lookup(userId, i)` is the row the
 * `profiles` query returns on the i-th attempt for that user (None when it
 * finds nothing), and each sign-in/sign-up call receives the backend's
 * reply. Every callback runs as one atomic step; a profile fetch started by a
 * callback completes within that step.
 */
module Auth {
  import opened Wrappers
  import opened Text
  import opened Schema

  /** The default `retries` argument of fetchProfile. */
  const DEFAULT_RETRIES: nat := 3

  /** The user the hosted auth service reports in a session; its email may be absent. */
  datatype SessionUser = SessionUser(id: string, email: Option<string>)

  /** What `signInWithPassword` replies: an error, or data with a user or without one. */
  datatype SignInReply = SignInFailed(message: string) | SignedIn(user: Option<SessionUser>)

  /** The identity kept in context for a session user: `{ id, email ?? '' }`. */
  function UserOf(u: SessionUser): AuthUser {
    AuthUser(u.id, u.email.GetOr(""))
  }

  /** MOCK_PROFILE; its timestamps are the one instant the module was loaded. */
  function MockProfile(loadedAt: string): Profile {
    Profile(
      "mock-profile", "mock-user", Musician, "Demo User",
      None, None, Some("New York, NY"), None, None,
      Some("Edit your profile to add a bio."), None,
      Some(["Rock"]), Some(["Guitar"]), Some(["Drummer"]), None,
      Some(25.0), Some(["Guitarist"]), None,
      Some(loadedAt), loadedAt, loadedAt)
  }

  /**
   * The profile mock-mode sign-up installs: MOCK_PROFILE with the chosen role,
   * named after `email.split('@')[0]`, the text before the first `@` (the
   * whole email when it has none).
   */
  function MockSignUpProfile(loadedAt: string, email: string, role: UserRole): (p: Profile)
    ensures p == MockProfile(loadedAt).(display_name := p.display_name, role := role)
    ensures '@' !in p.display_name
    ensures '@' in email ==> p.display_name + "@" <= email
    ensures '@' !in email ==> p.display_name == email
  {
    LocalPart(email);
    MockProfile(loadedAt).(display_name := Split(email, '@')[0], role := role)
  }

  /** `email.split('@')[0]` is what precedes the first `@`, or all of a text without one. */
  lemma LocalPart(email: string)
    ensures '@' in email ==> Split(email, '@')[0] + "@" <= email
    ensures '@' !in email ==> Split(email, '@')[0] == email
  {
    if '@' in email {
      var k := IndexOf(email, '@');
      assert Split(email, '@')[0] + "@" == email[..k + 1];
    }
  }

  /**
   * The first attempt in [from, n) at which the backend finds the row, or
   * None when every attempt in that range finds nothing.
   */
  function FirstHit(lookup: (string, nat) -> Option<Profile>, userId: string, from: nat, n: nat): (r: Option<nat>)
    ensures r.Some? ==> from <= r.value < n && lookup(userId, r.value).Some?
    ensures r.Some? ==> forall j :: from <= j < r.value ==> lookup(userId, j).None?
    ensures r.None? ==> forall j :: from <= j < n ==> lookup(userId, j).None?
    decreases n - from
  {
    if from >= n then None
    else if lookup(userId, from).Some? then Some(from)
    else FirstHit(lookup, userId, from + 1, n)
  }

  /**
   * What fetchProfile resolves to: MOCK_PROFILE without a backend, otherwise
   * the row of the first of `retries` attempts that finds one, or None.
   */
  function FetchResult(backend: bool, loadedAt: string, lookup: (string, nat) -> Option<Profile>,
                       userId: string, retries: nat): Option<Profile>
  {
    if !backend then Some(MockProfile(loadedAt))
    else
      match FirstHit(lookup, userId, 0, retries)
      case Some(i) => lookup(userId, i)
      case None => None
  }

  /** The row fetchProfile returns is the one the earliest successful attempt found. */
  lemma {:induction false} FetchReturnsFirstRow(lookup: (string, nat) -> Option<Profile>, userId: string,
                                               retries: nat, loadedAt: string, i: nat)
    requires i < retries && lookup(userId, i).Some?
    requires forall j :: 0 <= j < i ==> lookup(userId, j).None?
    ensures FetchResult(true, loadedAt, lookup, userId, retries) == lookup(userId, i)
  {
    var hit := FirstHit(lookup, userId, 0, retries);
    assert hit == Some(i);
  }

  /** fetchProfile gives up with null exactly when no attempt finds a row. */
  lemma {:induction false} FetchNullIffNoRow(lookup: (string, nat) -> Option<Profile>, userId: string,
                                            retries: nat, loadedAt: string)
    ensures FetchResult(true, loadedAt, lookup, userId, retries).None?
        <==> forall j :: 0 <= j < retries ==> lookup(userId, j).None?
  {
    match FirstHit(lookup, userId, 0, retries)
    case Some(i) =>
      assert lookup(userId, i).Some?;
    case None =>
  }

  /** A row found within some number of attempts is also what more attempts find. */
  lemma {:induction false} MoreRetriesFindTheSameRow(lookup: (string, nat) -> Option<Profile>, userId: string,
                                                    r1: nat, r2: nat, loadedAt: string)
    requires r1 <= r2
    requires FetchResult(true, loadedAt, lookup, userId, r1).Some?
    ensures FetchResult(true, loadedAt, lookup, userId, r2) == FetchResult(true, loadedAt, lookup, userId, r1)
  {
    var i := FirstHit(lookup, userId, 0, r1).value;
    FetchReturnsFirstRow(lookup, userId, r2, loadedAt, i);
  }

  class AuthProvider {
    /** Whether a backend is configured (`supabase` is non-null); mock mode otherwise. */
    const backend: bool
    /** When the module was loaded, the instant MOCK_PROFILE's timestamps record. */
    const loadedAt: string

    var user: Option<AuthUser>
    var profile: Option<Profile>
    var loading: bool

    /** The initial state: no user, no profile, loading. */
    constructor(backend: bool, loadedAt: string)
      ensures this.backend == backend && this.loadedAt == loadedAt
      ensures user == None && profile == None && loading
    {
      this.backend := backend;
      this.loadedAt := loadedAt;
      user, profile, loading := None, None, true;
    }

    /**
     * fetchProfile: without a backend MOCK_PROFILE at once; otherwise up to
     * `retries` lookups, returning the first row found, sleeping between
     * attempts but never after the last one.
     */
    method FetchProfile(userId: string, retries: nat, lookup: (string, nat) -> Option<Profile>)
      returns (p: Option<Profile>, lookups: nat, sleeps: nat)
      ensures p == FetchResult(backend, loadedAt, lookup, userId, retries)
      ensures !backend ==> lookups == 0
      ensures backend ==> lookups == match FirstHit(lookup, userId, 0, retries)
                                     case Some(i) => i + 1
                                     case None => retries
      ensures lookups <= retries
      ensures sleeps == if lookups == 0 then 0 else lookups - 1
    {
      if !backend {
        return Some(MockProfile(loadedAt)), 0, 0;
      }
      lookups, sleeps := 0, 0;
      var i := 0;
      while i < retries
        invariant i <= retries && lookups == i
        invariant sleeps == if i == retries && i > 0 then i - 1 else i
        invariant forall j :: 0 <= j < i ==> lookup(userId, j).None?
      {
        var data := lookup(userId, i);
        lookups := lookups + 1;
        if data.Some? {
          assert FirstHit(lookup, userId, 0, retries) == Some(i);
          return data, lookups, sleeps;
        }
        if i < retries - 1 {
          sleeps := sleeps + 1;
        }
        i := i + 1;
      }
      p := None;
    }

    /** The effect run once on mount: in mock mode it signs the demo user in. */
    method Mount()
      modifies this
      ensures !backend ==> (user == Some(AuthUser("mock-user", "demo@bandscope.app"))
                            && profile == Some(MockProfile(loadedAt)) && !loading)
      ensures backend ==> user == old(user) && profile == old(profile) && loading == old(loading)
    {
      if !backend {
        user := Some(AuthUser("mock-user", "demo@bandscope.app"));
        profile := Some(MockProfile(loadedAt));
        loading := false;
      }
    }

    /**
     * The session callback, shared by the bootstrap `getSession` and the
     * `onAuthStateChange` subscription (both exist only with a backend).
     */
    method SessionChanged(session: Option<SessionUser>, lookup: (string, nat) -> Option<Profile>)
      requires backend
      modifies this
      ensures !loading
      ensures session.Some? ==> (user == Some(UserOf(session.value))
                                 && profile == FetchResult(backend, loadedAt, lookup, session.value.id, DEFAULT_RETRIES))
      ensures session.None? ==> user == None && profile == None
    {
      if session.Some? {
        var u := session.value;
        user := Some(UserOf(u));
        loading := false;
        var p, _, _ := FetchProfile(u.id, DEFAULT_RETRIES, lookup);
        profile := p;
      } else {
        user := None;
        profile := None;
        loading := false;
      }
    }

    /** refreshProfile: re-fetch for the current user; nothing without one. */
    method RefreshProfile(lookup: (string, nat) -> Option<Profile>)
      modifies this
      ensures user == old(user) && loading == old(loading)
      ensures old(user).None? ==> profile == old(profile)
      ensures old(user).Some? ==> profile == FetchResult(backend, loadedAt, lookup, old(user).value.id, DEFAULT_RETRIES)
    {
      if user.None? {
        return;
      }
      var p, _, _ := FetchProfile(user.value.id, DEFAULT_RETRIES, lookup);
      profile := p;
    }

    /** setProfile: install the given profile verbatim. */
    method SetProfile(p: Option<Profile>)
      modifies this
      ensures profile == p && user == old(user) && loading == old(loading)
    {
      profile := p;
    }

    /**
     * signIn: mock mode signs the mock user in under the given email; with a
     * backend a failure returns its message and changes nothing.
     */
    method SignIn(email: string, password: string, reply: SignInReply, lookup: (string, nat) -> Option<Profile>)
      returns (error: Option<string>)
      modifies this
      ensures !backend ==> (error == None && user == Some(AuthUser("mock-user", email))
                            && profile == Some(MockProfile(loadedAt)) && loading == old(loading))
      ensures backend && reply.SignInFailed? ==> error == Some(reply.message)
      ensures backend && reply.SignedIn? ==> error == None
      ensures backend && (reply.SignInFailed? || reply.user.None?) ==>
                user == old(user) && profile == old(profile) && loading == old(loading)
      ensures backend && reply.SignedIn? && reply.user.Some? ==>
                user == Some(UserOf(reply.user.value)) && !loading
                && profile == FetchResult(backend, loadedAt, lookup, reply.user.value.id, DEFAULT_RETRIES)
    {
      if !backend {
        user := Some(AuthUser("mock-user", email));
        profile := Some(MockProfile(loadedAt));
        return None;
      }
      if reply.SignInFailed? {
        return Some(reply.message);
      }
      if reply.user.Some? {
        var u := reply.user.value;
        user := Some(UserOf(u));
        loading := false;
        var p, _, _ := FetchProfile(u.id, DEFAULT_RETRIES, lookup);
        profile := p;
      }
      error := None;
    }

    /**
     * signUp: with a backend only the reply's error message (or null) comes
     * back and the state is untouched; mock mode signs the mock user in.
     */
    method SignUp(email: string, password: string, role: UserRole, replyError: Option<string>)
      returns (error: Option<string>)
      modifies this
      ensures backend ==> error == replyError
      ensures backend ==> user == old(user) && profile == old(profile) && loading == old(loading)
      ensures !backend ==> (error == None && user == Some(AuthUser("mock-user", email))
                            && profile == Some(MockSignUpProfile(loadedAt, email, role)) && loading == old(loading))
    {
      if !backend {
        user := Some(AuthUser("mock-user", email));
        profile := Some(MockSignUpProfile(loadedAt, email, role));
        return None;
      }
      error := replyError;
    }

    /** signOut: clears user and profile; `loading` is left as it was. */
    method SignOut()
      modifies this
      ensures user == None && profile == None && loading == old(loading)
    {
      user := None;
      profile := None;
    }
  }
}
