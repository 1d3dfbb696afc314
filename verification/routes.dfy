/**
 * The route guards and the route table of the application shell (src/App.tsx).
 * A path is given as its list of non-empty segments, as the router splits it.
 */
module Routes {
  import opened Wrappers
  import opened Text
  import opened Schema

  /** What a guard reads from the auth context. */
  datatype AuthView = AuthView(user: Option<AuthUser>, profile: Option<Profile>, loading: bool)

  /** A guard shows the loading placeholder, redirects, or renders what it wraps. */
  datatype Decision = ShowPlaceholder | RedirectTo(path: string) | RenderChildren

  /** ProtectedLayout: only a signed-in user gets through; the profile plays no part. */
  function ProtectedLayout(auth: AuthView): (d: Decision)
    ensures d == ShowPlaceholder <==> auth.loading
    ensures d == RenderChildren <==> !auth.loading && auth.user.Some?
    ensures d.RedirectTo? ==> d.path == "/login"
  {
    if auth.loading then ShowPlaceholder
    else if auth.user.None? then RedirectTo("/login")
    else RenderChildren
  }

  /** PublicRoute: only a signed-out visitor gets through; a user is sent home. */
  function PublicRoute(auth: AuthView): (d: Decision)
    ensures d == ShowPlaceholder <==> auth.loading
    ensures d == RenderChildren <==> !auth.loading && auth.user.None?
    ensures d.RedirectTo? ==> d.path == "/"
  {
    if auth.loading then ShowPlaceholder
    else if auth.user.Some? then RedirectTo("/")
    else RenderChildren
  }

  /** Once loading is over, exactly one of the two guards renders its page. */
  lemma ExactlyOneGuardRenders(auth: AuthView)
    requires !auth.loading
    ensures (ProtectedLayout(auth) == RenderChildren) != (PublicRoute(auth) == RenderChildren)
  {
  }

  /** Neither guard looks at the profile: no onboarding or completeness check. */
  lemma GuardsIgnoreProfile(auth: AuthView, p: Option<Profile>)
    ensures ProtectedLayout(auth.(profile := p)) == ProtectedLayout(auth)
    ensures PublicRoute(auth.(profile := p)) == PublicRoute(auth)
  {
  }

  datatype Guard = Public | Protected

  datatype Screen =
    | LoginPage | SignupPage | ForgotPassword | ProfileSetupPage | HeroPage | ProfilePage
    | EditProfilePage | MyEventsPage | CreateEventPage | ProfileViewPage | EventsPage
    | EventDetailPage | MorePage | SettingsPage

  /** A path segment of a route: a literal, or a parameter such as `:id`. */
  datatype Segment = Lit(text: string) | Param

  datatype Route = Route(pattern: seq<Segment>, guard: Guard, screen: Screen)

  /** The declared routes, in declaration order; anything else falls to `*`. */
  const ROUTES: seq<Route> := [
    Route([Lit("login")], Public, LoginPage),
    Route([Lit("signup")], Public, SignupPage),
    Route([Lit("forgot-password")], Public, ForgotPassword),
    Route([Lit("profile-setup")], Protected, ProfileSetupPage),
    Route([], Protected, HeroPage),
    Route([Lit("profile")], Protected, ProfilePage),
    Route([Lit("profile"), Lit("edit")], Protected, EditProfilePage),
    Route([Lit("profile"), Lit("events")], Protected, MyEventsPage),
    Route([Lit("profile"), Lit("events"), Lit("new")], Protected, CreateEventPage),
    Route([Lit("profile"), Param], Protected, ProfileViewPage),
    Route([Lit("events")], Protected, EventsPage),
    Route([Lit("events"), Param], Protected, EventDetailPage),
    Route([Lit("events"), Lit("new")], Protected, CreateEventPage),
    Route([Lit("more")], Protected, MorePage),
    Route([Lit("settings")], Protected, SettingsPage)
  ]

  /**
   * A route matches a path of as many segments whose literal segments agree
   * with the pattern's up to case: no route sets `caseSensitive`, so the
   * router compares without regard to case. Every literal of ROUTES is lower
   * case, so lowering the path segment alone is that comparison.
   */
  predicate Matches(pattern: seq<Segment>, path: seq<string>)
    decreases |pattern|
  {
    && |pattern| == |path|
    && (pattern != [] ==>
          && (pattern[0].Lit? ==> ToLower(path[0]) == pattern[0].text)
          && Matches(pattern[1..], path[1..]))
  }

  predicate AllLiteral(pattern: seq<Segment>)
    decreases |pattern|
  {
    pattern != [] ==> pattern[0].Lit? && AllLiteral(pattern[1..])
  }

  predicate IsStatic(r: Route) {
    AllLiteral(r.pattern)
  }

  /** The index of the first route from `from` on that matches `path` and is static or not as asked. */
  function FirstMatch(path: seq<string>, literal: bool, from: nat): (k: Option<nat>)
    ensures k.Some? ==> from <= k.value < |ROUTES| && Matches(ROUTES[k.value].pattern, path)
                        && IsStatic(ROUTES[k.value]) == literal
    ensures k.Some? ==> forall j :: from <= j < k.value && IsStatic(ROUTES[j]) == literal ==> !Matches(ROUTES[j].pattern, path)
    ensures k.None? ==> forall j :: from <= j < |ROUTES| && IsStatic(ROUTES[j]) == literal ==> !Matches(ROUTES[j].pattern, path)
    decreases |ROUTES| - from
  {
    if from >= |ROUTES| then None
    else if IsStatic(ROUTES[from]) == literal && Matches(ROUTES[from].pattern, path) then Some(from)
    else FirstMatch(path, literal, from + 1)
  }

  /**
   * The router's choice: the first matching all-literal route, else the first
   * matching route with a parameter.
   */
  function Resolve(path: seq<string>): (r: Option<Route>)
    ensures r.Some? ==> r.value in ROUTES && Matches(r.value.pattern, path)
    ensures r.None? <==> forall i :: 0 <= i < |ROUTES| ==> !Matches(ROUTES[i].pattern, path)
    ensures r.Some? && !IsStatic(r.value) ==> forall i :: 0 <= i < |ROUTES| && IsStatic(ROUTES[i]) ==> !Matches(ROUTES[i].pattern, path)
  {
    match FirstMatch(path, true, 0)
    case Some(k) => Some(ROUTES[k])
    case None =>
      match FirstMatch(path, false, 0)
      case Some(k) => Some(ROUTES[k])
      case None => None
  }

  /** What ends up on screen. */
  datatype View = Placeholder | Redirect(to: string) | Show(screen: Screen)

  function Guarded(guard: Guard, auth: AuthView, screen: Screen): View {
    match if guard == Public then PublicRoute(auth) else ProtectedLayout(auth)
    case ShowPlaceholder => Placeholder
    case RedirectTo(to) => Redirect(to)
    case RenderChildren => Show(screen)
  }

  /** The element rendered for `path`: its route behind its guard, or the catch-all redirect home. */
  function Element(path: seq<string>, auth: AuthView): (v: View)
    ensures Resolve(path).None? ==> v == Redirect("/")
    ensures v.Show? ==> !auth.loading && Resolve(path).Some? && v.screen == Resolve(path).value.screen
    ensures v.Show? && Resolve(path).value.guard == Protected ==> auth.user.Some?
    ensures v.Show? && Resolve(path).value.guard == Public ==> auth.user.None?
  {
    match Resolve(path)
    case None => Redirect("/")
    case Some(r) => Guarded(r.guard, auth, r.screen)
  }

  /** Any path no route declares redirects home, whatever the auth state. */
  lemma UnmatchedPathRedirectsHome(path: seq<string>, auth: AuthView)
    requires forall i :: 0 <= i < |ROUTES| ==> !Matches(ROUTES[i].pattern, path)
    ensures Element(path, auth) == Redirect("/")
  {
  }

  /** `/profile/edit` opens the edit page, not the profile of a user whose id is "edit". */
  lemma LiteralRouteOutranksParameter()
    ensures Resolve(["profile", "edit"]) == Some(ROUTES[6])
  {
    var path := ["profile", "edit"];
    assert Matches(ROUTES[6].pattern, path);
    forall j | 0 <= j < 6
      ensures !Matches(ROUTES[j].pattern, path)
    {
    }
    assert FirstMatch(path, true, 0) == Some(6);
  }

  /** `/events/new` opens the event form, although `/events/:id` is declared first. */
  lemma LiteralRouteOutranksEarlierParameter()
    ensures Resolve(["events", "new"]) == Some(ROUTES[12])
  {
    var path := ["events", "new"];
    assert ToLower("events") == "events";
    assert ToLower("new") == "new";
    assert Matches(ROUTES[12].pattern, path);
    assert FirstMatch(path, true, 12) == Some(12);
    assert !ROUTES[11].pattern[1].Lit?;
    assert FirstMatch(path, true, 11) == Some(12);
    assert FirstMatch(path, true, 10) == Some(12);
    assert !ROUTES[9].pattern[1].Lit?;
    assert FirstMatch(path, true, 9) == Some(12);
    assert FirstMatch(path, true, 8) == Some(12);
    assert ToLower(path[0]) != ROUTES[7].pattern[0].text;
    assert FirstMatch(path, true, 7) == Some(12);
    assert ToLower(path[0]) != ROUTES[6].pattern[0].text;
    assert FirstMatch(path, true, 6) == Some(12);
    assert FirstMatch(path, true, 3) == Some(12);
    assert FirstMatch(path, true, 0) == Some(12);
  }

  /** The literals are matched in any case: `/profile/EDIT` opens the edit page too. */
  lemma LiteralRoutesIgnoreCase()
    ensures Resolve(["profile", "EDIT"]) == Some(ROUTES[6])
    ensures Resolve(["Login"]) == Some(ROUTES[0])
  {
    var edit := ["profile", "EDIT"];
    assert ToLower("profile") == "profile";
    assert ToLower("EDIT") == "edit";
    assert Matches(ROUTES[6].pattern, edit);
    assert FirstMatch(edit, true, 0) == Some(6);
    var login := ["Login"];
    assert ToLower("Login") == "login";
    assert Matches(ROUTES[0].pattern, login);
    assert FirstMatch(login, true, 0) == Some(0);
  }

  /** Any other second segment after `/profile`, in any case, is a profile id. */
  lemma ProfileIdRoute(id: string)
    requires ToLower(id) != "edit" && ToLower(id) != "events"
    ensures Resolve(["profile", id]) == Some(ROUTES[9])
  {
    var path := ["profile", id];
    NoStaticRouteTakesProfileId(id);
    assert ToLower("profile") == "profile";
    assert Matches(ROUTES[9].pattern, path);
    assert FirstMatch(path, false, 9) == Some(9);
    assert FirstMatch(path, false, 6) == Some(9);
    assert FirstMatch(path, false, 0) == Some(9);
  }

  /** No all-literal route matches `/profile/<id>` for such an id. */
  lemma NoStaticRouteTakesProfileId(id: string)
    requires ToLower(id) != "edit" && ToLower(id) != "events"
    ensures FirstMatch(["profile", id], true, 0) == None
  {
    var path := ["profile", id];
    assert ToLower("profile") == "profile";
    assert ToLower(path[0]) != ROUTES[12].pattern[0].text;
    assert !ROUTES[11].pattern[1].Lit?;
    assert !ROUTES[9].pattern[1].Lit?;
    assert FirstMatch(path, true, 8) == None;
    assert ToLower(path[1]) != ROUTES[7].pattern[1].text;
    assert ToLower(path[1]) != ROUTES[6].pattern[1].text;
    assert FirstMatch(path, true, 0) == None;
  }
}
