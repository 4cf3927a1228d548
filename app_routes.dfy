/**
  The application's route table and the `PrivateRoute` guard that wraps its
  protected entries.
 */
module AppRoutes {
  import opened Wrappers
  import opened AuthContext

  // Route constants.
  const LoginRoute: string := "/login"
  const LoginPasswordRoute: string := LoginRoute + "/password"
  const ResetPasswordRoute: string := "/passwordreset"
  const SignupRoute: string := "/signup"
  const ProfileRoute: string := "/profile"
  const EditProfileRoute: string := "/profile/edit"
  const EditHostingPreferenceRoute: string := "/hosting-preference/edit"
  const MessagesRoute: string := "/messages"
  const MapRoute: string := "/map"
  const LogoutRoute: string := "/logout"
  const ConnectionsRoute: string := "/connections"
  const NotFoundRoute: string := "/notfound"
  const UserRoute: string := "/user"
  const SearchRoute: string := "/search"
  const JailRoute: string := "/restricted"
  const TosRoute: string := "/tos"
  const NewPlaceRoute: string := "/place/new"
  const PlaceRoute: string := "/place"
  const NewGuideRoute: string := "/guide/new"
  const GuideRoute: string := "/guide"
  const CommunityRoute: string := "/community"
  const GroupRoute: string := "/group"
  const DiscussionRoute: string := "/discussion"

  /** The guard writes its login target as the literal "/login", not as `LoginRoute`. */
  const GuardLoginPath: string := "/login"
  /** The notice the guard reports for an unauthenticated visitor. */
  const PleaseLogIn: string := "Please log in."

  /** The router's location: what `state.from` carries to the login page. */
  datatype Location = Location(pathname: string, search: string, hash: string)

  /** What one render of a route produces. */
  datatype Outcome =
    | Render                                        // the entry's own page (the children)
    | Redirect(to: string, from: Option<Location>)  // a `<Redirect>`, with its `state.from`
    | Blank                                         // no entry matched: the switch renders nothing

  /** One child of the `<Switch>`: a `Route` (isPrivate false) or a `PrivateRoute`
      (isPrivate true) whose path is `base` followed by the parameter pattern
      `params` (empty when the path is the constant alone), or the final
      `<Redirect from="*">`. */
  datatype RouteEntry =
    | Page(base: string, params: string, exact: bool, isPrivate: bool)
    | CatchAll(to: string)

  /** The `<Switch>` of `AppRoutes`, in source order. */
  function Table(): (t: seq<RouteEntry>)
    // The three redirect targets have public pages; the catch-all comes last.
    ensures |t| == 25 && t[24] == CatchAll(NotFoundRoute)
    ensures t[0] == Page(LoginRoute, ":urlToken?", false, false)
    ensures t[6] == Page(JailRoute, "", false, false)
    ensures t[23] == Page(NotFoundRoute, "", true, false)
  {
    [ Page(LoginRoute, ":urlToken?", false, false),
      Page(SignupRoute, ":urlToken?", false, false),
      Page(ResetPasswordRoute, "", true, false),
      Page(ResetPasswordRoute, ":resetToken", true, false),
      Page(TosRoute, "", false, false),
      Page(MapRoute, "", false, true),
      Page(JailRoute, "", false, false),
      Page(LogoutRoute, "", true, false),
      Page(EditProfileRoute, "", false, true),
      Page(EditHostingPreferenceRoute, "", false, true),
      Page(ProfileRoute, "", false, true),
      Page(MessagesRoute, ":type?", false, true),
      Page(UserRoute, ":username", false, true),
      Page(SearchRoute, ":query?", false, true),
      Page(NewPlaceRoute, "", false, true),
      Page(PlaceRoute, ":pageId/:pageSlug?", false, true),
      Page(NewGuideRoute, "", false, true),
      Page(GuideRoute, ":pageId/:pageSlug?", false, true),
      Page(DiscussionRoute, ":discussionId/:discussionSlug?", false, true),
      Page(CommunityRoute, ":communityId/:communitySlug?", false, true),
      Page(GroupRoute, ":groupId/:groupSlug?", false, true),
      Page(ConnectionsRoute, ":type?", false, true),
      Page("/", "", true, true),
      Page(NotFoundRoute, "", true, false),
      CatchAll(NotFoundRoute) ]
  }

  /** Whether a pathname selects an entry: the base path itself, or, when the
      entry is not exact or takes parameters, anything below the base path.
      The parameter patterns themselves are not checked. */
  predicate Matches(e: RouteEntry, pathname: string)
  {
    match e
    case Page(base, params, exact, _) =>
      pathname == base || ((!exact || params != "") && base + "/" <= pathname)
    case CatchAll(_) => true
  }

  /** The index of the entry the switch renders: the first one that matches. */
  function FirstMatch(table: seq<RouteEntry>, pathname: string): (r: Option<nat>)
    ensures r.Some? ==> r.value < |table| && Matches(table[r.value], pathname)
    ensures r.Some? ==> forall k :: 0 <= k < r.value ==> !Matches(table[k], pathname)
    ensures r.None? ==> forall k :: 0 <= k < |table| ==> !Matches(table[k], pathname)
  {
    if table == [] then None
    else if Matches(table[0], pathname) then Some(0)
    else match FirstMatch(table[1..], pathname)
      case None => None
      case Some(i) => Some(i + 1)
  }

  /** The decision `PrivateRoute` renders for a location (the nested
      conditional on `isAuthenticated` and `isJailed`). */
  function Guard(authenticated: bool, jailed: bool, location: Location): (o: Outcome)
    ensures o == Render <==> authenticated && !jailed
    ensures o == Redirect(JailRoute, None) <==> authenticated && jailed
    ensures o == Redirect(LoginRoute, Some(location)) <==> !authenticated
  {
    if authenticated then
      if jailed then Redirect(JailRoute, None) else Render
    else
      Redirect(GuardLoginPath, Some(location))
  }

  /** The store calls one evaluation of the guard's effect makes. */
  function GuardEffects(authenticated: bool): (e: seq<AuthAction>)
    ensures e == [] <==> authenticated
    ensures forall a :: a in e ==> a == AuthErrorCall(Text(PleaseLogIn))
    ensures |e| <= 1
  {
    if !authenticated then [AuthErrorCall(Text(PleaseLogIn))] else []
  }

  /** One render of `PrivateRoute` for `location`, with its effect: reads the
      store's flags, reports "Please log in." when unauthenticated, and
      decides. */
  method EvaluatePrivateRoute(store: AuthStore, location: Location) returns (o: Outcome)
    modifies store`calls
    ensures o == Guard(store.authenticated, store.jailed, location)
    ensures store.calls == old(store.calls) + GuardEffects(store.authenticated)
    ensures store.authenticated == old(store.authenticated)
    ensures store.jailed == old(store.jailed) && store.loading == old(store.loading)
  {
    var isAuthenticated := store.authenticated;
    var isJailed := store.jailed;
    if !isAuthenticated {
      store.AuthError(Text(PleaseLogIn));
    }
    o := Guard(isAuthenticated, isJailed, location);
  }

  /** What the switch renders for a location: the first matching entry, and
      the guard's decision when that entry is private. */
  function Navigate(table: seq<RouteEntry>, authenticated: bool, jailed: bool, location: Location): (o: Outcome)
    ensures o == Blank <==> FirstMatch(table, location.pathname).None?
    // A page is rendered only if it is public or the user is cleared.
    ensures o == Render ==>
      ((authenticated && !jailed) ||
       (var e := table[FirstMatch(table, location.pathname).value]; e.Page? && !e.isPrivate))
    // Only the guard carries the location, and only for a visitor who is not logged in.
    ensures o.Redirect? && o.from.Some? ==> !authenticated && o == Redirect(LoginRoute, Some(location))
    // A selected private entry goes through the guard; a selected public page renders.
    ensures var m := FirstMatch(table, location.pathname);
      m.Some? && table[m.value].Page? ==>
        (o == if table[m.value].isPrivate then Guard(authenticated, jailed, location) else Render)
    // A selected catch-all redirects to its target, whatever the flags.
    ensures var m := FirstMatch(table, location.pathname);
      m.Some? && table[m.value].CatchAll? ==> o == Redirect(table[m.value].to, None)
  {
    match FirstMatch(table, location.pathname)
    case None => Blank
    case Some(i) =>
      match table[i]
      case CatchAll(to) => Redirect(to, None)
      case Page(_, _, _, isPrivate) =>
        if isPrivate then Guard(authenticated, jailed, location) else Render
  }

  /** The first match is the first entry that matches. */
  lemma FirstMatchAt(table: seq<RouteEntry>, pathname: string, i: nat)
    requires i < |table| && Matches(table[i], pathname)
    requires forall k :: 0 <= k < i ==> !Matches(table[k], pathname)
    ensures FirstMatch(table, pathname) == Some(i)
  {
  }

  /** A page whose base differs from the pathname in its first letter cannot match. */
  lemma FirstLetterDiffers(e: RouteEntry, pathname: string)
    requires e.Page? && |e.base| >= 2 && |pathname| >= 2 && e.base[1] != pathname[1]
    ensures !Matches(e, pathname)
  {
    var prefix := e.base + "/";
    assert prefix[1] == e.base[1];
  }

  /** `loginPasswordRoute` is `loginRoute` followed by "/password", and both
      are served by the public login entry.  (The table is passed in, equal to
      `Table()`, so that the solver does not unfold the lookup on a literal.) */
  lemma LoginServedPublicly(t: seq<RouteEntry>)
    requires t == Table()
    ensures LoginPasswordRoute == "/login/password"
    ensures t[0] == Page(LoginRoute, ":urlToken?", false, false)
    ensures FirstMatch(t, LoginRoute) == Some(0)
    ensures FirstMatch(t, LoginPasswordRoute) == Some(0)
  {
    assert LoginRoute + "/" <= LoginPasswordRoute;
    FirstMatchAt(t, LoginRoute, 0);
    FirstMatchAt(t, LoginPasswordRoute, 0);
  }

  /** The jail route is served by the public `Jail` entry, ahead of every
      private entry that follows it. */
  lemma JailServedPublicly(t: seq<RouteEntry>)
    requires t == Table()
    ensures t[6] == Page(JailRoute, "", false, false)
    ensures FirstMatch(t, JailRoute) == Some(6)
  {
    forall k | 0 <= k < 6 ensures !Matches(t[k], JailRoute) {
      FirstLetterDiffers(t[k], JailRoute);
    }
    FirstMatchAt(t, JailRoute, 6);
  }

  /** No entry in `t[lo..hi]` matches the not-found route: their bases all
      differ from it in the first letter.  (Split into ranges to keep each
      proof small.) */
  lemma NotFoundSkips(t: seq<RouteEntry>, lo: nat, hi: nat)
    requires t == Table()
    requires (lo, hi) in {(0, 6), (6, 12), (12, 17), (17, 22)}
    ensures forall k :: lo <= k < hi ==> !Matches(t[k], NotFoundRoute)
  {
    forall k | lo <= k < hi ensures !Matches(t[k], NotFoundRoute) {
      FirstLetterDiffers(t[k], NotFoundRoute);
    }
  }

  /** The catch-all redirect to the not-found route is the last entry and
      the only one that is not a page. */
  lemma CatchAllIsLast(t: seq<RouteEntry>)
    requires t == Table()
    ensures |t| == 25 && t[24] == CatchAll(NotFoundRoute)
    ensures forall k :: 0 <= k < 24 ==> t[k].Page?
  {
  }

  /** The not-found route is served by the public `NotFoundPage` entry, just
      before the catch-all redirect that targets it. */
  lemma NotFoundServedPublicly(t: seq<RouteEntry>)
    requires t == Table()
    ensures t[23] == Page(NotFoundRoute, "", true, false)
    ensures FirstMatch(t, NotFoundRoute) == Some(23)
  {
    NotFoundSkips(t, 0, 6);
    NotFoundSkips(t, 6, 12);
    NotFoundSkips(t, 12, 17);
    NotFoundSkips(t, 17, 22);
    assert !Matches(t[22], NotFoundRoute);
    FirstMatchAt(t, NotFoundRoute, 23);
  }

  /** Following any redirect the switch produces lands on a public page, so
      a guard redirect never leads into another guard; and every path is
      handled by some entry (nothing renders blank). */
  lemma NoRedirectChain(t: seq<RouteEntry>, authenticated: bool, jailed: bool, location: Location, next: Location)
    requires t == Table()
    ensures Navigate(t, authenticated, jailed, location) != Blank
    ensures var o := Navigate(t, authenticated, jailed, location);
      o.Redirect? && next.pathname == o.to ==> Navigate(t, authenticated, jailed, next) == Render
  {
    CatchAllIsLast(t);
    NotFoundServedPublicly(t);
    assert Matches(t[24], location.pathname);
    LoginServedPublicly(t);
    JailServedPublicly(t);
  }

  /** On a path the switch hands to a `PrivateRoute`, the visitor who is not
      logged in goes to `/login` with the location, the jailed user to
      `/restricted`, and only the cleared user sees the page; on a path
      handed to a public `Route`, the page renders whatever the flags. */
  lemma PrivatePathGuarded(t: seq<RouteEntry>, authenticated: bool, jailed: bool, location: Location)
    requires FirstMatch(t, location.pathname).Some?
    requires t[FirstMatch(t, location.pathname).value].Page?
    ensures var o := Navigate(t, authenticated, jailed, location);
      var e := t[FirstMatch(t, location.pathname).value];
      (e.isPrivate && !authenticated ==> o == Redirect(LoginRoute, Some(location))) &&
      (e.isPrivate && authenticated && jailed ==> o == Redirect(JailRoute, None)) &&
      (e.isPrivate && authenticated && !jailed ==> o == Render) &&
      (!e.isPrivate ==> o == Render)
  {
  }

  /** A path that no page of the table matches falls through to the
      catch-all and is redirected to the not-found route, whatever the flags. */
  lemma UnmatchedGoesToNotFound(t: seq<RouteEntry>, authenticated: bool, jailed: bool, location: Location)
    requires t == Table()
    requires forall k :: 0 <= k < 24 ==> !Matches(t[k], location.pathname)
    ensures Navigate(t, authenticated, jailed, location) == Redirect(NotFoundRoute, None)
  {
    CatchAllIsLast(t);
    FirstMatchAt(t, location.pathname, 24);
  }
}
