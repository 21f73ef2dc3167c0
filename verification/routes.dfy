/**
 * The route guard and the route table of the application shell. The guard
 * is a decision over what the auth context reports; the table says which
 * paths the guard wraps, and with which `requireAdmin` setting.
 */
module Routes {
  import opened Wrappers
  import opened Text

  /** A location as the router passes it on. */
  datatype Location = Location(pathname: string)

  /** The `state` a navigation may carry: `{ from: location }`. */
  datatype NavState = NavState(from: Option<Location>)

  /** A `navigate(to, { replace, state })` call or a `<Navigate>` element. */
  datatype Navigation = Navigation(to: string, replace: bool, state: Option<NavState>)

  /** What the guard renders. */
  datatype GuardOutcome = ShowLoading | Redirect(nav: Navigation) | RenderChildren

  /**
   * `ProtectedRoute`: loading first, then the user, then the admin check.
   * `isAdmin` is what the context's `isAdmin()` returns, read only when
   * `requireAdmin` is set. No token is consulted, and the login redirect
   * carries no state.
   */
  function Guard(loading: bool, hasUser: bool, requireAdmin: bool, isAdmin: bool): (o: GuardOutcome)
    ensures o == ShowLoading <==> loading
    ensures o == Redirect(Navigation("/login", true, None)) <==> !loading && !hasUser
    ensures o == Redirect(Navigation("/", true, None)) <==> !loading && hasUser && requireAdmin && !isAdmin
    ensures o == RenderChildren <==> !loading && hasUser && (!requireAdmin || isAdmin)
  {
    if loading then ShowLoading
    else if !hasUser then Redirect(Navigation("/login", true, None))
    else if requireAdmin && !isAdmin then Redirect(Navigation("/", true, None))
    else RenderChildren
  }

  /** With the default `requireAdmin = false`, a present user always sees the content once loading ends. */
  lemma SignedInUserSeesContent(isAdmin: bool)
    ensures Guard(false, true, false, isAdmin) == RenderChildren
  {
  }

  /** A segment of a route pattern: literal text or a `:param`. */
  datatype Segment = Lit(text: string) | Param

  /** How a route is wrapped: not at all, in `ProtectedRoute`, or in `ProtectedRoute requireAdmin`. */
  datatype Access = Public | SignedIn | AdminOnly

  datatype Route = Route(pattern: seq<Segment>, access: Access)

  /** The routes of the application, in declaration order; any other path renders the public 404 page. */
  const Table: seq<Route> := [
    Route([], Public),
    Route([Lit("login")], Public),
    Route([Lit("register")], Public),
    Route([Lit("movies")], Public),
    Route([Lit("movies"), Param], Public),
    Route([Lit("search")], Public),
    Route([Lit("profile")], SignedIn),
    Route([Lit("my-reviews")], SignedIn),
    Route([Lit("admin"), Lit("dashboard")], AdminOnly),
    Route([Lit("admin"), Lit("movies"), Lit("add")], AdminOnly),
    Route([Lit("admin"), Lit("movies"), Lit("edit"), Param], AdminOnly)
  ]

  /** A path segment fits a pattern segment: a literal compares without regard to case, a parameter takes any non-empty text. */
  predicate SegmentFits(seg: Segment, part: string) {
    match seg
    case Lit(t) => SameIgnoringCase(part, t)
    case Param => part != []
  }

  /** A path, split at `/`, fits a pattern segment by segment. */
  predicate Fits(pattern: seq<Segment>, path: seq<string>) {
    |pattern| == |path| &&
    (pattern == [] || (SegmentFits(pattern[0], path[0]) && Fits(pattern[1..], path[1..])))
  }

  /** The access of the first route the path fits, or `Public` for the catch-all. */
  function AccessIn(routes: seq<Route>, path: seq<string>): (a: Access)
    ensures a != Public ==> exists k :: 0 <= k < |routes| && routes[k].access == a && Fits(routes[k].pattern, path)
  {
    if routes == [] then Public
    else if Fits(routes[0].pattern, path) then routes[0].access
    else AccessIn(routes[1..], path)
  }

  function AccessOf(path: seq<string>): Access {
    AccessIn(Table, path)
  }

  /** The first route a path fits decides its access. */
  lemma {:induction false} FirstFit(routes: seq<Route>, path: seq<string>, k: nat)
    requires k < |routes| && Fits(routes[k].pattern, path)
    requires forall j :: 0 <= j < k ==> !Fits(routes[j].pattern, path)
    ensures AccessIn(routes, path) == routes[k].access
  {
    if k > 0 {
      FirstFit(routes[1..], path, k - 1);
    }
  }

  /** `/profile` needs a signed-in user and nothing more. */
  lemma ProfileNeedsUser()
    ensures AccessOf(["profile"]) == SignedIn
  {
    assert forall j :: 0 <= j < 6 ==> !Fits(Table[j].pattern, ["profile"]) by {
      assert !Fits(Table[0].pattern, ["profile"]);
      assert !Fits(Table[1].pattern, ["profile"]);
      assert !Fits(Table[2].pattern, ["profile"]);
      assert !Fits(Table[3].pattern, ["profile"]);
      assert !Fits(Table[4].pattern, ["profile"]);
      assert !Fits(Table[5].pattern, ["profile"]);
    }
    FirstFit(Table, ["profile"], 6);
  }

  /** `/my-reviews` needs a signed-in user and nothing more. */
  lemma MyReviewsNeedsUser()
    ensures AccessOf(["my-reviews"]) == SignedIn
  {
    assert forall j :: 0 <= j < 7 ==> !Fits(Table[j].pattern, ["my-reviews"]) by {
      assert !Fits(Table[0].pattern, ["my-reviews"]);
      assert !Fits(Table[1].pattern, ["my-reviews"]);
      assert !Fits(Table[2].pattern, ["my-reviews"]);
      assert !Fits(Table[3].pattern, ["my-reviews"]);
      assert !Fits(Table[4].pattern, ["my-reviews"]);
      assert !Fits(Table[5].pattern, ["my-reviews"]);
      assert !Fits(Table[6].pattern, ["my-reviews"]);
    }
    FirstFit(Table, ["my-reviews"], 7);
  }

  /** `/admin/dashboard` needs an admin. */
  lemma DashboardNeedsAdmin()
    ensures AccessOf(["admin", "dashboard"]) == AdminOnly
  {
    assert forall j :: 0 <= j < 8 ==> !Fits(Table[j].pattern, ["admin", "dashboard"]) by {
      assert !Fits(Table[0].pattern, ["admin", "dashboard"]);
      assert !Fits(Table[1].pattern, ["admin", "dashboard"]);
      assert !Fits(Table[2].pattern, ["admin", "dashboard"]);
      assert !Fits(Table[3].pattern, ["admin", "dashboard"]);
      assert !Fits(Table[4].pattern, ["admin", "dashboard"]);
      assert !Fits(Table[5].pattern, ["admin", "dashboard"]);
      assert !Fits(Table[6].pattern, ["admin", "dashboard"]);
      assert !Fits(Table[7].pattern, ["admin", "dashboard"]);
    }
    FirstFit(Table, ["admin", "dashboard"], 8);
  }

  /** `/admin/movies/add` needs an admin. */
  lemma AddMovieNeedsAdmin()
    ensures AccessOf(["admin", "movies", "add"]) == AdminOnly
  {
    assert forall j :: 0 <= j < 9 ==> !Fits(Table[j].pattern, ["admin", "movies", "add"]) by {
      assert !Fits(Table[0].pattern, ["admin", "movies", "add"]);
      assert !Fits(Table[1].pattern, ["admin", "movies", "add"]);
      assert !Fits(Table[2].pattern, ["admin", "movies", "add"]);
      assert !Fits(Table[3].pattern, ["admin", "movies", "add"]);
      assert !Fits(Table[4].pattern, ["admin", "movies", "add"]);
      assert !Fits(Table[5].pattern, ["admin", "movies", "add"]);
      assert !Fits(Table[6].pattern, ["admin", "movies", "add"]);
      assert !Fits(Table[7].pattern, ["admin", "movies", "add"]);
      assert !Fits(Table[8].pattern, ["admin", "movies", "add"]);
    }
    FirstFit(Table, ["admin", "movies", "add"], 9);
  }

  /** `/admin/movies/edit/:id` needs an admin. */
  lemma EditMovieNeedsAdmin(id: string)
    requires id != []
    ensures AccessOf(["admin", "movies", "edit", id]) == AdminOnly
  {
    assert forall j :: 0 <= j < 10 ==> !Fits(Table[j].pattern, ["admin", "movies", "edit", id]) by {
      assert !Fits(Table[0].pattern, ["admin", "movies", "edit", id]);
      assert !Fits(Table[1].pattern, ["admin", "movies", "edit", id]);
      assert !Fits(Table[2].pattern, ["admin", "movies", "edit", id]);
      assert !Fits(Table[3].pattern, ["admin", "movies", "edit", id]);
      assert !Fits(Table[4].pattern, ["admin", "movies", "edit", id]);
      assert !Fits(Table[5].pattern, ["admin", "movies", "edit", id]);
      assert !Fits(Table[6].pattern, ["admin", "movies", "edit", id]);
      assert !Fits(Table[7].pattern, ["admin", "movies", "edit", id]);
      assert !Fits(Table[8].pattern, ["admin", "movies", "edit", id]);
      assert !Fits(Table[9].pattern, ["admin", "movies", "edit", id]);
    }
    var pattern, path := Table[10].pattern, ["admin", "movies", "edit", id];
    assert Fits(pattern[3..], path[3..]);
    assert Fits(pattern[2..], path[2..]);
    assert Fits(pattern[1..], path[1..]);
    FirstFit(Table, path, 10);
  }

  /** The home page is not guarded. */
  lemma HomeIsPublic()
    ensures AccessOf([]) == Public
  {
    FirstFit(Table, [], 0);
  }

  /** The login page is not guarded. */
  lemma LoginIsPublic()
    ensures AccessOf(["login"]) == Public
  {
    assert forall j :: 0 <= j < 1 ==> !Fits(Table[j].pattern, ["login"]) by {
      assert !Fits(Table[0].pattern, ["login"]);
    }
    FirstFit(Table, ["login"], 1);
  }

  /** A movie's page is not guarded. */
  lemma MovieDetailsIsPublic(id: string)
    requires id != []
    ensures AccessOf(["movies", id]) == Public
  {
    assert forall j :: 0 <= j < 4 ==> !Fits(Table[j].pattern, ["movies", id]) by {
      assert !Fits(Table[0].pattern, ["movies", id]);
      assert !Fits(Table[1].pattern, ["movies", id]);
      assert !Fits(Table[2].pattern, ["movies", id]);
      assert !Fits(Table[3].pattern, ["movies", id]);
    }
    FirstFit(Table, ["movies", id], 4);
  }

  /** Only a path beginning with `admin` is admin-only. */
  lemma {:induction false} AdminOnlyUnderAdmin(path: seq<string>)
    requires AccessOf(path) == AdminOnly
    ensures |path| >= 2 && SameIgnoringCase(path[0], "admin")
  {
    var k :| 0 <= k < |Table| && Table[k].access == AdminOnly && Fits(Table[k].pattern, path);
    assert 8 <= k;
    assert Table[k].pattern[0] == Lit("admin");
  }

  /** What a navigation to `path` renders: public routes are not guarded at all. */
  function Visit(path: seq<string>, loading: bool, hasUser: bool, isAdmin: bool): (o: GuardOutcome)
    ensures AccessOf(path) == Public ==> o == RenderChildren
    ensures AccessOf(path) == SignedIn ==> o == Guard(loading, hasUser, false, isAdmin)
    ensures AccessOf(path) == AdminOnly ==> o == Guard(loading, hasUser, true, isAdmin)
  {
    match AccessOf(path)
    case Public => RenderChildren
    case SignedIn => Guard(loading, hasUser, false, isAdmin)
    case AdminOnly => Guard(loading, hasUser, true, isAdmin)
  }

  /** A signed-in non-admin sent to the dashboard lands on `/` and never sees it. */
  lemma NonAdminKeptFromDashboard()
    ensures Visit(["admin", "dashboard"], false, true, false) == Redirect(Navigation("/", true, None))
  {
    DashboardNeedsAdmin();
  }
}
