/**
 * The route guard of the root layout (app/_layout.tsx): while the session is
 * loading a spinner is shown and nothing is redirected; afterwards a visitor
 * without a session outside the "(auth)" route group is sent to sign-in, and
 * a signed-in visitor inside that group is sent home.
 */
module RootLayout {

  /** What the layout renders. */
  datatype Screen = Spinner | NavigationStack

  const AuthGroup: string := "(auth)"
  const SignInRoute: string := "/" + AuthGroup + "/" + "sign-in"
  const HomeRoute: string := "/"

  /** Length of the first segment of a route that does not start with '/': up to the next '/'. */
  function SegmentLength(route: string): (n: nat)
    requires |route| > 0 && route[0] != '/'
    ensures 1 <= n <= |route|
    ensures forall i :: 0 <= i < n ==> route[i] != '/'
    ensures n < |route| ==> route[n] == '/'
    decreases |route|
  {
    if |route| == 1 || route[1] == '/' then 1 else 1 + SegmentLength(route[1..])
  }

  /**
   * The segments of a route path as the router reports them: the parts
   * between slashes, with empty parts dropped.
   */
  function RouteSegments(route: string): (segments: seq<string>)
    ensures forall i :: 0 <= i < |segments| ==> segments[i] != [] && '/' !in segments[i]
    ensures Concat(segments) == WithoutSlashes(route)
    decreases |route|
  {
    if route == [] then []
    else if route[0] == '/' then
      assert route == [route[0]] + route[1..];
      RouteSegments(route[1..])
    else
      var n := SegmentLength(route);
      SlashFree(route[..n]);
      WithoutSlashesAppend(route[..n], route[n..]);
      assert route == route[..n] + route[n..];
      [route[..n]] + RouteSegments(route[n..])
  }

  /** The segments written one after another. */
  function Concat(segments: seq<string>): string
  {
    if segments == [] then [] else segments[0] + Concat(segments[1..])
  }

  /** The route with every '/' removed: what the segments must spell out together. */
  function WithoutSlashes(route: string): string
  {
    if route == [] then [] else (if route[0] == '/' then [] else [route[0]]) + WithoutSlashes(route[1..])
  }

  lemma {:induction false} WithoutSlashesAppend(a: string, b: string)
    ensures WithoutSlashes(a + b) == WithoutSlashes(a) + WithoutSlashes(b)
    decreases |a|
  {
    if a == [] {
      assert a + b == b;
    } else {
      assert (a + b)[0] == a[0];
      assert (a + b)[1..] == a[1..] + b;
      WithoutSlashesAppend(a[1..], b);
    }
  }

  lemma {:induction false} SlashFree(s: string)
    requires forall i :: 0 <= i < |s| ==> s[i] != '/'
    ensures WithoutSlashes(s) == s
    decreases |s|
  {
    if s != [] {
      SlashFree(s[1..]);
    }
  }

  /** `segments[0] === "(auth)"`; a missing first segment is outside the group. */
  predicate InAuthGroup(segments: seq<string>)
  {
    |segments| > 0 && segments[0] == AuthGroup
  }

  /**
   * The `router.replace` calls one run of the redirect effect makes, in order.
   * At most one is made; none while loading, and none when the session and
   * the route group already agree.
   */
  function RedirectEffect(isLoadingSession: bool, hasSession: bool, segments: seq<string>): (replaced: seq<string>)
    ensures |replaced| <= 1
    ensures replaced == [] <==> isLoadingSession || hasSession != InAuthGroup(segments)
    ensures replaced == [SignInRoute] <==> !isLoadingSession && !hasSession && !InAuthGroup(segments)
    ensures replaced == [HomeRoute] <==> !isLoadingSession && hasSession && InAuthGroup(segments)
  {
    if isLoadingSession then []
    else
      var inAuthGroup := |segments| > 0 && segments[0] == "(auth)";
      if !hasSession && !inAuthGroup then [SignInRoute]
      else if hasSession && inAuthGroup then [HomeRoute]
      else []
  }

  /** The loading gate: a spinner exactly while the session is loading. */
  function Render(isLoadingSession: bool): (screen: Screen)
    ensures screen == Spinner <==> isLoadingSession
  {
    if isLoadingSession then Spinner else NavigationStack
  }

  /** While loading, the spinner shows and no route is replaced, whatever the route. */
  lemma LoadingGate(hasSession: bool, segments: seq<string>)
    ensures Render(true) == Spinner
    ensures RedirectEffect(true, hasSession, segments) == []
  {
  }

  /** Only the first segment matters; an empty route is outside the auth group. */
  lemma OnlyFirstSegmentMatters(isLoadingSession: bool, hasSession: bool, segments: seq<string>, rest: seq<string>)
    requires |segments| > 0
    ensures RedirectEffect(isLoadingSession, hasSession, segments[..1] + rest)
      == RedirectEffect(isLoadingSession, hasSession, segments)
    ensures RedirectEffect(false, false, []) == [SignInRoute]
    ensures RedirectEffect(false, true, []) == []
  {
  }

  /**
   * Following a redirect ends the redirecting: once the route shows the group
   * the target belongs to (sign-in inside "(auth)", home outside it) and the
   * session is unchanged, the effect replaces nothing more.
   */
  lemma {:induction false} RedirectSettles(hasSession: bool, segments: seq<string>, landed: seq<string>)
    requires RedirectEffect(false, hasSession, segments) != []
    requires InAuthGroup(landed) <==> RedirectEffect(false, hasSession, segments) == [SignInRoute]
    ensures RedirectEffect(false, hasSession, landed) == []
  {
  }

  /** A leading slash contributes no segment. */
  lemma LeadingSlash(rest: string)
    ensures RouteSegments("/" + rest) == RouteSegments(rest)
  {
    assert ("/" + rest)[1..] == rest;
  }

  /** A non-empty, slash-free part followed by '/' is the first segment. */
  lemma LeadingSegment(seg: string, rest: string)
    requires seg != [] && forall i :: 0 <= i < |seg| ==> seg[i] != '/'
    ensures RouteSegments(seg + "/" + rest) == [seg] + RouteSegments(rest)
  {
    var route := seg + "/" + rest;
    assert route[0] == seg[0];
    assert route[|seg|] == '/';
    assert forall i :: 0 <= i < |seg| ==> route[i] == seg[i];
    assert SegmentLength(route) == |seg|;
    assert route[..|seg|] == seg;
    assert route[|seg|..] == "/" + rest;
    LeadingSlash(rest);
  }

  /** A non-empty, slash-free route is a single segment. */
  lemma LastSegment(seg: string)
    requires seg != [] && forall i :: 0 <= i < |seg| ==> seg[i] != '/'
    ensures RouteSegments(seg) == [seg]
  {
    assert SegmentLength(seg) == |seg|;
    assert seg[..|seg|] == seg && seg[|seg|..] == [];
  }

  /** A route `/group/page` of two slash-free parts has exactly those two segments. */
  lemma TwoSegments(group: string, page: string)
    requires group != [] && forall i :: 0 <= i < |group| ==> group[i] != '/'
    requires page != [] && forall i :: 0 <= i < |page| ==> page[i] != '/'
    ensures RouteSegments("/" + group + "/" + page) == [group, page]
  {
    assert "/" + group + "/" + page == "/" + (group + "/" + page);
    LeadingSlash(group + "/" + page);
    LeadingSegment(group, page);
    LastSegment(page);
  }

  /** The segments of the sign-in route: the auth group, then the page. */
  lemma SignInRouteSegments()
    ensures RouteSegments(SignInRoute) == [AuthGroup, "sign-in"]
  {
    TwoSegments(AuthGroup, "sign-in");
  }

  /**
   * The two redirect targets land where the guard expects: sign-in inside the
   * auth group, home outside it with no segment at all.
   */
  lemma TargetsLandInTheirGroups()
    ensures InAuthGroup(RouteSegments(SignInRoute))
    ensures RouteSegments(HomeRoute) == [] && !InAuthGroup(RouteSegments(HomeRoute))
  {
    SignInRouteSegments();
  }
}
