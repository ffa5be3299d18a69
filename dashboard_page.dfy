/** The dashboard page: a protected view. Its guard effect sends a visitor
    whose session has loaded without a login to the login page; its render
    shows the loading view while the session loads, nothing while
    unauthenticated, and the dashboard content otherwise. */
module DashboardPage {
  import opened AuthTypes

  /** The target the guard effect pushes on one run, if any. */
  function Redirect(s: AuthSnapshot): (target: Option<string>)
    ensures target.Some? <==> !s.isLoading && !s.isAuthenticated
    ensures target.Some? ==> target.value == LoginPath
  {
    if !s.isLoading && !s.isAuthenticated then Some(LoginPath) else None
  }

  /** What the page renders; the loading check comes first. */
  function View(s: AuthSnapshot): (r: Render)
    ensures r == Loading <==> s.isLoading
    ensures r == Content <==> !s.isLoading && s.isAuthenticated
  {
    if s.isLoading then Loading
    else if !s.isAuthenticated then Nothing
    else Content
  }

  /** The page renders nothing exactly when its guard redirects, and never
      redirects while loading or while showing its content. */
  lemma RedirectExactlyWhenBlank(s: AuthSnapshot)
    ensures Redirect(s).Some? <==> View(s) == Nothing
    ensures View(s) == Loading ==> Redirect(s).None?
    ensures View(s) == Content ==> Redirect(s).None?
  {
  }

  /** The decision reads only the two flags, never the user record. */
  lemma IgnoresUser(s: AuthSnapshot, u: Option<User>)
    ensures View(s.(user := u)) == View(s)
    ensures Redirect(s.(user := u)) == Redirect(s)
  {
  }

  /** The guard effect runs on the first render of a trace of renders and
      afterwards only on a render where `isAuthenticated` or `isLoading`
      differs from the render before. */
  predicate EffectRuns(trace: seq<AuthSnapshot>, i: nat)
    requires i < |trace|
    ensures i == 0 ==> EffectRuns(trace, i)
    ensures !EffectRuns(trace, i) ==> i > 0 && Redirect(trace[i]) == Redirect(trace[i - 1])
  {
    i == 0
    || trace[i - 1].isLoading != trace[i].isLoading
    || trace[i - 1].isAuthenticated != trace[i].isAuthenticated
  }

  /** The navigations the guard effect issues over a trace of renders. */
  function Pushes(trace: seq<AuthSnapshot>): (pushes: seq<string>)
    ensures |pushes| <= |trace|
    ensures forall k :: 0 <= k < |pushes| ==> pushes[k] == LoginPath
  {
    if trace == [] then []
    else
      var n := |trace| - 1;
      Pushes(trace[..n]) + (if EffectRuns(trace, n) && Redirect(trace[n]).Some? then [LoginPath] else [])
  }

  /** Each stretch of renders that are loaded and unauthenticated issues
      exactly one redirect to the login page, on its first render: if the
      trace ends in such a stretch starting at render `j`, the trace pushes
      what its prefix before `j` pushed, plus one "/auth/login". */
  lemma {:induction false} LoggedOutStretchPushesOnce(trace: seq<AuthSnapshot>, j: nat)
    requires j < |trace|
    requires forall i :: j <= i < |trace| ==> !trace[i].isLoading && !trace[i].isAuthenticated
    requires j > 0 ==> trace[j - 1].isLoading || trace[j - 1].isAuthenticated
    ensures Pushes(trace) == Pushes(trace[..j]) + [LoginPath]
    decreases |trace|
  {
    var n := |trace| - 1;
    var prefix := trace[..n];
    if n > j {
      assert !EffectRuns(trace, n);
      assert prefix[..j] == trace[..j];
      assert forall i :: j <= i < |prefix| ==> prefix[i] == trace[i];
      LoggedOutStretchPushesOnce(prefix, j);
    } else {
      assert prefix == trace[..j];
    }
  }

  /** While every render is loading or authenticated, nothing is pushed. */
  lemma {:induction false} NoPushWhileLoadingOrSignedIn(trace: seq<AuthSnapshot>)
    requires forall i :: 0 <= i < |trace| ==> trace[i].isLoading || trace[i].isAuthenticated
    ensures Pushes(trace) == []
  {
    if trace != [] {
      var n := |trace| - 1;
      assert forall i :: 0 <= i < n ==> trace[..n][i] == trace[i];
      NoPushWhileLoadingOrSignedIn(trace[..n]);
    }
  }

  /** A logout while the dashboard shows its content redirects on the very next render. */
  lemma LogoutRedirectsAtOnce(trace: seq<AuthSnapshot>, next: AuthSnapshot)
    requires |trace| > 0 && View(trace[|trace| - 1]) == Content
    requires !next.isLoading && !next.isAuthenticated
    ensures Pushes(trace + [next]) == Pushes(trace) + [LoginPath]
  {
  }
}
