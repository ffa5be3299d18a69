/** The home page: a public-only view. It reads only `isAuthenticated`: an
    authenticated visitor is sent to the dashboard and sees nothing meanwhile;
    everyone else sees the landing (hero) view, even while the session is
    still loading. */
module HomePage {
  import opened AuthTypes
  import DashboardPage

  /** The target the guard effect pushes on one run, if any. */
  function Redirect(s: AuthSnapshot): (target: Option<string>)
    ensures target.Some? <==> s.isAuthenticated
    ensures target.Some? ==> target.value == DashboardPath
  {
    if s.isAuthenticated then Some(DashboardPath) else None
  }

  /** What the page renders: nothing when authenticated, the landing view
      (`Content`) otherwise; there is no loading view. */
  function View(s: AuthSnapshot): (r: Render)
    ensures r != Loading
    ensures r == Content <==> !s.isAuthenticated
  {
    if s.isAuthenticated then Nothing else Content
  }

  /** The decision does not read `isLoading` or the user record. */
  lemma IgnoresLoadingAndUser(s: AuthSnapshot, loading: bool, u: Option<User>)
    ensures View(s.(isLoading := loading, user := u)) == View(s)
    ensures Redirect(s.(isLoading := loading, user := u)) == Redirect(s)
  {
  }

  /** The page renders nothing exactly when it redirects. */
  lemma RedirectExactlyWhenBlank(s: AuthSnapshot)
    ensures Redirect(s).Some? <==> View(s) == Nothing
  {
  }

  /** Once the session has loaded, home and dashboard never send a visitor
      back and forth: exactly one of the two redirects, and the page it
      redirects to shows its content. */
  lemma NoRedirectCycle(s: AuthSnapshot)
    requires !s.isLoading
    ensures Redirect(s).Some? != DashboardPage.Redirect(s).Some?
    ensures Redirect(s).Some? ==> DashboardPage.View(s) == Content
    ensures DashboardPage.Redirect(s).Some? ==> View(s) == Content
  {
  }

  /** The guard effect runs on the first render and afterwards only on a
      render where `isAuthenticated` differs from the render before. */
  predicate EffectRuns(trace: seq<AuthSnapshot>, i: nat)
    requires i < |trace|
    ensures i == 0 ==> EffectRuns(trace, i)
    ensures !EffectRuns(trace, i) ==> i > 0 && Redirect(trace[i]) == Redirect(trace[i - 1])
  {
    i == 0 || trace[i - 1].isAuthenticated != trace[i].isAuthenticated
  }

  /** The navigations the guard effect issues over a trace of renders. */
  function Pushes(trace: seq<AuthSnapshot>): (pushes: seq<string>)
    ensures |pushes| <= |trace|
    ensures forall k :: 0 <= k < |pushes| ==> pushes[k] == DashboardPath
  {
    if trace == [] then []
    else
      var n := |trace| - 1;
      Pushes(trace[..n]) + (if EffectRuns(trace, n) && Redirect(trace[n]).Some? then [DashboardPath] else [])
  }

  /** A render that changes only `isLoading` does not re-run the guard effect. */
  lemma LoadingChangeDoesNotRerun(trace: seq<AuthSnapshot>, loading: bool)
    requires |trace| > 0
    ensures var last := trace[|trace| - 1];
      Pushes(trace + [last.(isLoading := loading)]) == Pushes(trace)
  {
  }

  /** Each stretch of authenticated renders issues exactly one redirect to
      the dashboard, on its first render, whatever `isLoading` does meanwhile:
      if the trace ends in such a stretch starting at render `j`, the trace
      pushes what its prefix before `j` pushed, plus one "/dashboard". */
  lemma {:induction false} SignedInStretchPushesOnce(trace: seq<AuthSnapshot>, j: nat)
    requires j < |trace|
    requires forall i :: j <= i < |trace| ==> trace[i].isAuthenticated
    requires j > 0 ==> !trace[j - 1].isAuthenticated
    ensures Pushes(trace) == Pushes(trace[..j]) + [DashboardPath]
    decreases |trace|
  {
    var n := |trace| - 1;
    var prefix := trace[..n];
    if n > j {
      assert !EffectRuns(trace, n);
      assert prefix[..j] == trace[..j];
      assert forall i :: j <= i < |prefix| ==> prefix[i] == trace[i];
      SignedInStretchPushesOnce(prefix, j);
    } else {
      assert prefix == trace[..j];
    }
  }
}
