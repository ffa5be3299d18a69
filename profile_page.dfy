/** The profile page: a protected view with the same guard effect as the
    dashboard but a stricter render, which also needs a user record. Its local
    state is the edit toggle and the edited name; its logout handler logs out
    and then navigates home. */
module ProfilePage {
  import opened AuthTypes
  import DashboardPage

  /** The target the guard effect pushes on one run, if any. */
  function Redirect(s: AuthSnapshot): (target: Option<string>)
    ensures target.Some? <==> !s.isLoading && !s.isAuthenticated
    ensures target.Some? ==> target.value == LoginPath
  {
    if !s.isLoading && !s.isAuthenticated then Some(LoginPath) else None
  }

  /** What the page renders: loading first, then content only with both the
      authenticated flag and a user record. */
  function View(s: AuthSnapshot): (r: Render)
    ensures r == Loading <==> s.isLoading
    ensures r == Content <==> !s.isLoading && s.isAuthenticated && s.user.Some?
  {
    if s.isLoading then Loading
    else if !s.isAuthenticated || s.user.None? then Nothing
    else Content
  }

  /** The profile page redirects exactly as the dashboard does, shows its
      content only when the dashboard would, and differs from it exactly on an
      authenticated session without a user record. */
  lemma StricterThanDashboard(s: AuthSnapshot)
    ensures Redirect(s) == DashboardPage.Redirect(s)
    ensures View(s) == Content ==> DashboardPage.View(s) == Content
    ensures View(s) != DashboardPage.View(s) <==> !s.isLoading && s.isAuthenticated && s.user.None?
  {
  }

  /** The one state in which the page stays blank without redirecting: an
      authenticated session that has no user record. */
  lemma BlankWithoutRedirect(s: AuthSnapshot)
    ensures View(s) == Nothing && Redirect(s).None? <==> !s.isLoading && s.isAuthenticated && s.user.None?
    ensures View(s) == Content ==> Redirect(s).None?
  {
  }

  /** The initial value of the name field: the user's name, or the empty
      string when there is no user (an empty name falls back to the empty
      string, which changes nothing). */
  function InitialName(user: Option<User>): (name: string)
    ensures user.None? ==> name == ""
    ensures user.Some? ==> name == user.value.name
  {
    match user
    case None => ""
    case Some(u) => if u.name != "" then u.name else ""
  }

  /** A side effect the page asks of its collaborators. */
  datatype Effect = Logout | Navigate(path: string)

  /** The page's local state, the session user it was last rendered with, and
      the side effects it has issued so far. */
  class ProfileForm {
    var isEditing: bool
    var name: string
    var user: Option<User>
    var effects: seq<Effect>

    /** The first render: not editing, name initialised from the user seen then. */
    constructor (user0: Option<User>)
      ensures !isEditing && name == InitialName(user0) && user == user0 && effects == []
    {
      isEditing := false;
      name := InitialName(user0);
      user := user0;
      effects := [];
    }

    /** A later render with a new session user: local state is kept, so the
        name field is not re-initialised. */
    method Rerender(u: Option<User>)
      modifies this
      ensures user == u
      ensures isEditing == old(isEditing) && name == old(name) && effects == old(effects)
    {
      user := u;
    }

    /** "Edit Profile", shown while not editing. */
    method Edit()
      requires !isEditing
      modifies this
      ensures isEditing
      ensures name == old(name) && user == old(user) && effects == old(effects)
    {
      isEditing := true;
    }

    /** Typing in the name field, shown while editing. The email field is
        disabled, so there is no operation that edits the email. */
    method ChangeName(value: string)
      requires isEditing
      modifies this
      ensures name == value
      ensures isEditing && user == old(user) && effects == old(effects)
    {
      name := value;
    }

    /** "Save Changes": leaves edit mode and writes nothing back to the user. */
    method Save()
      requires isEditing
      modifies this
      ensures !isEditing
      ensures name == old(name) && user == old(user) && effects == old(effects)
    {
      isEditing := false;
    }

    /** "Cancel": leaves edit mode and keeps the edited name as it is. */
    method Cancel()
      requires isEditing
      modifies this
      ensures !isEditing
      ensures name == old(name) && user == old(user) && effects == old(effects)
    {
      isEditing := false;
    }

    /** The logout handler: log out first, then navigate home. */
    method HandleLogout()
      modifies this
      ensures effects == old(effects) + [Logout, Navigate(HomePath)]
      ensures isEditing == old(isEditing) && name == old(name) && user == old(user)
    {
      effects := effects + [Logout];
      effects := effects + [Navigate(HomePath)];
    }
  }

  /** A page first rendered while the session was still loading keeps an empty
      name field after the user record arrives: opening the editor shows "". */
  method NameAfterLateUser(u: User) returns (shown: string)
    ensures shown == ""
  {
    var page := new ProfileForm(None);
    page.Rerender(Some(u));
    page.Edit();
    shown := page.name;
  }

  /** Editing the name and saving leaves the session user as it was; the
      edited name stays local to the page. */
  method EditAndSave(user0: User, typed: string) returns (after: Option<User>, name: string)
    ensures after == Some(user0)
    ensures name == typed
  {
    var page := new ProfileForm(Some(user0));
    page.Edit();
    page.ChangeName(typed);
    page.Save();
    after, name := page.user, page.name;
  }
}
