/** Values shared by the pages: the user record, the part of the session state
    a page reads, the three render outcomes of a guarded page, and the routes.
    The session store that produces these values is not part of this model:
    every page takes its snapshot as an input. */
module AuthTypes {

  datatype Option<+T> = None | Some(value: T)

  /** The user record; only the avatar is optional. */
  datatype User = User(id: string, email: string, name: string, avatar: Option<string>)

  /** What a page reads from the session store on one render. */
  datatype AuthSnapshot = AuthSnapshot(isLoading: bool, isAuthenticated: bool, user: Option<User>)

  /** What a guarded page renders: the loading view, nothing (null), or its content. */
  datatype Render = Loading | Nothing | Content

  const HomePath: string := "/"
  const LoginPath: string := "/auth/login"
  const DashboardPath: string := "/dashboard"
}
