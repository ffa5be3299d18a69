# Theme store, route guards and page state of a demo web application

This project models the parts of a small single-page web application
(a landing page, fake login, a dashboard, a profile page and a light/dark
theme) whose behaviour can be stated precisely:

- **The theme store** (`ThemeContext`, file `theme_context.dfy`). It keeps a
  stored preference `theme`, a resolved flag `isDark` and a `mounted` flag. It
  loads the preference from local storage on mount and resolves it against
  the colour-scheme media query in an effect. That effect also sets the
  `dark` class on the root element and subscribes to media-query changes.
  `toggleTheme` and `setTheme` write the preference to state and storage.
  The browser is replaced by fields:
  - `storage` is the key-value store;
  - `docDark` is the root element's `dark` class;
  - `prefersDark` is the media query's answer;
  - `listeners` and `listenerTheme` are the change subscription: how many
    listeners are registered, and the preference the registered listener
    captured.

  The store is written twice. `ThemeState` with its step functions is a pure
  transition system, and the lemmas are about it. The class `ThemeStore`
  changes its fields step by step, and each of its methods is proved to
  perform exactly one step. The main results:
  - every reachable state satisfies `Inv`: at most one listener, nothing
    resolved before mount, and the persisted preference reloads to the
    in-memory one (as long as no other tab writes it, see "## Left out");
  - toggling followed by re-resolution flips `isDark` and never selects
    `"system"`;
  - starting from a state in step (right after a resolution run), any run
    of media changes moves `isDark` only under `"system"`;
  - a preference set with `setTheme` survives a reload.
- **The route guards** of the dashboard, profile and home pages
  (`DashboardPage`, `ProfilePage`, `HomePage`). Each page maps the session
  flags it reads to a render outcome (`Loading`, `Nothing`, `Content`) and to an
  optional redirect. The guard effects re-run only when their dependencies
  change. `Pushes` gives the navigations a guard issues over a trace of
  renders. Lemmas over such traces show that each stretch of loaded,
  logged-out renders on the dashboard issues exactly one redirect to the
  login page, on its first render. Likewise, each stretch of authenticated
  renders on the home page issues exactly one redirect to the dashboard.
- **Page-local state**. `ProfilePage.ProfileForm` covers the profile page's
  edit toggle, the name field and the logout sequence. `LoginPage.LoginForm`
  covers the login form's submit handler, with the awaited login call's
  outcome as a parameter.

The session store that supplies `isLoading`, `isAuthenticated` and `user`
(`contexts/AuthContext` and `hooks/useAuth`) is not part of this model. Its
values are inputs (`AuthTypes.AuthSnapshot`).

Behaviour of the code worth knowing:
- The stored preference is not validated. Any non-empty stored string becomes
  `theme`, and every string other than `"system"` and `"dark"` resolves to light.
- The home page ignores `isLoading`. It shows the landing view while the
  session is still loading, instead of waiting for the session to load.
- Re-resolution after `toggleTheme`/`setTheme` is a separate effect run
  (`Resolve`), not part of the handler. Until it runs, a media-change event
  reaches the listener registered earlier, which still holds the old
  preference.
- The media-query listener is registered after every resolution run once
  mounted, whatever the preference, not only under `"system"`.
- The login handler does not check for empty credentials. It passes the
  fields to the login call as they are.
- The profile page's name field is initialised once, on the first render.
  If that render happens while the session is loading, the field stays empty
  after the user arrives (`ProfilePage.NameAfterLateUser`).
- Before the theme provider has mounted it renders its children without a
  context value, so `useTheme` fails for any consumer then
  (`ThemeContext.UseThemeFailsBeforeMount`).

## Model

| member | source | states |
|---|---|---|
| `ThemeContext.ThemeName.Name` | contexts/ThemeContext.tsx:5 | each of the three preferences is stored as a non-empty string |
| `ThemeContext.LoadedTheme` | contexts/ThemeContext.tsx:23-24 | a present, non-empty stored value is returned as it is, unvalidated; an absent key or an empty stored string gives "system" |
| `ThemeContext.ToggledTheme` | contexts/ThemeContext.tsx:58 | the preference toggling picks is "light" or "dark", and "dark" exactly when the store is not dark |
| `ThemeContext.MountStep` | contexts/ThemeContext.tsx:21-26 | mounting sets mounted and the loaded preference, and changes nothing else |
| `ThemeContext.ResolveStep` | contexts/ThemeContext.tsx:28-55 | before mount nothing changes; after mount isDark and the document class equal the resolved value, one listener replaces the previous one and captures the preference; nothing else changes |
| `ThemeContext.MediaChangeStep` | contexts/ThemeContext.tsx:52-53 | records the new media answer; isDark and the class change only through a registered listener, which resolves the preference it captured; nothing else changes |
| `ThemeContext.ToggleStep` | contexts/ThemeContext.tsx:57-61 | the preference becomes the toggled one, never "system", and is written under "theme", so storage reloads to it; nothing else changes |
| `ThemeContext.SetThemeStep` | contexts/ThemeContext.tsx:63-66 | the preference becomes the given one and is written under "theme", so storage reloads to it; nothing else changes |
| `ThemeContext.UnmountStep` | contexts/ThemeContext.tsx:54 | with at most one listener, the cleanup leaves none; nothing else changes |
| `ThemeContext.Step` | contexts/ThemeContext.tsx:17-66 | mounted is set only by mount and never cleared; storage is written only by toggle and set; toggle and set before mount change nothing |
| `ThemeContext.Run` | contexts/ThemeContext.tsx:17-66 | over any sequence of events a mounted store stays mounted, and without toggle or set storage is unchanged |
| `ThemeContext.Inv` | contexts/ThemeContext.tsx:17-66 | the invariant implies the in-memory preference is never empty |
| `ThemeContext.Provided` | contexts/ThemeContext.tsx:68-76 | a context value is provided iff the provider is mounted, and it carries the current preference and isDark |
| `ThemeContext.ShouldBeDark` | contexts/ThemeContext.tsx:33-41 | resolved dark iff the preference is "dark", or it is "system" and the media query prefers dark; any other string is light |
| `ThemeContext.UseTheme` | contexts/ThemeContext.tsx:79-84 | fails with "useTheme must be used within ThemeProvider" iff no provider value is present, otherwise returns that value |
| `ThemeContext.LoadAfterStore` | contexts/ThemeContext.tsx:23-24 | writing a non-empty preference under "theme" and loading it back gives that preference |
| `ThemeContext.MediaMattersOnlyForSystem` | contexts/ThemeContext.tsx:35-41 | for every preference other than "system" the resolution does not depend on the media query |
| `ThemeContext.ToggledThemeFlips` | contexts/ThemeContext.tsx:57-58 | the preference toggling stores is never "system" and resolves to the opposite of the current isDark |
| `ThemeContext.StepPreservesInv` | contexts/ThemeContext.tsx:17-66 | every operation keeps at most one listener, keeps the document class in step with isDark while a listener is registered, leaves isDark false before mount, and keeps storage reloading to the in-memory preference |
| `ThemeContext.RunPreservesInv` | contexts/ThemeContext.tsx:17-66 | the same invariant holds after any sequence of operations |
| `ThemeContext.ReachableStatesSatisfyInv` | contexts/ThemeContext.tsx:17-19 | every state reachable from the provider's first render satisfies the invariant |
| `ThemeContext.ResolveSyncs` | contexts/ThemeContext.tsx:28-55 | a resolution run after mount leaves exactly one listener, which captured the current preference; isDark and the document class both equal the resolved value; preference and storage unchanged |
| `ThemeContext.ToggleThenResolveFlips` | contexts/ThemeContext.tsx:57-61 | toggling then re-resolving flips isDark, never selects "system", and leaves storage["theme"] equal to the preference |
| `ThemeContext.SetThemeThenResolve` | contexts/ThemeContext.tsx:63-66 | setTheme then re-resolving stores the preference in state and storage and resolves it by the rule |
| `ThemeContext.MediaChangesKeepSync` | contexts/ThemeContext.tsx:52-54 | any run of media changes keeps the store in step and leaves preference and storage unchanged; isDark changes only under "system", where it follows the media query |
| `ThemeContext.FreshLoad` | contexts/ThemeContext.tsx:21-26 | with nothing stored, mount and resolution give preference "system" and isDark equal to the media query's answer |
| `ThemeContext.SetThemeSurvivesReload` | contexts/ThemeContext.tsx:63-66 | a fresh provider over the storage setTheme wrote loads the same preference, dark for "dark" and light for "light" |
| `ThemeContext.UseThemeFailsBeforeMount` | contexts/ThemeContext.tsx:68-84 | useTheme fails iff the provider has not mounted, and otherwise yields the current preference and isDark |
| `ThemeContext.Init` | contexts/ThemeContext.tsx:17-19 | the first render: preference "system", light, not mounted, no listener, the browser fields as given; the invariant holds |
| `ThemeContext.ThemeStore.constructor` | contexts/ThemeContext.tsx:17-19 | the initial state is `Init`: preference "system", light, not mounted, no listener |
| `ThemeContext.ThemeStore.Mount` | contexts/ThemeContext.tsx:21-26 | sets the preference to the stored one (or "system") and mounted to true; nothing else changes |
| `ThemeContext.ThemeStore.Resolve` | contexts/ThemeContext.tsx:28-55 | no change before mount; after mount replaces the listener and applies the resolved mode to isDark and the document class |
| `ThemeContext.ThemeStore.OnMediaChange` | contexts/ThemeContext.tsx:32-53 | records the new media answer; a registered listener re-resolves the preference it captured |
| `ThemeContext.ThemeStore.Toggle` | contexts/ThemeContext.tsx:57-61 | preference becomes "light" if dark else "dark", written to storage under "theme" too |
| `ThemeContext.ThemeStore.SetTheme` | contexts/ThemeContext.tsx:63-66 | preference becomes the given one, written to storage under "theme" too |
| `ThemeContext.ThemeStore.Unmount` | contexts/ThemeContext.tsx:54 | the cleanup leaves no listener registered |
| `DashboardPage.Redirect` | app/dashboard/page.tsx:14-18 | a redirect is issued iff not loading and not authenticated, and it goes to "/auth/login" |
| `DashboardPage.View` | app/dashboard/page.tsx:20-33 | loading view iff loading; content iff not loading and authenticated; otherwise nothing |
| `DashboardPage.RedirectExactlyWhenBlank` | app/dashboard/page.tsx:14-33 | the page renders nothing exactly when it redirects, and never redirects while loading or showing content |
| `DashboardPage.IgnoresUser` | app/dashboard/page.tsx:11-33 | the decision does not depend on the user record |
| `DashboardPage.EffectRuns` | app/dashboard/page.tsx:18 | the effect runs on the first render; when it is skipped, the redirect decision equals that of the render before |
| `DashboardPage.Pushes` | app/dashboard/page.tsx:14-18 | over a trace of renders the guard pushes only "/auth/login", and no more times than there are renders |
| `DashboardPage.LoggedOutStretchPushesOnce` | app/dashboard/page.tsx:14-18 | a trailing stretch of loaded, unauthenticated renders adds exactly one "/auth/login" push to what came before it |
| `DashboardPage.NoPushWhileLoadingOrSignedIn` | app/dashboard/page.tsx:14-18 | no redirect is issued over a trace in which every render is loading or authenticated |
| `DashboardPage.LogoutRedirectsAtOnce` | app/dashboard/page.tsx:14-18 | a logout while the content is shown issues a redirect on the very next render |
| `ProfilePage.Redirect` | app/profile/page.tsx:18-22 | a redirect is issued iff not loading and not authenticated, and it goes to "/auth/login" |
| `ProfilePage.View` | app/profile/page.tsx:29-42 | loading view iff loading; content iff not loading, authenticated and a user is present; otherwise nothing |
| `ProfilePage.StricterThanDashboard` | app/profile/page.tsx:18-42 | same redirect as the dashboard; content only when the dashboard shows content; the two differ exactly on an authenticated session without a user |
| `ProfilePage.BlankWithoutRedirect` | app/profile/page.tsx:18-42 | the page is blank without redirecting exactly on an authenticated session without a user |
| `ProfilePage.InitialName` | app/profile/page.tsx:16 | the name field starts as the user's name, or "" without a user |
| `ProfilePage.ProfileForm.constructor` | app/profile/page.tsx:15-16 | starts not editing, with the initial name and no effects issued |
| `ProfilePage.ProfileForm.Rerender` | app/profile/page.tsx:15-16 | a new session user leaves the editing flag and the name field as they were |
| `ProfilePage.ProfileForm.Edit` | app/profile/page.tsx:113-117 | "Edit Profile" sets editing; nothing else changes |
| `ProfilePage.ProfileForm.ChangeName` | app/profile/page.tsx:88-92 | typing changes only the local name, never the user |
| `ProfilePage.ProfileForm.Save` | app/profile/page.tsx:100-102 | "Save Changes" clears editing and changes neither the user nor the name |
| `ProfilePage.ProfileForm.Cancel` | app/profile/page.tsx:103-105 | "Cancel" clears editing and keeps the edited name |
| `ProfilePage.ProfileForm.HandleLogout` | app/profile/page.tsx:24-27 | appends exactly a logout followed by a navigation to "/" |
| `ProfilePage.NameAfterLateUser` | app/profile/page.tsx:16 | a page first rendered without a user shows an empty name field after the user arrives |
| `ProfilePage.EditAndSave` | app/profile/page.tsx:88-102 | editing the name and saving leaves the session user unchanged and keeps the typed name local |
| `HomePage.Redirect` | app/page.tsx:12-16 | a redirect is issued iff authenticated, and it goes to "/dashboard" |
| `HomePage.View` | app/page.tsx:18-26 | never the loading view; the landing view iff not authenticated, nothing otherwise |
| `HomePage.IgnoresLoadingAndUser` | app/page.tsx:9 | the decision depends on neither isLoading nor the user record |
| `HomePage.RedirectExactlyWhenBlank` | app/page.tsx:12-20 | the page renders nothing exactly when it redirects |
| `HomePage.NoRedirectCycle` | app/page.tsx:12-20 | once loaded, exactly one of home and dashboard redirects, and the target shows its content |
| `HomePage.EffectRuns` | app/page.tsx:16 | the effect runs on the first render; when it is skipped, the redirect decision equals that of the render before |
| `HomePage.Pushes` | app/page.tsx:12-16 | over a trace of renders the guard pushes only "/dashboard", and no more times than there are renders |
| `HomePage.LoadingChangeDoesNotRerun` | app/page.tsx:16 | a render that changes only isLoading issues no new redirect |
| `HomePage.SignedInStretchPushesOnce` | app/page.tsx:12-16 | a trailing stretch of authenticated renders adds exactly one "/dashboard" push to what came before it, whatever isLoading does |
| `LoginPage.ErrorText` | app/auth/login/page.tsx:28-29 | a thrown Error gives its message; any other thrown value gives "Login failed" |
| `LoginPage.SubmitButton` | app/auth/login/page.tsx:82-89 | the button is disabled iff loading, iff it reads "Signing in..."; otherwise it reads "Sign In" |
| `LoginPage.Banner` | app/auth/login/page.tsx:54-62 | the banner is shown iff the error is non-empty, and shows the error |
| `LoginPage.FailureShowsBanner` | app/auth/login/page.tsx:54-62 | after a failure the banner shows unless the Error's message was empty |
| `LoginPage.LoginForm.constructor` | app/auth/login/page.tsx:13-16 | all fields empty, not loading, no calls or navigations |
| `LoginPage.LoginForm.SetEmail` | app/auth/login/page.tsx:69 | changes only the email field |
| `LoginPage.LoginForm.SetPassword` | app/auth/login/page.tsx:78 | changes only the password field |
| `LoginPage.LoginForm.BeginSubmit` | app/auth/login/page.tsx:20-26 | clears the error, starts loading, and calls login once with the current fields |
| `LoginPage.LoginForm.FinishSubmit` | app/auth/login/page.tsx:26-32 | success navigates to "/dashboard" and keeps the error; failure stores the error text and does not navigate; loading ends either way |
| `LoginPage.LoginForm.HandleSubmit` | app/auth/login/page.tsx:20-33 | one submit: one login call with the fields; on success error "" and one navigation to "/dashboard"; on failure the error text and no navigation; never still loading |
| `LoginPage.SubmitOnce` | app/auth/login/page.tsx:20-33 | while pending the button is disabled, reads "Signing in..." and no banner shows; afterwards it is enabled and reads "Sign In"; navigation happens iff the login succeeded |

## Left out

- The session store (login, register, logout, restore, user derivation,
  artificial delays) is not part of this model. Pages take its state as an
  `AuthSnapshot`, and the login call's result is a `LoginOutcome` parameter.
- Browser APIs are fields or logs, not implementations: local storage is a
  map, the media query a flag, the root class list a flag, and router
  navigation a list of pushed paths.
- React scheduling, re-rendering and async timing: each effect run and each
  handler is one atomic step. The theme lemmas hold for every order of
  events; specific orders are fixed only in `ToggleThenResolveFlips`,
  `SetThemeThenResolve` and `FreshLoad`. The guard traces fix when the guard
  effects run, from their dependency lists. Concurrent login
  submissions are not modelled.
- `ThemeContext.ThemeStore.Toggle` and `ThemeContext.ThemeStore.SetTheme`
  require a mounted provider. Consumers reach them only through the context
  value, which exists only after mount. In the pure traces such events before
  mount are ignored.
- Storage access never fails in the model: `storage` is a map, and reads
  and writes always succeed. In the code, `localStorage.getItem`/`setItem`
  are called without a try/catch. A throwing `setItem` in `toggleTheme` or
  `setTheme` would leave state and storage out of step. A throwing `getItem`
  would stop the mount effect before `mounted` is set. The `Inv` clause that
  storage reloads to the in-memory preference, and the storage ensures of
  `ThemeStore.Toggle`/`SetTheme`, hold only under this assumption.
  They also assume that only this provider writes the "theme" key: other
  tabs of the same origin share local storage, and the provider does not
  listen for `storage` events, so a write from another tab would leave
  state and storage out of step; the `Inv` storage clause holds only under
  this assumption.
- Browser form validation (the inputs' `required` attribute) and the browser
  refusing implicit submission while the button is disabled: the handler
  itself does not check, and the model follows the handler.
- All rendering markup: the dashboard's statistics cards, the profile card,
  the landing hero, animations and styling.
- Visual components, the error boundary, the top bar (its logout handler
  repeats the profile page's), the root layout and the constants file: they
  have no behaviour beyond markup and lookup tables.
