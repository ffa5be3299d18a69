/** The theme store of the theme provider.

    It holds a stored preference (`theme`), the resolved flag `isDark` and a
    `mounted` flag. The browser collaborators it touches are abstract fields:
    `storage` stands for the local key-value store, `docDark` for the `dark`
    class on the root element, `prefersDark` for the colour-scheme media query,
    and `listeners` / `listenerTheme` for the change subscription (the number
    of registered listeners and the preference captured by the registered one).

    The store is specified twice: as a pure transition system over
    `ThemeState` (the step functions below, which the lemmas are about), and as
    the class `ThemeStore`, whose methods change its fields step by step and
    are proved to perform exactly those steps. */
module ThemeContext {
  import opened AuthTypes

  /** The three preferences a caller of `setTheme` may pass. */
  datatype ThemeName = Light | Dark | System {
    function Name(): (s: string)
      ensures s != ""
    {
      match this
      case Light => "light"
      case Dark => "dark"
      case System => "system"
    }
  }

  /** The storage key of the persisted preference. */
  const ThemeKey: string := "theme"

  /** The preference read back on mount: the stored string when it is present
      and non-empty, otherwise "system". The stored string is not validated. */
  function LoadedTheme(storage: map<string, string>): (theme: string)
    ensures theme != ""
    ensures ThemeKey in storage && storage[ThemeKey] != "" ==> theme == storage[ThemeKey]
    ensures (ThemeKey !in storage || storage[ThemeKey] == "") ==> theme == System.Name()
  {
    if ThemeKey in storage && storage[ThemeKey] != "" then storage[ThemeKey] else System.Name()
  }

  /** The resolution rule: "system" follows the media query, "dark" is dark,
      and every other string (including "light") is light. */
  function ShouldBeDark(theme: string, prefersDark: bool): (dark: bool)
    ensures dark <==> theme == Dark.Name() || (theme == System.Name() && prefersDark)
  {
    if theme == System.Name() then prefersDark
    else if theme == Dark.Name() then true
    else false
  }

  /** The preference `toggleTheme` stores: the opposite of the resolved mode. */
  function ToggledTheme(isDark: bool): (theme: string)
    ensures theme == Light.Name() || theme == Dark.Name()
    ensures theme == Dark.Name() <==> !isDark
  {
    if isDark then Light.Name() else Dark.Name()
  }

  datatype ThemeState = ThemeState(
    theme: string,
    isDark: bool,
    mounted: bool,
    storage: map<string, string>,
    docDark: bool,
    prefersDark: bool,
    listeners: nat,
    listenerTheme: string)

  /** The provider's first render: preference "system", light, not mounted, no listener. */
  function Init(storage: map<string, string>, prefersDark: bool, docDark: bool): (s: ThemeState)
    ensures s.theme == System.Name() && !s.isDark && !s.mounted && s.listeners == 0
    ensures s.storage == storage && s.prefersDark == prefersDark && s.docDark == docDark
    ensures Inv(s)
  {
    ThemeState(System.Name(), false, false, storage, docDark, prefersDark, 0, System.Name())
  }

  /** The mount effect: load the preference and mark the provider mounted. */
  function MountStep(s: ThemeState): (r: ThemeState)
    ensures r.mounted && r.theme == LoadedTheme(s.storage)
    ensures r.(theme := s.theme, mounted := s.mounted) == s
  {
    s.(theme := LoadedTheme(s.storage), mounted := true)
  }

  /** One run of the resolution effect. Before mount it does nothing. After
      mount it removes the listener of the previous run, resolves the
      preference, sets the document class and `isDark` to the result, and
      registers a listener that captures the current preference. */
  function ResolveStep(s: ThemeState): (r: ThemeState)
    ensures !s.mounted ==> r == s
    ensures s.mounted ==> r.isDark == ShouldBeDark(s.theme, s.prefersDark) && r.docDark == r.isDark
    ensures s.mounted ==> r.listenerTheme == s.theme && r.listeners == (if s.listeners == 0 then 1 else s.listeners)
    ensures r.(isDark := s.isDark, docDark := s.docDark, listeners := s.listeners, listenerTheme := s.listenerTheme) == s
  {
    if !s.mounted then s
    else
      var dark := ShouldBeDark(s.theme, s.prefersDark);
      var kept := if s.listeners > 0 then s.listeners - 1 else 0;
      s.(isDark := dark, docDark := dark, listeners := kept + 1, listenerTheme := s.theme)
  }

  /** A colour-scheme change: the media query now answers `prefersDark`; a
      registered listener re-resolves the preference it captured. */
  function MediaChangeStep(s: ThemeState, prefersDark: bool): (r: ThemeState)
    ensures r.prefersDark == prefersDark
    ensures s.listeners == 0 ==> r.isDark == s.isDark && r.docDark == s.docDark
    ensures s.listeners > 0 ==> r.isDark == ShouldBeDark(s.listenerTheme, prefersDark) && r.docDark == r.isDark
    ensures r.(prefersDark := s.prefersDark, isDark := s.isDark, docDark := s.docDark) == s
  {
    if s.listeners == 0 then s.(prefersDark := prefersDark)
    else
      var dark := ShouldBeDark(s.listenerTheme, prefersDark);
      s.(prefersDark := prefersDark, isDark := dark, docDark := dark)
  }

  /** `toggleTheme`: store the opposite of the resolved mode, in memory and in storage. */
  function ToggleStep(s: ThemeState): (r: ThemeState)
    requires s.mounted
    ensures r.theme == ToggledTheme(s.isDark) && r.theme != System.Name()
    ensures r.storage == s.storage[ThemeKey := r.theme] && LoadedTheme(r.storage) == r.theme
    ensures r.(theme := s.theme, storage := s.storage) == s
  {
    var newTheme := ToggledTheme(s.isDark);
    s.(theme := newTheme, storage := s.storage[ThemeKey := newTheme])
  }

  /** `setTheme`: store the given preference, in memory and in storage. */
  function SetThemeStep(s: ThemeState, t: ThemeName): (r: ThemeState)
    requires s.mounted
    ensures r.theme == t.Name()
    ensures r.storage == s.storage[ThemeKey := t.Name()] && LoadedTheme(r.storage) == r.theme
    ensures r.(theme := s.theme, storage := s.storage) == s
  {
    s.(theme := t.Name(), storage := s.storage[ThemeKey := t.Name()])
  }

  /** The provider unmounts: the cleanup of the last resolution run removes its listener. */
  function UnmountStep(s: ThemeState): (r: ThemeState)
    ensures s.listeners <= 1 ==> r.listeners == 0
    ensures r.(listeners := s.listeners) == s
  {
    s.(listeners := if s.listeners > 0 then s.listeners - 1 else 0)
  }

  datatype Event = Mount | Resolve | MediaChange(prefersDark: bool) | Toggle | SetTheme(t: ThemeName) | Unmount

  /** One event. `toggleTheme` and `setTheme` are reachable only through the
      context value, which exists only after mount (see `UseTheme`); before
      mount those events are ignored. */
  function Step(s: ThemeState, e: Event): (r: ThemeState)
    ensures r.mounted == (s.mounted || e.Mount?)
    ensures !(e.Toggle? || e.SetTheme?) ==> r.storage == s.storage
    ensures !s.mounted && (e.Toggle? || e.SetTheme?) ==> r == s
  {
    match e
    case Mount => MountStep(s)
    case Resolve => ResolveStep(s)
    case MediaChange(p) => MediaChangeStep(s, p)
    case Toggle => if s.mounted then ToggleStep(s) else s
    case SetTheme(t) => if s.mounted then SetThemeStep(s, t) else s
    case Unmount => UnmountStep(s)
  }

  /** The state after a sequence of events. Once mounted, the provider stays
      mounted; without `toggleTheme` and `setTheme`, storage is never written. */
  function Run(s: ThemeState, events: seq<Event>): (r: ThemeState)
    ensures s.mounted ==> r.mounted
    ensures (forall i :: 0 <= i < |events| ==> !events[i].Toggle? && !events[i].SetTheme?) ==> r.storage == s.storage
    decreases |events|
  {
    if events == [] then s else Run(Step(s, events[0]), events[1..])
  }

  /** What holds in every reachable state: at most one listener is registered,
      and only after mount, with the document class in step with `isDark`;
      nothing is resolved before mount; and after mount, reloading the
      persisted preference gives back the in-memory one. */
  predicate Inv(s: ThemeState)
    ensures Inv(s) ==> s.theme != ""
  {
    && s.listeners <= 1
    && (s.listeners == 1 ==> s.mounted && s.docDark == s.isDark)
    && (!s.mounted ==> !s.isDark && s.theme == System.Name())
    && (s.mounted ==> LoadedTheme(s.storage) == s.theme)
  }

  /** The state right after a resolution run: the listener has captured the
      current preference and the resolved mode is applied everywhere. */
  predicate Synced(s: ThemeState)
  {
    && s.mounted
    && s.listeners == 1
    && s.listenerTheme == s.theme
    && s.isDark == ShouldBeDark(s.theme, s.prefersDark)
    && s.docDark == s.isDark
  }

  /** The value the provider hands to its consumers: none before mount. */
  datatype ThemeContextValue = ThemeContextValue(theme: string, isDark: bool)

  function Provided(s: ThemeState): (context: Option<ThemeContextValue>)
    ensures context.Some? <==> s.mounted
    ensures context.Some? ==> context.value.theme == s.theme && context.value.isDark == s.isDark
  {
    if s.mounted then Some(ThemeContextValue(s.theme, s.isDark)) else None
  }

  datatype Result<T> = Ok(value: T) | Err(message: string)

  const UseThemeError: string := "useTheme must be used within ThemeProvider"

  /** `useTheme`: the provided value, or an error when there is none. */
  function UseTheme(context: Option<ThemeContextValue>): (r: Result<ThemeContextValue>)
    ensures r.Err? <==> context.None?
    ensures r.Err? ==> r.message == UseThemeError
    ensures r.Ok? ==> r.value == context.value
  {
    match context
    case None => Err(UseThemeError)
    case Some(v) => Ok(v)
  }

  // ---------------------------------------------------------------------
  // Lemmas about the pure model

  /** Storing a non-empty preference and loading it back gives it back. */
  lemma LoadAfterStore(storage: map<string, string>, theme: string)
    requires theme != ""
    ensures LoadedTheme(storage[ThemeKey := theme]) == theme
  {
  }

  /** The media query matters only to the "system" preference. */
  lemma MediaMattersOnlyForSystem(theme: string, p: bool, q: bool)
    requires theme != System.Name()
    ensures ShouldBeDark(theme, p) == ShouldBeDark(theme, q)
  {
  }

  /** The preference `toggleTheme` stores is never "system" and resolves to
      the opposite of the mode it was computed from. */
  lemma ToggledThemeFlips(isDark: bool, prefersDark: bool)
    ensures ToggledTheme(isDark) != System.Name()
    ensures ShouldBeDark(ToggledTheme(isDark), prefersDark) == !isDark
  {
  }

  lemma StepPreservesInv(s: ThemeState, e: Event)
    requires Inv(s)
    ensures Inv(Step(s, e))
  {
  }

  /** Every state reached from a state satisfying `Inv` satisfies it. */
  lemma {:induction false} RunPreservesInv(s: ThemeState, events: seq<Event>)
    requires Inv(s)
    ensures Inv(Run(s, events))
    decreases |events|
  {
    if events != [] {
      StepPreservesInv(s, events[0]);
      RunPreservesInv(Step(s, events[0]), events[1..]);
    }
  }

  /** From the provider's first render, whatever happens: at most one change
      listener is ever registered, the document class agrees with `isDark`
      while one is, the mode stays light until mount, and the persisted
      preference always reloads to the in-memory one. */
  lemma ReachableStatesSatisfyInv(storage: map<string, string>, prefersDark: bool, docDark: bool, events: seq<Event>)
    ensures Inv(Run(Init(storage, prefersDark, docDark), events))
  {
    RunPreservesInv(Init(storage, prefersDark, docDark), events);
  }

  /** A resolution run after mount leaves the store in step. */
  lemma ResolveSyncs(s: ThemeState)
    requires Inv(s) && s.mounted
    ensures Synced(ResolveStep(s))
    ensures ResolveStep(s).theme == s.theme && ResolveStep(s).storage == s.storage
  {
  }

  /** Toggling and then re-running the resolution flips `isDark`, never selects
      "system", and leaves storage and state in agreement. */
  lemma ToggleThenResolveFlips(s: ThemeState)
    requires s.mounted
    ensures var t := ResolveStep(ToggleStep(s));
      && t.isDark == !s.isDark
      && t.docDark == t.isDark
      && t.theme != System.Name()
      && ThemeKey in t.storage && t.storage[ThemeKey] == t.theme
  {
  }

  /** `setTheme` followed by re-resolution applies the rule to the new preference. */
  lemma SetThemeThenResolve(s: ThemeState, t: ThemeName)
    requires Inv(s) && s.mounted
    ensures var u := ResolveStep(SetThemeStep(s, t));
      && u.theme == t.Name()
      && ThemeKey in u.storage && u.storage[ThemeKey] == t.Name()
      && u.isDark == (t == Dark || (t == System && s.prefersDark))
      && Synced(u)
  {
  }

  /** Any run of colour-scheme changes keeps an in-step store in step and
      changes neither the preference nor storage; `isDark` moves only under
      the "system" preference. */
  lemma {:induction false} MediaChangesKeepSync(s: ThemeState, events: seq<Event>)
    requires Synced(s)
    requires forall i :: 0 <= i < |events| ==> events[i].MediaChange?
    ensures Synced(Run(s, events))
    ensures Run(s, events).theme == s.theme && Run(s, events).storage == s.storage
    ensures s.theme != System.Name() ==> Run(s, events).isDark == s.isDark
    ensures s.theme == System.Name() ==> Run(s, events).isDark == Run(s, events).prefersDark
    decreases |events|
  {
    if events != [] {
      var next := Step(s, events[0]);
      if s.theme != System.Name() {
        MediaMattersOnlyForSystem(s.theme, s.prefersDark, events[0].prefersDark);
      }
      assert Synced(next);
      assert forall i :: 0 <= i < |events[1..]| ==> events[1..][i] == events[i + 1];
      MediaChangesKeepSync(next, events[1..]);
    }
  }

  /** A fresh load with nothing persisted ends on "system", following the media query. */
  lemma FreshLoad(storage: map<string, string>, prefersDark: bool, docDark: bool)
    requires ThemeKey !in storage
    ensures var s := Run(Init(storage, prefersDark, docDark), [Mount, Resolve]);
      s.theme == System.Name() && s.isDark == prefersDark && s.docDark == prefersDark && s.listeners == 1
  {
  }

  /** A preference chosen with `setTheme` survives a restart: a fresh provider
      over the storage it wrote loads and resolves that preference. */
  lemma SetThemeSurvivesReload(s: ThemeState, t: ThemeName, prefersDark: bool, docDark: bool)
    requires s.mounted
    ensures var r := Run(Init(SetThemeStep(s, t).storage, prefersDark, docDark), [Mount, Resolve]);
      r.theme == t.Name() && (t == Dark ==> r.isDark) && (t == Light ==> !r.isDark)
  {
  }

  /** Consumers get an error exactly while the provider has not mounted. */
  lemma UseThemeFailsBeforeMount(s: ThemeState)
    ensures UseTheme(Provided(s)).Err? <==> !s.mounted
    ensures s.mounted ==> UseTheme(Provided(s)) == Ok(ThemeContextValue(s.theme, s.isDark))
  {
  }

  // ---------------------------------------------------------------------
  // The provider's state as an object whose fields change in place

  class ThemeStore {
    var theme: string
    var isDark: bool
    var mounted: bool
    var storage: map<string, string>
    var docDark: bool
    var prefersDark: bool
    var listeners: nat
    var listenerTheme: string

    function State(): ThemeState
      reads this
    {
      ThemeState(theme, isDark, mounted, storage, docDark, prefersDark, listeners, listenerTheme)
    }

    ghost predicate Valid()
      reads this
    {
      Inv(State())
    }

    constructor (storage0: map<string, string>, prefersDark0: bool, docDark0: bool)
      ensures Valid()
      ensures State() == Init(storage0, prefersDark0, docDark0)
    {
      theme := System.Name();
      isDark := false;
      mounted := false;
      storage := storage0;
      docDark := docDark0;
      prefersDark := prefersDark0;
      listeners := 0;
      listenerTheme := System.Name();
    }

    method Mount()
      requires Valid()
      modifies this
      ensures Valid()
      ensures State() == MountStep(old(State()))
      ensures mounted && theme == LoadedTheme(storage)
    {
      var saved := if ThemeKey in storage then storage[ThemeKey] else "";
      theme := if saved != "" then saved else System.Name();
      mounted := true;
    }

    method Resolve()
      requires Valid()
      modifies this
      ensures Valid()
      ensures State() == ResolveStep(old(State()))
      ensures mounted ==> Synced(State())
    {
      if !mounted {
        return;
      }
      if listeners > 0 {
        listeners := listeners - 1;
      }
      var shouldBeDark := ShouldBeDark(theme, prefersDark);
      if shouldBeDark {
        docDark := true;
      } else {
        docDark := false;
      }
      isDark := shouldBeDark;
      listeners := listeners + 1;
      listenerTheme := theme;
    }

    method OnMediaChange(matches: bool)
      requires Valid()
      modifies this
      ensures Valid()
      ensures State() == MediaChangeStep(old(State()), matches)
      ensures old(Synced(State())) ==> Synced(State())
    {
      prefersDark := matches;
      if listeners > 0 {
        var shouldBeDark := ShouldBeDark(listenerTheme, prefersDark);
        if shouldBeDark {
          docDark := true;
        } else {
          docDark := false;
        }
        isDark := shouldBeDark;
      }
    }

    method Toggle()
      requires Valid() && mounted
      modifies this
      ensures Valid()
      ensures State() == ToggleStep(old(State()))
      ensures theme == (if old(isDark) then Light.Name() else Dark.Name())
      ensures ThemeKey in storage && storage[ThemeKey] == theme
    {
      var newTheme := if isDark then Light.Name() else Dark.Name();
      theme := newTheme;
      storage := storage[ThemeKey := newTheme];
      LoadAfterStore(old(storage), newTheme);
    }

    method SetTheme(newTheme: ThemeName)
      requires Valid() && mounted
      modifies this
      ensures Valid()
      ensures State() == SetThemeStep(old(State()), newTheme)
      ensures theme == newTheme.Name()
      ensures ThemeKey in storage && storage[ThemeKey] == theme
    {
      theme := newTheme.Name();
      storage := storage[ThemeKey := newTheme.Name()];
      LoadAfterStore(old(storage), newTheme.Name());
    }

    method Unmount()
      requires Valid()
      modifies this
      ensures Valid()
      ensures State() == UnmountStep(old(State()))
      ensures listeners == 0
    {
      if listeners > 0 {
        listeners := listeners - 1;
      }
    }
  }
}
