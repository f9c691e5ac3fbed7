/**
 * The light/dark theme switch. The theme is kept in `currentTheme`, shown by the
 * `light-theme` class on the body, the toggle icon, the `theme-color` meta tag and the
 * header colours, and persisted under the local-storage key `portfolio-theme` whenever the
 * user toggles it.
 */
module Theme {
  import opened Wrappers

  const Dark: string := "dark"
  const Light: string := "light"
  const StorageKey: string := "portfolio-theme"
  const SunIcon: string := "☀️"
  const MoonIcon: string := "🌙"
  const LightMetaColor: string := "#ffffff"
  const DarkMetaColor: string := "#000000"
  /** The header counts as scrolled once `scrollY` is strictly above this. */
  const ScrollThreshold: real := 100.0

  datatype HeaderStyle = HeaderStyle(background: string, borderBottomColor: string)

  /** Which of `#themeToggle`, `.theme-icon`, `header` and `meta[name="theme-color"]` the
      page contains. */
  datatype Elements = Elements(hasToggle: bool, hasIcon: bool, hasHeader: bool, hasMeta: bool)

  datatype ThemeState = ThemeState(
    bound: bool,                 // the click and colour-scheme listeners are registered
    initThrew: bool,             // init stopped with an uncaught TypeError
    stored: Option<string>,      // local storage under StorageKey
    currentTheme: string,
    bodyLight: bool,             // `light-theme` in the class list of the body
    icon: string,                // text of the theme icon
    metaColor: string,           // content of the theme-color meta tag
    header: Option<HeaderStyle>, // inline header colours; None while unset
    scrollY: real)               // window.scrollY

  /** A stored value counts only when it is a non-empty string (JavaScript truthiness). */
  predicate HasPreference(stored: Option<string>)
  {
    stored.Some? && stored.value != ""
  }

  /** `localStorage.getItem('portfolio-theme') || 'dark'`. */
  function StartTheme(stored: Option<string>): (t: string)
    ensures t != ""
    ensures HasPreference(stored) ==> t == stored.value
    ensures !HasPreference(stored) ==> t == Dark
  {
    if HasPreference(stored) then stored.value else Dark
  }

  /** The theme `toggle` switches to: light from dark, and dark from anything else. */
  function Flip(t: string): (r: string)
    ensures r == Dark || r == Light
    ensures r == Light <==> t == Dark
  {
    if t == Dark then Light else Dark
  }

  function IconFor(theme: string): string
  {
    if theme == Light then SunIcon else MoonIcon
  }

  function MetaColorFor(theme: string): string
  {
    if theme == Light then LightMetaColor else DarkMetaColor
  }

  /** `updateHeaderColors`' fixed table, keyed by "scrolled past the threshold" and by the
      body's light class. */
  function HeaderColors(scrolled: bool, light: bool): HeaderStyle
  {
    if scrolled then
      if light then HeaderStyle("rgba(255, 255, 255, 0.98)", "rgba(0, 0, 0, 0.1)")
      else HeaderStyle("rgba(0, 0, 0, 0.98)", "rgba(255, 255, 255, 0.1)")
    else
      if light then HeaderStyle("rgba(255, 255, 255, 0.9)", "rgba(0, 0, 0, 0.05)")
      else HeaderStyle("rgba(0, 0, 0, 0.9)", "rgba(255, 255, 255, 0.05)")
  }

  /** The header shows the colours of the current scroll position and body class. */
  ghost predicate HeaderCurrent(s: ThemeState, el: Elements)
  {
    el.hasHeader ==> s.header == Some(HeaderColors(s.scrollY > ScrollThreshold, s.bodyLight))
  }

  /** Everything the page shows agrees with `currentTheme`. */
  ghost predicate Shows(s: ThemeState, el: Elements)
  {
    && (s.bodyLight <==> s.currentTheme == Light)
    && s.icon == IconFor(s.currentTheme)
    && (el.hasMeta ==> s.metaColor == MetaColorFor(s.currentTheme))
    && HeaderCurrent(s, el)
  }

  /** `updateHeaderColors`: a no-op without a header. */
  function HeaderUpdated(s: ThemeState, el: Elements): (r: ThemeState)
    ensures HeaderCurrent(r, el)
    ensures !el.hasHeader ==> r == s
    ensures r.(header := s.header) == s
  {
    if el.hasHeader then s.(header := Some(HeaderColors(s.scrollY > ScrollThreshold, s.bodyLight)))
    else s
  }

  /** `applyTheme(theme)`: record the theme, set or clear the body class, then the icon,
      the meta colour (if the tag exists) and the header colours. Without the icon element
      the icon write throws right after the body class was set. Storage is never written. */
  function Applied(s: ThemeState, el: Elements, theme: string): (r: ThemeState)
    ensures r.currentTheme == theme && (r.bodyLight <==> theme == Light)
    ensures el.hasIcon ==> Shows(r, el)
    ensures !el.hasIcon ==> r == s.(currentTheme := theme, bodyLight := theme == Light)
    ensures !el.hasMeta ==> r.metaColor == s.metaColor
    ensures r.stored == s.stored && r.scrollY == s.scrollY
    ensures r.bound == s.bound && r.initThrew == s.initThrew
  {
    var marked := s.(currentTheme := theme, bodyLight := theme == Light);
    if !el.hasIcon then marked
    else
      var shown := marked.(icon := IconFor(theme),
                           metaColor := if el.hasMeta then MetaColorFor(theme) else s.metaColor);
      HeaderUpdated(shown, el)
  }

  /** `toggle`: flip the theme, apply it and persist it, so that afterwards storage holds
      the current theme. If applying throws (no icon element), nothing is persisted. */
  function Toggled(s: ThemeState, el: Elements): (r: ThemeState)
    ensures r.currentTheme == Flip(s.currentTheme)
    ensures el.hasIcon ==> r.stored == Some(r.currentTheme) && Shows(r, el)
    ensures !el.hasIcon ==> r.stored == s.stored
    ensures r.bound == s.bound && r.scrollY == s.scrollY
  {
    var theme := Flip(s.currentTheme);
    var applied := Applied(s, el, theme);
    if el.hasIcon then applied.(stored := Some(theme)) else applied
  }

  /** The `prefers-color-scheme: dark` change listener: the system scheme is applied only
      while storage holds no preference, and storage is never written. */
  function SchemeChanged(s: ThemeState, el: Elements, matchesDark: bool): (r: ThemeState)
    ensures r.stored == s.stored
    ensures HasPreference(s.stored) || !s.bound ==> r == s
    ensures s.bound && !HasPreference(s.stored) ==>
              r == Applied(s, el, if matchesDark then Dark else Light)
  {
    if s.bound && !HasPreference(s.stored) then Applied(s, el, if matchesDark then Dark else Light)
    else s
  }

  /** The page's scroll listener: the window scrolls to `y`, then the header is recoloured. */
  function Scrolled(s: ThemeState, el: Elements, y: real): (r: ThemeState)
    ensures r.scrollY == y && HeaderCurrent(r, el)
    ensures r.(scrollY := s.scrollY, header := s.header) == s
  {
    HeaderUpdated(s.(scrollY := y), el)
  }

  /** The state after `new ThemeToggle()`: the start theme is read from storage, and init,
      when the toggle button exists, applies it; the listeners are registered only if that
      did not throw. Neither step writes storage. */
  function Initial(el: Elements, stored0: Option<string>, bodyLight0: bool, icon0: string,
                   meta0: string, scrollY0: real): (s: ThemeState)
    ensures s.stored == stored0
    ensures s.currentTheme == StartTheme(stored0)
    ensures s.bound <==> el.hasToggle && el.hasIcon
    ensures s.initThrew <==> el.hasToggle && !el.hasIcon
    ensures s.bound ==> Shows(s, el)
    ensures !el.hasToggle ==> s.bodyLight == bodyLight0 && s.icon == icon0 && s.header == None
    ensures s.scrollY == scrollY0
  {
    var blank := ThemeState(false, false, stored0, StartTheme(stored0), bodyLight0, icon0, meta0, None, scrollY0);
    if !el.hasToggle then blank
    else Applied(blank, el, blank.currentTheme).(bound := el.hasIcon, initThrew := !el.hasIcon)
  }

  /** The inputs the component reacts to. */
  datatype Event =
    | ToggleClick
    | SchemeChange(matchesDark: bool)
    | Scroll(y: real)

  function Step(s: ThemeState, el: Elements, e: Event): ThemeState
  {
    match e
    case ToggleClick => if s.bound then Toggled(s, el) else s
    case SchemeChange(m) => SchemeChanged(s, el, m)
    // the page registers its scroll listener only after the constructor returned
    case Scroll(y) => if s.initThrew then s.(scrollY := y) else Scrolled(s, el, y)
  }

  function Run(s: ThemeState, el: Elements, evs: seq<Event>): ThemeState
    decreases |evs|
  {
    if evs == [] then s else Run(Step(s, el, evs[0]), el, evs[1..])
  }

  /** What holds of every state the component can reach. */
  ghost predicate Inv(s: ThemeState, el: Elements)
  {
    && (s.bound ==> el.hasToggle && el.hasIcon && Shows(s, el))
    && (HasPreference(s.stored) ==> s.currentTheme == s.stored.value)
    && (s.header.Some? ==> el.hasHeader && HeaderCurrent(s, el))
    && (s.initThrew ==> !s.bound && s.header == None)
  }

  lemma InitialInv(el: Elements, stored0: Option<string>, bodyLight0: bool, icon0: string,
                   meta0: string, scrollY0: real)
    ensures Inv(Initial(el, stored0, bodyLight0, icon0, meta0, scrollY0), el)
  {
  }

  lemma StepInv(s: ThemeState, el: Elements, e: Event)
    requires Inv(s, el)
    ensures Inv(Step(s, el, e), el)
  {
  }

  /** Whatever the user and the system do, a stored preference is the theme in force, and
      once bound the page shows that theme. */
  lemma {:induction false} RunInv(s: ThemeState, el: Elements, evs: seq<Event>)
    requires Inv(s, el)
    ensures Inv(Run(s, el, evs), el)
    decreases |evs|
  {
    if evs != [] {
      StepInv(s, el, evs[0]);
      RunInv(Step(s, el, evs[0]), el, evs[1..]);
    }
  }

  /** When the constructor threw, the page never reaches its scroll listener, so the header
      never gets inline colours, whatever happens afterwards. */
  lemma ThrownInitNeverColoursHeader(el: Elements, stored0: Option<string>, bodyLight0: bool,
                                     icon0: string, meta0: string, scrollY0: real, evs: seq<Event>)
    requires el.hasToggle && !el.hasIcon
    ensures Run(Initial(el, stored0, bodyLight0, icon0, meta0, scrollY0), el, evs).header == None
  {
    InitialInv(el, stored0, bodyLight0, icon0, meta0, scrollY0);
    ThrownStaysThrown(Initial(el, stored0, bodyLight0, icon0, meta0, scrollY0), el, evs);
  }

  /** A toggle whose construction threw has no listeners: events change at most the
      scroll position. */
  lemma {:induction false} ThrownStaysThrown(s: ThemeState, el: Elements, evs: seq<Event>)
    requires Inv(s, el) && s.initThrew
    ensures var r := Run(s, el, evs);
            r.initThrew && r.header == None && r.(scrollY := s.scrollY) == s
    decreases |evs|
  {
    if evs != [] {
      var next := Step(s, el, evs[0]);
      assert next.(scrollY := s.scrollY) == s;
      StepInv(s, el, evs[0]);
      ThrownStaysThrown(next, el, evs[1..]);
    }
  }

  /** Toggling twice restores the theme and everything shown; what remains is the stored
      preference, which now names that theme. */
  lemma ToggleTwiceRestores(s: ThemeState, el: Elements)
    requires Inv(s, el) && s.bound
    requires s.currentTheme == Dark || s.currentTheme == Light
    ensures Toggled(Toggled(s, el), el) == s.(stored := Some(s.currentTheme))
  {
    var once := Toggled(s, el);
    var twice := Toggled(once, el);
    assert twice.currentTheme == s.currentTheme;
    assert twice.bodyLight == s.bodyLight;
    assert twice.icon == s.icon;
    assert twice.metaColor == s.metaColor;
  }

  /** A theme other than dark or light (an odd stored value) toggles to dark. */
  lemma ToggleFromUnknownTheme(s: ThemeState, el: Elements)
    requires s.currentTheme != Dark && s.currentTheme != Light
    ensures Toggled(s, el).currentTheme == Dark
  {
  }

  /** Once the user has toggled, system colour-scheme changes are ignored for good. */
  lemma SchemeIgnoredAfterToggle(s: ThemeState, el: Elements, m: bool)
    requires Inv(s, el) && s.bound
    ensures var t := Step(s, el, ToggleClick);
            SchemeChanged(t, el, m) == t
  {
  }

  /** The four header colour pairs are pairwise different: each combination of scroll
      position and theme has its own. */
  lemma HeaderColorsDistinct(scrolled1: bool, light1: bool, scrolled2: bool, light2: bool)
    requires scrolled1 != scrolled2 || light1 != light2
    ensures HeaderColors(scrolled1, light1) != HeaderColors(scrolled2, light2)
  {
  }

  class ThemeToggle {
    const el: Elements
    var bound: bool
    var initThrew: bool
    var stored: Option<string>
    var currentTheme: string
    var bodyLight: bool
    var icon: string
    var metaColor: string
    var header: Option<HeaderStyle>
    var scrollY: real

    function Model(): ThemeState
      reads this
    {
      ThemeState(bound, initThrew, stored, currentTheme, bodyLight, icon, metaColor, header, scrollY)
    }

    ghost predicate Valid()
      reads this
    {
      Inv(Model(), el)
    }

    /** `stored0` is what local storage holds, and the other arguments what the page shows,
        before the script runs. */
    constructor (el: Elements, stored0: Option<string>, bodyLight0: bool, icon0: string,
                 meta0: string, scrollY0: real)
      ensures this.el == el && Model() == Initial(el, stored0, bodyLight0, icon0, meta0, scrollY0)
      ensures Valid()
    {
      this.el := el;
      bound, initThrew := false, false;
      stored := stored0;
      currentTheme := StartTheme(stored0);
      bodyLight, icon, metaColor, header, scrollY := bodyLight0, icon0, meta0, None, scrollY0;
      new;
      InitialInv(el, stored0, bodyLight0, icon0, meta0, scrollY0);
      if el.hasToggle {
        var ok := ApplyTheme(currentTheme);
        bound, initThrew := ok, !ok;
      }
    }

    method UpdateHeaderColors()
      modifies this
      ensures Model() == HeaderUpdated(old(Model()), el)
    {
      if el.hasHeader {
        header := Some(HeaderColors(scrollY > ScrollThreshold, bodyLight));
      }
    }

    /** applyTheme; `ok` is false when the missing icon element made it throw. */
    method ApplyTheme(theme: string) returns (ok: bool)
      modifies this
      ensures ok == el.hasIcon
      ensures Model() == Applied(old(Model()), el, theme)
    {
      currentTheme := theme;
      bodyLight := theme == Light;
      ok := el.hasIcon;
      if !ok {
        return;
      }
      icon := IconFor(theme);
      if el.hasMeta {
        metaColor := MetaColorFor(theme);
      }
      UpdateHeaderColors();
    }

    method Toggle() returns (ok: bool)
      modifies this
      ensures ok == el.hasIcon
      ensures Model() == Toggled(old(Model()), el)
    {
      var theme := if currentTheme == Dark then Light else Dark;
      ok := ApplyTheme(theme);
      if ok {
        stored := Some(currentTheme);
      }
    }

    method OnToggleClick()
      requires Valid()
      modifies this
      ensures Valid() && Model() == Step(old(Model()), el, ToggleClick)
    {
      StepInv(Model(), el, ToggleClick);
      if bound {
        var _ := Toggle();
      }
    }

    method OnSchemeChange(matchesDark: bool)
      requires Valid()
      modifies this
      ensures Valid() && Model() == Step(old(Model()), el, SchemeChange(matchesDark))
    {
      StepInv(Model(), el, SchemeChange(matchesDark));
      if bound && !HasPreference(stored) {
        var _ := ApplyTheme(if matchesDark then Dark else Light);
      }
    }

    method OnScroll(y: real)
      requires Valid()
      modifies this
      ensures Valid() && Model() == Step(old(Model()), el, Scroll(y))
    {
      StepInv(Model(), el, Scroll(y));
      scrollY := y;
      if !initThrew {
        UpdateHeaderColors();
      }
    }
  }
}
