/**
 * The theme store: a light/dark value mirrored into `localStorage` and onto
 * the document root (the `dark` class, `data-theme`, `data-font-size`).
 *
 * The value is a `string`: the source casts `themeMode as Theme` and
 * `stored as Theme`, so whatever the API or the storage holds becomes the
 * theme. The platform's dark-mode signal is the input `prefersDark`, the
 * preferences API call is the input `fetch` and the `JSON.parse` of the
 * stored `auth` entry is the input `parseAuth`.
 */
module Theme {
  import opened Wrappers
  import opened Js
  import opened Storage

  const Light := "light"
  const Dark := "dark"
  const System := "system"
  const Blue := "blue"
  const Medium := "medium"

  const ThemeKey := "theme"
  const ThemeColorKey := "themeColor"
  const FontSizeKey := "fontSize"
  const AuthKey := "auth"

  /** The new value `toggle` computes: dark after light, light after anything else. */
  function Toggled(current: string): (next: string)
    ensures next == Light || next == Dark
    ensures next == Dark <==> current == Light
  {
    if current == Light then Dark else Light
  }

  /** On the two themes `toggle` is an involution; any other value becomes light. */
  lemma ToggleTwice(t: string)
    ensures t == Light || t == Dark ==> Toggled(Toggled(t)) == t
    ensures t != Light && t != Dark ==> Toggled(t) == Light && Toggled(Toggled(t)) == Dark
  {
  }

  /** The three attributes of the document root the store writes. */
  datatype Dom = Dom(dark: bool, dataTheme: Option<string>, dataFontSize: Option<string>)

  /** The store's value together with the document root. */
  datatype Appearance = Appearance(theme: string, dom: Dom)

  /** The parts of `response.data` that `init` reads. */
  datatype Preferences = Preferences(themeMode: Option<string>, themeColor: Option<string>, fontSize: Option<string>)

  /** What `JSON.parse` of the `auth` entry yields when it does not throw: `null`, or an object with an optional `token`. */
  datatype AuthBlob = AuthNull | AuthObject(token: Option<string>)

  /** The platform default: `prefersDark ? 'dark' : 'light'`. */
  function SystemTheme(prefersDark: bool): (t: string)
    ensures t == Light || t == Dark
    ensures t == Dark <==> prefersDark
  {
    if prefersDark then Dark else Light
  }

  /** The theme the API branch applies: a missing mode means `system`, which follows the platform. */
  function ResolveMode(mode: Option<string>, prefersDark: bool): (t: string)
    ensures !Truthy(mode) || mode.value == System ==> t == SystemTheme(prefersDark)
    ensures Truthy(mode) && mode.value != System ==> t == mode.value
  {
    var m := OrDefault(mode, System);
    if m == System then SystemTheme(prefersDark) else m
  }

  /** The API branch: theme, `dark` class, `data-theme` unless the colour is blue, `data-font-size` always. */
  function ApplyPreferences(p: Preferences, prefersDark: bool, a: Appearance): (r: Appearance)
    ensures r.theme == ResolveMode(p.themeMode, prefersDark)
    ensures r.dom.dark <==> r.theme == Dark
    ensures Truthy(p.themeColor) && p.themeColor.value != Blue ==> r.dom.dataTheme == p.themeColor
    ensures !(Truthy(p.themeColor) && p.themeColor.value != Blue) ==> r.dom.dataTheme == a.dom.dataTheme
    ensures Truthy(p.fontSize) ==> r.dom.dataFontSize == p.fontSize
    ensures !Truthy(p.fontSize) ==> r.dom.dataFontSize == Some(Medium)
  {
    var theme := ResolveMode(p.themeMode, prefersDark);
    var color := OrDefault(p.themeColor, Blue);
    Appearance(theme, Dom(theme == Dark,
                          if color != Blue then Some(color) else a.dom.dataTheme,
                          Some(OrDefault(p.fontSize, Medium))))
  }

  /**
   * The preferences the API branch obtains, or None when `init` falls back:
   * no truthy `auth` entry, a parse that throws, a `null` entry (its
   * destructuring throws), no truthy token, or a call that rejects.
   */
  function ApiPreferences(local: map<string, string>, parseAuth: string -> Option<AuthBlob>,
                          fetch: string -> Option<Preferences>): (r: Option<Preferences>)
    ensures !Truthy(Get(local, AuthKey)) ==> r == None
    ensures r.Some? ==>
      && Truthy(Get(local, AuthKey))
      && parseAuth(local[AuthKey]).Some?
      && parseAuth(local[AuthKey]).value.AuthObject?
      && Truthy(parseAuth(local[AuthKey]).value.token)
      && r == fetch(parseAuth(local[AuthKey]).value.token.value)
    ensures Truthy(Get(local, AuthKey)) && parseAuth(local[AuthKey]).Some?
            && parseAuth(local[AuthKey]).value.AuthObject? && Truthy(parseAuth(local[AuthKey]).value.token) ==>
      r == fetch(parseAuth(local[AuthKey]).value.token.value)
  {
    var authData := Get(local, AuthKey);
    if !Truthy(authData) then None
    else
      match parseAuth(authData.value)
      case None => None
      case Some(AuthNull) => None
      case Some(AuthObject(token)) => if Truthy(token) then fetch(token.value) else None
  }

  /** The fallback branch: stored theme or the platform default; stored colour unless blue; stored font size or medium. */
  function FallbackAppearance(local: map<string, string>, prefersDark: bool, a: Appearance): (r: Appearance)
    ensures Truthy(Get(local, ThemeKey)) ==> r.theme == local[ThemeKey]
    ensures !Truthy(Get(local, ThemeKey)) ==> r.theme == SystemTheme(prefersDark)
    ensures r.dom.dark <==> r.theme == Dark
    ensures var c := Get(local, ThemeColorKey);
            if Truthy(c) && c.value != Blue then r.dom.dataTheme == c else r.dom.dataTheme == a.dom.dataTheme
    ensures Truthy(Get(local, FontSizeKey)) ==> r.dom.dataFontSize == Get(local, FontSizeKey)
    ensures !Truthy(Get(local, FontSizeKey)) ==> r.dom.dataFontSize == Some(Medium)
  {
    var stored := Get(local, ThemeKey);
    var theme := if Truthy(stored) then stored.value else SystemTheme(prefersDark);
    var color := Get(local, ThemeColorKey);
    Appearance(theme, Dom(theme == Dark,
                          if Truthy(color) && color.value != Blue then color else a.dom.dataTheme,
                          Some(OrDefault(Get(local, FontSizeKey), Medium))))
  }

  /** `init`: nothing outside the browser; the API branch when it completes; otherwise the fallback. */
  function InitAppearance(browser: bool, local: map<string, string>, prefersDark: bool,
                          parseAuth: string -> Option<AuthBlob>, fetch: string -> Option<Preferences>,
                          a: Appearance): (r: Appearance)
    ensures !browser ==> r == a
    ensures browser && ApiPreferences(local, parseAuth, fetch).Some? ==>
      r == ApplyPreferences(ApiPreferences(local, parseAuth, fetch).value, prefersDark, a)
    ensures browser && ApiPreferences(local, parseAuth, fetch).None? ==>
      r == FallbackAppearance(local, prefersDark, a)
  {
    if !browser then a
    else
      match ApiPreferences(local, parseAuth, fetch)
      case Some(p) => ApplyPreferences(p, prefersDark, a)
      case None => FallbackAppearance(local, prefersDark, a)
  }

  /**
   * The branches exclude each other: once the API branch completes, none of
   * the fallback keys (`theme`, `themeColor`, `fontSize`) is consulted.
   */
  lemma ApiBranchIgnoresFallbackKeys(local: map<string, string>, local': map<string, string>, prefersDark: bool,
                                     parseAuth: string -> Option<AuthBlob>, fetch: string -> Option<Preferences>,
                                     a: Appearance)
    requires ApiPreferences(local, parseAuth, fetch).Some?
    requires Get(local', AuthKey) == Get(local, AuthKey)
    ensures InitAppearance(true, local, prefersDark, parseAuth, fetch, a)
         == InitAppearance(true, local', prefersDark, parseAuth, fetch, a)
  {
  }

  /** Without a truthy `auth` entry `init` always takes the fallback branch, whatever the API would answer. */
  lemma NoAuthEntryFallsBack(local: map<string, string>, prefersDark: bool,
                             parseAuth: string -> Option<AuthBlob>, fetch: string -> Option<Preferences>,
                             a: Appearance)
    requires !Truthy(Get(local, AuthKey))
    ensures InitAppearance(true, local, prefersDark, parseAuth, fetch, a) == FallbackAppearance(local, prefersDark, a)
  {
  }

  /** The document root. */
  class DocumentElement {
    var dark: bool
    var dataTheme: Option<string>
    var dataFontSize: Option<string>

    constructor (d: Dom)
      ensures Current() == d
    {
      dark, dataTheme, dataFontSize := d.dark, d.dataTheme, d.dataFontSize;
    }

    function Current(): Dom
      reads this
    {
      Dom(dark, dataTheme, dataFontSize)
    }

    /** `classList.toggle('dark', force)`. */
    method ToggleDark(force: bool)
      modifies this
      ensures Current() == old(Current()).(dark := force)
    {
      dark := force;
    }

    /** `setAttribute('data-theme', value)`. */
    method SetDataTheme(value: string)
      modifies this
      ensures Current() == old(Current()).(dataTheme := Some(value))
    {
      dataTheme := Some(value);
    }

    /** `setAttribute('data-font-size', value)`. */
    method SetDataFontSize(value: string)
      modifies this
      ensures Current() == old(Current()).(dataFontSize := Some(value))
    {
      dataFontSize := Some(value);
    }
  }

  /** The store object: `browser`, the durable storage, the document root and the writable's value. */
  class ThemeStore {
    const browser: bool
    const local: WebStorage
    const root: DocumentElement
    var theme: string

    ghost function Current(): Appearance
      reads this, root
    {
      Appearance(theme, root.Current())
    }

    /** `createThemeStore()`: the writable starts at light. */
    constructor (browser: bool, local: WebStorage, root: DocumentElement)
      ensures this.browser == browser && this.local == local && this.root == root
      ensures theme == Light
    {
      this.browser := browser;
      this.local := local;
      this.root := root;
      theme := Light;
    }

    /** `toggle`: flips the value; in the browser also stores it and sets the `dark` class to match. */
    method Toggle()
      modifies this, local, root
      ensures theme == Toggled(old(theme))
      ensures browser ==> local.items == old(local.items)[ThemeKey := theme]
      ensures browser ==> root.Current() == old(root.Current()).(dark := theme == Dark)
      ensures !browser ==> local.items == old(local.items) && root.Current() == old(root.Current())
    {
      var newTheme := if theme == Light then Dark else Light;
      if browser {
        local.SetItem(ThemeKey, newTheme);
        root.ToggleDark(newTheme == Dark);
      }
      theme := newTheme;
    }

    /** `init`; it never writes storage. */
    method Init(prefersDark: bool, parseAuth: string -> Option<AuthBlob>, fetch: string -> Option<Preferences>)
      modifies this, root
      ensures Current() == InitAppearance(browser, local.items, prefersDark, parseAuth, fetch, old(Current()))
    {
      if !browser {
        return;
      }
      // The try block: `prefs` is set only when every step up to the API response succeeds.
      var prefs: Option<Preferences> := None;
      var authData := Get(local.items, AuthKey);
      if Truthy(authData) {
        var parsed := parseAuth(authData.value);
        if parsed.Some? && parsed.value.AuthObject? {
          var token := parsed.value.token;
          if Truthy(token) {
            prefs := fetch(token.value);
          }
        }
      }
      assert prefs == ApiPreferences(local.items, parseAuth, fetch);
      if prefs.Some? {
        ApplyApiPreferences(prefs.value, prefersDark);
        return;
      }
      ApplyStoredPreferences(prefersDark);
    }

    /** The effects of the API branch, in the order `init` performs them. */
    method ApplyApiPreferences(p: Preferences, prefersDark: bool)
      modifies this, root
      ensures Current() == ApplyPreferences(p, prefersDark, old(Current()))
    {
      var themeMode := OrDefault(p.themeMode, System);
      var appliedTheme := if themeMode == System then SystemTheme(prefersDark) else themeMode;
      theme := appliedTheme;
      root.ToggleDark(appliedTheme == Dark);
      var themeColor := OrDefault(p.themeColor, Blue);
      if themeColor != Blue {
        root.SetDataTheme(themeColor);
      }
      root.SetDataFontSize(OrDefault(p.fontSize, Medium));
    }

    /** The effects of the fallback to local storage. */
    method ApplyStoredPreferences(prefersDark: bool)
      modifies this, root
      ensures Current() == FallbackAppearance(local.items, prefersDark, old(Current()))
    {
      var stored := Get(local.items, ThemeKey);
      var fallbackTheme := if Truthy(stored) then stored.value else SystemTheme(prefersDark);
      theme := fallbackTheme;
      root.ToggleDark(fallbackTheme == Dark);
      var storedColor := Get(local.items, ThemeColorKey);
      if Truthy(storedColor) && storedColor.value != Blue {
        root.SetDataTheme(storedColor.value);
      }
      root.SetDataFontSize(OrDefault(Get(local.items, FontSizeKey), Medium));
    }
  }
}
