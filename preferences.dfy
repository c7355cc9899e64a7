/** The client state the script keeps: three keys of the browser's local
    storage (`theme`, `fontSize`, `usuario`) and what it applies to the
    document body (the `dark` class and the font size). */
module Preferences {
  import opened Wrappers
  import opened JsText

  const ThemeKey := "theme"
  const FontSizeKey := "fontSize"
  const SessionKey := "usuario"

  const MinFontSize := 12
  const MaxFontSize := 24
  /** The base size used when the computed size does not parse or is 0. */
  const DefaultFontSize := 16

  /** `localStorage.getItem(key)`: `None` is `null`. */
  function GetItem(storage: map<string, string>, key: string): (r: Option<string>)
    ensures r.Some? <==> key in storage
    ensures r.Some? ==> r.value == storage[key]
  {
    if key in storage then Some(storage[key]) else None
  }

  /** The logged-in user as stored under `usuario`; only its id is used. */
  datatype Session = Session(id: int)

  /** What the script sees of a page: the local storage, whether the body
      carries the `dark` class, and the body's computed font size as CSS
      text (such as "16px"). */
  datatype Page = Page(storage: map<string, string>, dark: bool, fontSize: string)

  function ThemeName(dark: bool): string {
    if dark then "dark" else "light"
  }

  /** `localStorage.getItem("theme") || "light"` */
  function StoredTheme(storage: map<string, string>): (t: string)
    ensures ThemeKey !in storage ==> t == "light"
    ensures t == "dark" <==> GetItem(storage, ThemeKey) == Some("dark")
  {
    match GetItem(storage, ThemeKey)
    case Some(t) => if t != "" then t else "light"
    case None => "light"
  }

  /** `parseInt(computed.replace("px", "")) || 16`: the size the font
      buttons start from. */
  function CurrentFontSize(computed: string): (n: int)
    ensures n != 0
    ensures ParseInt(ReplaceFirst(computed, "px", "")) in {None, Some(0)} ==> n == DefaultFontSize
    ensures var parsed := ParseInt(ReplaceFirst(computed, "px", ""));
      parsed.Some? && parsed.value != 0 ==> n == parsed.value
  {
    match ParseInt(ReplaceFirst(computed, "px", ""))
    case Some(n) => if n != 0 then n else DefaultFontSize
    case None => DefaultFontSize
  }

  /** The two clamps of `alterarFonte`, floor first. */
  function ClampFontSize(n: int): (r: int)
    ensures MinFontSize <= r <= MaxFontSize
    ensures MinFontSize <= n <= MaxFontSize ==> r == n
    ensures n < MinFontSize ==> r == MinFontSize
    ensures n > MaxFontSize ==> r == MaxFontSize
  {
    if n < MinFontSize then MinFontSize else if n > MaxFontSize then MaxFontSize else n
  }

  /** The CSS text `n + "px"` that the script assigns to the body. */
  function FontSizeCss(n: int): string {
    IntToString(n) + "px"
  }

  /** A size the script wrote to the body reads back as the same size. */
  lemma CurrentFontSizeOfCss(n: int)
    requires n != 0
    ensures CurrentFontSize(FontSizeCss(n)) == n
  {
    var s := IntToString(n);
    IntToStringChars(n);
    assert forall i | 0 <= i < |s| :: s[i] != 'p';
    ReplaceFirstUnit(s);
    ParseIntToString(n);
  }

  /** `alterarFonte(delta)`: the current size plus `delta`, clamped, is
      applied to the body and written, as text, under `fontSize`. Nothing
      else changes. */
  function FontChanged(p: Page, delta: int): (q: Page)
    ensures forall k | k != FontSizeKey :: GetItem(q.storage, k) == GetItem(p.storage, k)
    ensures FontSizeKey in q.storage
    ensures q.dark == p.dark
  {
    var n := ClampFontSize(CurrentFontSize(p.fontSize) + delta);
    p.(fontSize := FontSizeCss(n), storage := p.storage[FontSizeKey := IntToString(n)])
  }

  /** After `alterarFonte(delta)` the body reads back as the current size
      plus `delta`, clamped. */
  lemma FontChangedSize(p: Page, delta: int)
    ensures CurrentFontSize(FontChanged(p, delta).fontSize) == ClampFontSize(CurrentFontSize(p.fontSize) + delta)
  {
    CurrentFontSizeOfCss(ClampFontSize(CurrentFontSize(p.fontSize) + delta));
  }

  /** After `alterarFonte(delta)` the size the body shows is within
      [12, 24], equals the current size plus `delta` whenever that sum is in
      range, and is the size written under `fontSize`. */
  lemma FontChangeBounds(p: Page, delta: int)
    ensures var q, sum := FontChanged(p, delta), CurrentFontSize(p.fontSize) + delta;
      && MinFontSize <= CurrentFontSize(q.fontSize) <= MaxFontSize
      && (MinFontSize <= sum <= MaxFontSize ==> CurrentFontSize(q.fontSize) == sum)
      && GetItem(q.storage, FontSizeKey) == Some(IntToString(CurrentFontSize(q.fontSize)))
  {
    FontChangedSize(p, delta);
  }

  /** `alternarTema()`: the `dark` class is toggled and the theme it now
      shows is written under `theme`. Nothing else changes. */
  function ThemeToggled(p: Page): (q: Page)
    ensures q.dark == !p.dark
    ensures GetItem(q.storage, ThemeKey) == Some("dark") <==> q.dark
    ensures GetItem(q.storage, ThemeKey) == Some(ThemeName(q.dark))
    ensures forall k | k != ThemeKey :: GetItem(q.storage, k) == GetItem(p.storage, k)
    ensures q.fontSize == p.fontSize
  {
    var dark := !p.dark;
    p.(dark := dark, storage := p.storage[ThemeKey := ThemeName(dark)])
  }

  /** `applyThemeFromStorage()`: the body is dark exactly when the stored
      theme is "dark"; a missing or empty entry counts as "light". */
  function ThemeApplied(p: Page): (q: Page)
    ensures q.dark <==> GetItem(p.storage, ThemeKey) == Some("dark")
    ensures ThemeKey !in p.storage ==> !q.dark
    ensures q.storage == p.storage && q.fontSize == p.fontSize
  {
    p.(dark := StoredTheme(p.storage) == "dark")
  }

  /** `applyFontFromStorage()`: a non-empty stored size is applied as
      `stored + "px"`; otherwise the body keeps its size. */
  function FontApplied(p: Page): (q: Page)
    ensures q.storage == p.storage && q.dark == p.dark
    ensures FontSizeKey in p.storage && p.storage[FontSizeKey] != "" ==> q.fontSize == p.storage[FontSizeKey] + "px"
    ensures GetItem(p.storage, FontSizeKey) in {None, Some("")} ==> q.fontSize == p.fontSize
  {
    match GetItem(p.storage, FontSizeKey)
    case Some(stored) => if stored != "" then p.(fontSize := stored + "px") else p
    case None => p
  }

  /** `logout()`: the session entry is removed; the preferences and the body
      are left as they are. */
  function LoggedOut(p: Page): (q: Page)
    ensures SessionKey !in q.storage
    ensures forall k | k != SessionKey :: GetItem(q.storage, k) == GetItem(p.storage, k)
    ensures q.dark == p.dark && q.fontSize == p.fontSize
  {
    p.(storage := p.storage - {SessionKey})
  }

  /** The successful branch of `login`: the user record, serialised by
      `JSON.stringify` as `json`, is stored under `usuario`; nothing else
      changes. */
  function SessionStored(p: Page, json: string): (q: Page)
    ensures GetItem(q.storage, SessionKey) == Some(json)
    ensures forall k | k != SessionKey :: GetItem(q.storage, k) == GetItem(p.storage, k)
    ensures q.dark == p.dark && q.fontSize == p.fontSize
  {
    p.(storage := p.storage[SessionKey := json])
  }

  /** Logging in and then out leaves the storage as it was, minus any
      earlier session. */
  lemma LoginThenLogout(p: Page, json: string)
    ensures LoggedOut(SessionStored(p, json)) == LoggedOut(p)
  {
    assert p.storage[SessionKey := json] - {SessionKey} == p.storage - {SessionKey};
  }

  /** A page as the `DOMContentLoaded` handler leaves it: the body starts
      light at the style sheet's size, then the stored theme and the stored
      font size are applied, in that order. */
  function PageLoaded(storage: map<string, string>, initialFontSize: string): (p: Page)
    ensures p.storage == storage
    ensures p.dark <==> GetItem(storage, ThemeKey) == Some("dark")
    ensures FontSizeKey in storage && storage[FontSizeKey] != "" ==> p.fontSize == storage[FontSizeKey] + "px"
    ensures GetItem(storage, FontSizeKey) in {None, Some("")} ==> p.fontSize == initialFontSize
  {
    FontApplied(ThemeApplied(Page(storage, false, initialFontSize)))
  }

  /** `JSON.parse(localStorage.getItem("usuario") || "null")`, with the JSON
      decoder given as `parse`; `None` is any falsy result. */
  function StoredSession(storage: map<string, string>, parse: string -> Option<Session>): (r: Option<Session>)
    ensures SessionKey in storage && storage[SessionKey] != "" ==> r == parse(storage[SessionKey])
    ensures GetItem(storage, SessionKey) in {None, Some("")} ==> r == parse("null")
  {
    match GetItem(storage, SessionKey)
    case Some(text) => if text != "" then parse(text) else parse("null")
    case None => parse("null")
  }

  /** Toggling the theme twice restores the body and leaves the stored theme
      matching it; on a page whose stored theme already matched, it changes
      nothing at all. */
  lemma ToggleTwice(p: Page)
    ensures ThemeToggled(ThemeToggled(p)).dark == p.dark
    ensures ThemeToggled(ThemeToggled(p)) == p.(storage := p.storage[ThemeKey := ThemeName(p.dark)])
    ensures GetItem(p.storage, ThemeKey) == Some(ThemeName(p.dark)) ==> ThemeToggled(ThemeToggled(p)) == p
  {
    var q := ThemeToggled(ThemeToggled(p));
    assert q.storage == p.storage[ThemeKey := ThemeName(!p.dark)][ThemeKey := ThemeName(p.dark)];
    if GetItem(p.storage, ThemeKey) == Some(ThemeName(p.dark)) {
      assert p.storage[ThemeKey := ThemeName(p.dark)] == p.storage;
    }
  }

  /** After `alternarTema`, reloading the page shows the same theme. */
  lemma ThemeSurvivesReload(p: Page, initialFontSize: string)
    ensures PageLoaded(ThemeToggled(p).storage, initialFontSize).dark == ThemeToggled(p).dark
  {
  }

  /** After `alterarFonte`, a reloaded page shows the same font size as
      the page it replaces, whatever size the style sheet gives. */
  lemma {:induction false} FontSurvivesReload(p: Page, delta: int, initialFontSize: string)
    ensures PageLoaded(FontChanged(p, delta).storage, initialFontSize).fontSize == FontChanged(p, delta).fontSize
  {
    var n := ClampFontSize(CurrentFontSize(p.fontSize) + delta);
    var q := FontChanged(p, delta);
    assert GetItem(q.storage, FontSizeKey) == Some(IntToString(n));
    assert IntToString(n) != "";
  }

  /** Repeated presses of the font buttons never leave [12, 24], and each
      press starts from the size the previous one applied. */
  lemma FontChangesCompose(p: Page, d1: int, d2: int)
    ensures var q := FontChanged(FontChanged(p, d1), d2);
      && MinFontSize <= CurrentFontSize(q.fontSize) <= MaxFontSize
      && CurrentFontSize(q.fontSize) == ClampFontSize(ClampFontSize(CurrentFontSize(p.fontSize) + d1) + d2)
  {
    FontChangedSize(p, d1);
    FontChangedSize(FontChanged(p, d1), d2);
  }

  /** After `logout`, the next page finds no session, whatever the JSON
      decoder, since `JSON.parse("null")` is `null`. */
  lemma LogoutEndsSession(p: Page, parse: string -> Option<Session>)
    requires parse("null") == None
    ensures StoredSession(LoggedOut(p).storage, parse) == None
  {
  }

  /** The browser page the script runs in. */
  class Browser {
    var storage: map<string, string>
    var dark: bool
    var fontSize: string

    function View(): Page
      reads this
    {
      Page(storage, dark, fontSize)
    }

    /** A freshly loaded page, before the script's load handler runs. */
    constructor (storage: map<string, string>, initialFontSize: string)
      ensures View() == Page(storage, false, initialFontSize)
    {
      this.storage := storage;
      this.dark := false;
      this.fontSize := initialFontSize;
    }

    method ApplyThemeFromStorage()
      modifies this
      ensures View() == ThemeApplied(old(View()))
      ensures dark <==> GetItem(storage, ThemeKey) == Some("dark")
    {
      var theme := StoredTheme(storage);
      if theme == "dark" {
        dark := true;
      } else {
        dark := false;
      }
    }

    method ApplyFontFromStorage()
      modifies this
      ensures View() == FontApplied(old(View()))
    {
      var stored := GetItem(storage, FontSizeKey);
      if stored.Some? && stored.value != "" {
        fontSize := stored.value + "px";
      }
    }

    /** The `DOMContentLoaded` handler's first two steps. */
    method ApplyPreferences()
      modifies this
      ensures View() == FontApplied(ThemeApplied(old(View())))
    {
      ApplyThemeFromStorage();
      ApplyFontFromStorage();
    }

    method AlterarFonte(delta: int)
      modifies this
      ensures View() == FontChanged(old(View()), delta)
    {
      var cur := CurrentFontSize(fontSize);
      var size := cur + delta;
      if size < MinFontSize {
        size := MinFontSize;
      }
      if size > MaxFontSize {
        size := MaxFontSize;
      }
      assert size == ClampFontSize(cur + delta);
      fontSize := FontSizeCss(size);
      storage := storage[FontSizeKey := IntToString(size)];
    }

    method AlternarTema()
      modifies this
      ensures View() == ThemeToggled(old(View()))
      ensures dark == !old(dark)
      ensures GetItem(storage, ThemeKey) == Some(ThemeName(dark))
    {
      dark := !dark;
      var t := if dark then "dark" else "light";
      storage := storage[ThemeKey := t];
    }

    method StoreSession(json: string)
      modifies this
      ensures View() == SessionStored(old(View()), json)
    {
      storage := storage[SessionKey := json];
    }

    method Logout()
      modifies this
      ensures View() == LoggedOut(old(View()))
      ensures SessionKey !in storage
      ensures GetItem(storage, ThemeKey) == GetItem(old(storage), ThemeKey)
      ensures GetItem(storage, FontSizeKey) == GetItem(old(storage), FontSizeKey)
    {
      storage := storage - {SessionKey};
    }
  }
}
