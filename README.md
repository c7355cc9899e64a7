# Budget manager front end — a Dafny model

This project models the client-side logic of the budget manager's front-end
script, `frontend/script.js`: the HTML escaping of the text cells of the
budget table, the theme and font-size preferences kept in the browser's
local storage, logout, the client-side filter that keeps only the logged-in
user's budgets, and the input guards of the registration, login and
new-budget forms.

Modules:

- `Wrappers` (`wrappers.dfy`): the `Option` type (`None` stands for JavaScript `null`/`NaN`).
- `JsText` (`jstext.dfy`): the JavaScript built-ins the script depends on — truthiness and `||`, `String(n)` for
  integers, `parseInt` without a radix, `replace` with a string pattern and `replaceAll` with a one-character pattern.
- `HtmlEscape` (`escape.dfy`): `escapeHTML` and an entity decoder used to state its round trip.
- `Preferences` (`preferences.dfy`): the page state (local storage, the body's `dark` class, the body's font size as CSS
  text) as a `Page` value with one pure function per handler, and a `Browser` class whose methods update those
  fields in place and are proved equal to the pure functions.
- `Budgets` (`budgets.dfy`): the owner filter and the rendering of `listarOrcamentos`.
- `Forms` (`forms.dfy`): the guards of `registrar`, `login` and `cadastrarOrcamento`.

## Model

| member | source | states |
|---|---|---|
| JsText.IntToStringChars | frontend/script.js:8 | `String(n)` for an integer holds only decimal digits, after a leading minus sign for a negative number |
| JsText.NatToStringDigits | frontend/script.js:8 | the decimal rendering of a natural number is all digits with no leading zero |
| JsText.ParseIntToString | frontend/script.js:30 | `parseInt` reads back every integer that `String` renders |
| JsText.ReplaceFirstUnit | frontend/script.js:30 | `replace("px", "")` on a rendering followed by `px` removes exactly the unit |
| JsText.ReplaceAll | frontend/script.js:9-13 | `replaceAll` leaves a string without the pattern character unchanged |
| JsText.ReplaceAllAppend | frontend/script.js:9-13 | `replaceAll` with a one-character pattern distributes over concatenation |
| HtmlEscape.EscapeHtml | frontend/script.js:6-14 | the result is "" exactly for the falsy values other than 0, "0" for 0, the digits for a number, carries no `<`, `>`, `"` or `'`, and decodes back to `String(v)` |
| HtmlEscape.EscapeAppend | frontend/script.js:9-13 | escaping distributes over concatenation |
| HtmlEscape.EscapeOneChar | frontend/script.js:9-13 | the replacement chain maps one character to its entity, or keeps it |
| HtmlEscape.EscapeIsPerCharacter | frontend/script.js:9-13 | the chain of five `replaceAll` calls equals escaping each character on its own, so `&` replaced first never escapes an entity twice |
| HtmlEscape.RenderingIsPlain | frontend/script.js:7-8 | a value that passes the guard renders to a non-empty string, and a number renders to text that escaping leaves alone |
| HtmlEscape.AmpersandsBeginEntities | frontend/script.js:9-13 | every `&` in the output begins one of the five entities |
| HtmlEscape.EscapeRoundTrip | frontend/script.js:9-13 | decoding the entities of the output gives back the input |
| HtmlEscape.EscapeRemovesMarkup | frontend/script.js:9-13 | the output contains none of `<`, `>`, `"`, `'` |
| HtmlEscape.EscapeKeepsPlainText | frontend/script.js:9-13 | text without any of the five special characters is returned unchanged |
| Preferences.StoredTheme | frontend/script.js:18 | a missing theme reads as "light", and the theme is "dark" exactly when "dark" is stored |
| Preferences.CurrentFontSize | frontend/script.js:29-30 | a size that does not parse, or parses to 0, becomes 16; a parsed non-zero size is used as it is; so the starting size is never 0 |
| Preferences.ClampFontSize | frontend/script.js:31-33 | the clamped size lies in [12, 24], equals the input when that is in range, and is the nearest bound otherwise |
| Preferences.CurrentFontSizeOfCss | frontend/script.js:30-34 | a size written to the body as `n + "px"` reads back as `n` |
| Preferences.FontChanged | frontend/script.js:28-36 | `alterarFonte` writes the `fontSize` key, leaves every other key and the theme as they were |
| Preferences.FontChangedSize | frontend/script.js:28-36 | after `alterarFonte(delta)` the body reads back as the current size plus `delta`, clamped |
| Preferences.FontChangeBounds | frontend/script.js:28-36 | the new size lies in [12, 24], equals current plus `delta` whenever that sum is in range, and is the number stored under `fontSize` |
| Preferences.ThemeToggled | frontend/script.js:38-42 | `alternarTema` flips the dark flag, stores "dark" exactly when the page is now dark, and changes no other key and not the font |
| Preferences.ThemeApplied | frontend/script.js:17-21 | the body is dark exactly when "dark" is stored; a missing theme gives a light body; storage and font are untouched |
| Preferences.FontApplied | frontend/script.js:22-25 | a non-empty stored size `s` is applied as `s + "px"`; with none or an empty one stored the body keeps its size; storage and theme are untouched |
| Preferences.LoggedOut | frontend/script.js:100-103 | `logout` removes the `usuario` key and nothing else |
| Preferences.SessionStored | frontend/script.js:86-87 | a successful login stores the serialised user under `usuario` and nothing else |
| Preferences.LoginThenLogout | frontend/script.js:87 | logging in and then out leaves the storage as logging out alone would |
| Preferences.PageLoaded | frontend/script.js:181-184 | the load handler keeps the storage, shows the dark theme exactly when "dark" is stored, and shows a non-empty stored size `s` as `s + "px"`, else the style sheet's size |
| Preferences.StoredSession | frontend/script.js:107 | a non-empty stored `usuario` text is what `JSON.parse` receives; a missing or empty one is replaced by `"null"` |
| Preferences.ToggleTwice | frontend/script.js:38-42 | toggling twice restores the flag, stores the original theme, and on a page whose stored theme matched changes nothing |
| Preferences.ThemeSurvivesReload | frontend/script.js:17-21 | after `alternarTema`, a reloaded page shows the same theme |
| Preferences.FontSurvivesReload | frontend/script.js:22-25 | after `alterarFonte`, a reloaded page shows the same font size whatever the style sheet's size |
| Preferences.FontChangesCompose | frontend/script.js:187-188 | repeated presses of the font buttons stay in [12, 24], each starting from the size the previous one applied |
| Preferences.LogoutEndsSession | frontend/script.js:100-108 | after `logout` the next page finds no session |
| Preferences.Browser.constructor | frontend/script.js:181 | a freshly loaded page is light, with the style sheet's size and the given storage |
| Preferences.Browser.ApplyThemeFromStorage | frontend/script.js:17-21 | updates the page as `ThemeApplied` says; the body is dark exactly when "dark" is stored |
| Preferences.Browser.ApplyFontFromStorage | frontend/script.js:22-25 | updates the page as `FontApplied` says |
| Preferences.Browser.ApplyPreferences | frontend/script.js:183-184 | the theme is applied, then the font size |
| Preferences.Browser.AlterarFonte | frontend/script.js:28-36 | updates the page as `FontChanged` says |
| Preferences.Browser.AlternarTema | frontend/script.js:38-42 | updates the page as `ThemeToggled` says; the flag flips and the stored theme names it |
| Preferences.Browser.StoreSession | frontend/script.js:87 | updates the page as `SessionStored` says |
| Preferences.Browser.Logout | frontend/script.js:100-103 | updates the page as `LoggedOut` says; the session key is gone, theme and font size entries are kept |
| Budgets.OwnRows | frontend/script.js:155 | the filter keeps only rows owned by the session user and keeps every one of them |
| Budgets.OwnRowsAppend | frontend/script.js:155 | filtering a concatenation filters each part, so order is kept |
| Budgets.KeptPositionsMatch | frontend/script.js:155 | the kept rows are the input rows at the kept positions |
| Budgets.KeptPositionsIncrease | frontend/script.js:155 | the kept positions increase |
| Budgets.KeptPositionsExact | frontend/script.js:155 | a position is kept exactly when its row is owned by the session user |
| Budgets.OwnRowsIsSubsequence | frontend/script.js:155 | the filter's output is the subsequence of owned rows, in their original order |
| Budgets.RenderRow | frontend/script.js:163-171 | every text cell is free of markup characters; title and description decode to the server's values (a falsy description shows as empty); a numeric year shows as its digits |
| Budgets.ListBudgets | frontend/script.js:141-177 | a non-OK status, a failed request, a missing session, an empty own list and a table are each shown exactly in their case; the table holds the rendered own rows in order |
| Forms.RegistrationRequest | frontend/script.js:45-49 | the request is sent exactly when name, e-mail and password are all non-empty, with those values |
| Forms.LoginRequest | frontend/script.js:72-75 | the request is sent exactly when e-mail and password are both non-empty, with those values |
| Forms.BudgetSubmission | frontend/script.js:106-125 | no session goes to the login page; the entry is posted exactly when the title is non-empty and the year is a number other than 0, under the session user's id |
| Forms.SubmittedBudgetIsListed | frontend/script.js:122-171 | an accepted budget appears last in its author's list, with its title decoding to the typed title and its year as typed, and in no other user's list |

## Left out

- The network: `fetch`, the response statuses and bodies are parameters (`Response` in `Budgets`); the server is not part of this model.
- The DOM, `alert`, navigation to another page, the Enter-key handlers and the greeting with the user's name; the outcomes are values (`Listing`, `Submission`, `Registration`, `LoginAttempt`).
- The transient "Carregando..." placeholder of `listarOrcamentos`, which the outcome always replaces.
- The amount columns (`valor_previsto`, `valor_executado`, `parseFloat` and `toLocaleString`): they need floating point and locale formatting.
- `JSON.parse` and `JSON.stringify`: the decoder of the stored session is a parameter of `StoredSession`, the serialised user is an opaque string, and a session is reduced to its integer id.
- A stored session that makes `JSON.parse` throw (the failure then lands in the `catch` of the caller) is not modelled.
- Numbers are integers: `String(n)` for non-integers, `NaN`, `Infinity` and the exponent form of very large numbers is not modelled; nor is the 53-bit precision of `parseInt` on long digit runs.
- `Number(o.usuario_id)` is modelled for an integer or SQL NULL owner (`null` counts as 0); a missing field (`NaN`) or a text owner is not modelled.
- `trim()` of the form fields and `parseInt(ano, 10)` are abstracted: the form functions take the values after them.
- The computed font size is modelled as the CSS text the script last assigned (or the style sheet's initial value); the browser's normalisation of CSS values is not modelled.
- Characters are Unicode scalar values, not UTF-16 code units; the special replacement patterns of `replace` (`$&` and the like) do not occur in the script's arguments.
- HtmlEscape.Escape: carries no contract of its own; its properties are stated by the lemmas about it (`EscapeRoundTrip`, `EscapeRemovesMarkup`, `AmpersandsBeginEntities`, `EscapeKeepsPlainText`).
- The `qs` helper and the `API` constant: they only locate DOM elements and form the request URL.
