# qrg popup and theme core, modelled in Dafny

qrg is a browser extension whose popup shows a QR code for the URL of the active tab, in a
light or dark theme the user toggles. This project models the logic of its three core
script files:

- `shared/config.js` (module `Config`, `config.dfy`): the theme identifiers, the two
  six-colour palettes, `getThemeColors` and `getOppositeTheme`.
- `shared/theme.js` (module `Theme`, `theme.dfy`): `setCSSVariables`, `applyTheme`,
  `initializeTheme` and `toggleTheme`. They act on the page's `data-theme` attribute,
  twelve CSS custom properties, the toggle's icon and title, the QR canvas filter and the
  stored preference.
- `popup/popup.js` (module `Popup`, `popup.dfy`): the popup's own theme functions, which
  use a glyph and set the toolbar icon. Also `updateCanvasScale`, `isValidWebUrl`,
  `showError`, `displayQRCode` and the start-up dispatch in `init`.

`wrappers.dfy` holds an `Option` type.

The two files that change page state are modelled the same way. A datatype
(`Theme.Document`, `Popup.Page`) holds the state as a value. Functions (`Applied`,
`Initialized`, `Toggled`, `Rescaled`, `ErrorShown`, `QrDisplayed`, `Launched`) say what each
operation makes of that state. A class (`Theme.ThemedDocument`, `Popup.PopupPage`) holds the
same state in fields. Its methods perform the source's writes one by one, and each is
proved to end in the state its function describes. The properties are lemmas about those
functions.

Inputs from the browser are parameters:

- the container's `clientWidth`/`clientHeight` are natural numbers in the state;
- the URL parser is `parse: string -> Option<string>`, which gives the protocol, or None
  when `new URL` throws;
- the QR library is `generate: string -> Generation`, which gives the module-grid side, or
  `GenerationFailed` when it throws;
- the active tab is `Option<Tab>`, and its URL may be undefined;
- local storage is a `map<string, string>`.

`toggleTheme` reads the `data-theme` attribute and treats an absent or empty one as light.

## Model

| member | source | states |
|---|---|---|
| `Config.ThemeColors` | shared/config.js:49-51 | the dark palette exactly when the theme is "dark", the light palette for every other string |
| `Config.OppositeTheme` | shared/config.js:58-60 | the result is always "dark" or "light"; it is "dark" exactly when the input is not "dark"; it never equals the input |
| `Config.OppositeInvolution` | shared/config.js:58-60 | for "dark" and "light", taking the opposite twice gives the input back |
| `Config.OppositePaletteDiffers` | shared/config.js:18-38 | a theme's palette and its opposite's palette differ, already in `bg` (#ffffff against #1e1e1e) |
| `Theme.PaletteVariablesRoundTrip` | shared/theme.js:32-45 | writing one side's six custom properties and reading them back gives the palette written |
| `Theme.NameRoundTrip` | shared/theme.js:32-45 | each of the twelve properties' CSS names (`--color-bg` … `--color-opposite-button-border-hover`) denotes that property again |
| `Theme.NameInjective` | shared/theme.js:32-45 | two properties with the same CSS name are the same property, so keying the property map by property loses nothing |
| `Theme.SixWrites` | shared/theme.js:32-37 | six successive `setProperty` writes equal writing that side's palette as a whole |
| `Theme.AllTwelveWritten` | shared/theme.js:26-46 | `setCSSVariables` sets all twelve properties for any theme; each `--color-*` one holds its entry of the theme's palette and each `--color-opposite-*` one holds its entry of the other palette |
| `Theme.CssVariablesMatchPalettes` | shared/theme.js:26-46 | after `setCSSVariables(t)` the `--color-*` properties read back as `getThemeColors(t)` and the `--color-opposite-*` ones as the opposite theme's palette |
| `Theme.ThemedDocument.SetCSSVariables` | shared/theme.js:26-46 | the twelve writes leave the property map equal to `WithTheme(old map, theme)`; nothing else changes |
| `Theme.ThemedDocument.UpdateTheme` | shared/theme.js:58-83 | the new state is `Applied(old state, theme)`: for "dark", attribute "dark", dark palettes, `dark_mode.svg`, "Toggle light mode", filter `invert(1)` if the canvas exists; otherwise the attribute is removed, with light palettes, `light_mode.svg`, "Toggle dark mode" and an empty filter |
| `Theme.ThemedDocument.ApplyTheme` | shared/theme.js:57-91 | the new state is `Applied(old state, theme)` whatever `useTransition` is and whether view transitions exist |
| `Theme.ThemedDocument.InitializeTheme` | shared/theme.js:100-104 | the new state is the stored preference applied, or light when none is stored |
| `Theme.ThemedDocument.ToggleTheme` | shared/theme.js:110-120 | the new state is `Toggled(old state)`: the opposite of the attribute's theme is stored, then applied |
| `Theme.ApplyShowsTheme` | shared/theme.js:64-82 | after apply, the attribute reads back as the applied theme (light for any non-"dark" string), all markers are coherent, and storage and the canvas's presence are untouched |
| `Theme.ApplyNonDarkIsLight` | shared/theme.js:73-82 | applying any string other than "dark", unknown ones included, gives the same document as applying "light" |
| `Theme.ApplyStorageCommutes` | shared/theme.js:57-91 | apply neither reads nor writes storage |
| `Theme.ApplyOverrides` | shared/theme.js:57-91 | applying one theme and then another gives the same document as applying only the second |
| `Theme.CoherentApplyIsNoop` | shared/theme.js:57-91 | applying the theme a coherent document already shows (attribute, all twelve properties, icon, title, filter) changes nothing |
| `Theme.ApplyIdempotent` | shared/theme.js:57-91 | applying the same theme twice equals applying it once |
| `Theme.LastApplyWins` | shared/theme.js:57-91 | after any non-empty series of applies, the document equals applying only the last theme |
| `Theme.DarkLightDark` | shared/theme.js:57-91 | dark, then light, then dark gives the same document as dark alone |
| `Theme.InitializeAppliesPreference` | shared/theme.js:100-104 | start-up shows the stored theme, shows light when the key is absent, and leaves the document coherent |
| `Theme.ToggleFlips` | shared/theme.js:110-120 | toggle shows the opposite of the attribute's theme, the stored value equals the theme then shown, and the document is coherent |
| `Theme.ToggleChangesTheme` | shared/theme.js:111-113 | the theme after a toggle is never the theme before it |
| `Theme.ToggleTwiceRestores` | shared/theme.js:110-120 | two toggles of a known theme equal applying it once with it stored; on a coherent document they leave the document as it was except for that stored theme |
| `Theme.ReapplyAfterToggleIsNoop` | shared/theme.js:100-120 | after a toggle, re-reading the stored preference and applying it changes nothing |
| `Popup.ApplyShowsTheme` | popup/popup.js:29-77 | after apply, the attribute reads back as the applied theme (light for non-"dark"); glyph, title, toolbar icon set and filter agree with it; render and storage are untouched |
| `Popup.ApplyOverrides` | popup/popup.js:29-77 | applying one theme and then another gives the same page as applying only the second |
| `Popup.ApplyIdempotent` | popup/popup.js:29-77 | applying the same theme twice gives the same page as applying it once |
| `Popup.InitializeAppliesPreference` | popup/popup.js:20-24 | start-up shows the stored theme, or light when nothing is stored, and the page is coherent |
| `Popup.ToggleFlips` | popup/popup.js:82-92 | toggle shows the opposite of the attribute's theme (light when absent), stores exactly the theme then shown, flips the canvas filter on a coherent page with a canvas, and leaves the rendered code untouched |
| `Popup.DisplayScale` | popup/popup.js:114-116 | the scale is at least 1; it is 1 or fits the smaller container side; one more step would not fit |
| `Popup.DisplayScaleIsFloor` | popup/popup.js:115-116 | when `floor(min(w,h)/size) >= 1` the scale equals that floor and `size*scale <= min(w,h)` |
| `Popup.DisplayScaleIsLargestFit` | popup/popup.js:114-116 | no fitting integer scale is larger than the chosen one |
| `Popup.RescaledIsSquareFit` | popup/popup.js:102-122 | without canvas, container or canvas width nothing changes; otherwise width and height both become `canvasSize*scale`, which is at least the native size and fits when the container can hold the canvas; nothing else changes |
| `Popup.IsValidWebUrl` | popup/popup.js:133-143 | false for an undefined or empty URL and for one that does not parse; otherwise true exactly when the protocol is `http:` or `https:` |
| `Popup.Dispatch` | popup/popup.js:217-230 | no tab means "No active tab found."; a tab with a valid URL means generate for that URL; any other tab means the http/https message |
| `Popup.GenerationFailureShowsError` | popup/popup.js:166-193 | a failed generation hides the QR area, shows the error area and sets the fixed failure message |
| `Popup.GenerationSuccessRenders` | popup/popup.js:166-189 | a successful generation shows the QR area, hides the error area, sets the native width to grid plus twice the 4-module padding, and displays a square at the display scale |
| `Popup.NoTabShowsError` | popup/popup.js:227-229 | with no tab, the page shows "No active tab found." with the QR area hidden |
| `Popup.InvalidUrlSkipsGeneration` | popup/popup.js:222-226 | an invalid URL gives the http/https message, and the outcome is the same for any generator, so none is consulted |
| `Popup.ValidUrlGenerates` | popup/popup.js:222-223 | a valid URL is defined, and the page is the QR display of the generator's outcome on exactly that URL |
| `Popup.LaunchedIsCoherent` | popup/popup.js:212-230 | after start-up all theme markers agree with the attribute, and storage is unchanged |
| `Popup.PopupPage.UpdateTheme` | popup/popup.js:30-69 | the new state is `Applied(old state, theme)`: glyph, title, filter and toolbar icon set of the theme |
| `Popup.PopupPage.ApplyTheme` | popup/popup.js:29-77 | the new state is `Applied(old state, theme)` whether or not a view transition is used |
| `Popup.PopupPage.InitializeTheme` | popup/popup.js:20-24 | the new state is the stored preference applied, or light |
| `Popup.PopupPage.ToggleTheme` | popup/popup.js:82-92 | the new state is `Toggled(old state)` |
| `Popup.PopupPage.UpdateCanvasScale` | popup/popup.js:102-122 | the new state is `Rescaled(old state)` |
| `Popup.PopupPage.ShowError` | popup/popup.js:153-160 | the new state is `ErrorShown(old state, message)` |
| `Popup.PopupPage.DisplayQRCode` | popup/popup.js:166-194 | the new state is `QrDisplayed(old state, generate(data))` |
| `Popup.PopupPage.Init` | popup/popup.js:212-231 | the new state is `Launched(old state, tab, parse, generate)`: the theme is initialised, then the dispatched action is performed |

## Left out

- QR generation and rendering (shared/qr-loader.js and the vendored library): modelled as
  an outcome per input string. `toCanvas` is taken to set the canvas width to the grid side
  plus twice the padding, and to throw when there is no canvas. The pixels drawn are not
  modelled.
- background/background.js only logs install and update events, so it is not modelled.
- Export compositing, PNG encoding, pixel inversion for export and download file naming
  are not in these source files and are not modelled.
- `setupEventListeners` (popup/popup.js:203-207) only wires events. The handlers it wires
  are modelled as `ToggleTheme` and `UpdateCanvasScale`, which can be called at any time.
- Asynchrony is not modelled: storage reads and writes, the tab query callback and view
  transitions run at once. The frame that `requestAnimationFrame` defers the rescale to is
  modelled as an immediate call. Interleaved concurrent toggles are out of scope.
  Storage calls never fail in the model: a rejected `chrome.storage.local` read or write
  (shared/theme.js:101 and :116, popup/popup.js:21 and :88) would throw out of the
  `await`, so that initialisation or toggle would apply nothing, and `init` would not reach
  the tab query. That path is not modelled.
- Console logging and the appearance of glyphs and icons are left out. Icon paths and
  glyphs are opaque strings.
- CSS lengths such as `${n}px` are modelled by the number n. `canvas.height` is not
  modelled, because only the width is read.
- `Math.floor(Math.min(w, h) / size)` in floating point is modelled as integer division.
  This is exact for pixel sizes.
- The WHATWG URL parser (section 4.4 of the URL Standard, basic URL parser) is not part of
  this model. Only its resulting protocol is compared.
- Storage values are strings. The falsy test `stored[key] || 'light'` is modelled for an
  absent key and the empty string. Other non-string stored values are not modelled.
- A missing theme icon, toggle button or error-message element (a TypeError in the
  source) is not modelled. A missing `#qr-display` is modelled: the first write throws and
  nothing changes.
- The hover preview is a stylesheet rule. Only the opposite-palette variables it reads
  are modelled.
- Palette completeness needs no lemma. Both palettes are values of the same six-field
  record `Config.Palette`, and `Theme.AllTwelveWritten` shows that each field is written
  on both sides.
