/**
 * Theme management of the shared module (shared/theme.js): the document state a theme
 * touches (the `data-theme` attribute, twelve CSS custom properties, the toggle's icon
 * and title, the QR canvas filter) together with the persisted preference.
 *
 * `Document` is that state as a value and `Applied`, `Initialized` and `Toggled` say what
 * each operation makes of it; the class `ThemedDocument` holds the same state in fields
 * and its methods perform the source's step-by-step writes, each proved to end in the
 * state the matching function describes.
 */
module Theme {
  import opened Wrappers
  import opened Config

  const DarkIcon: string := "../icons/dark_mode.svg"
  const LightIcon: string := "../icons/light_mode.svg"
  const DarkToggleTitle: string := "Toggle light mode"
  const LightToggleTitle: string := "Toggle dark mode"
  const InvertFilter: string := "invert(1)"
  const NoFilter: string := ""

  // ---------------------------------------------------------------------------
  // CSS custom properties
  // ---------------------------------------------------------------------------

  /** The six palette entries, one custom property each. */
  datatype Field = Bg | Text | Border | ButtonBg | ButtonHover | ButtonBorderHover

  /** The part of a property name that names the palette entry. */
  function FieldName(f: Field): string {
    match f
    case Bg => "bg"
    case Text => "text"
    case Border => "border"
    case ButtonBg => "button-bg"
    case ButtonHover => "button-hover"
    case ButtonBorderHover => "button-border-hover"
  }

  const ActivePrefix: string := "--color-"
  const OppositePrefix: string := "--color-opposite-"

  /**
   * A custom property `setCSSVariables` writes: `--color-<field>` for the active palette,
   * `--color-opposite-<field>` for the opposite one (read by the hover preview).
   */
  datatype CssVar = CssVar(opposite: bool, field: Field) {
    /** The property's name as the stylesheet spells it. */
    function Name(): string {
      (if opposite then OppositePrefix else ActivePrefix) + FieldName(field)
    }
  }

  /** The palette entry a name suffix denotes, if any. */
  function FieldOfName(s: string): Option<Field> {
    if s == "bg" then Some(Bg)
    else if s == "text" then Some(Text)
    else if s == "border" then Some(Border)
    else if s == "button-bg" then Some(ButtonBg)
    else if s == "button-hover" then Some(ButtonHover)
    else if s == "button-border-hover" then Some(ButtonBorderHover)
    else None
  }

  /** The property a name denotes, if it is one of the twelve. */
  function CssVarOfName(name: string): Option<CssVar> {
    if |name| >= |OppositePrefix| && name[..|OppositePrefix|] == OppositePrefix then
      match FieldOfName(name[|OppositePrefix|..])
      case Some(f) => Some(CssVar(true, f))
      case None => None
    else if |name| >= |ActivePrefix| && name[..|ActivePrefix|] == ActivePrefix then
      match FieldOfName(name[|ActivePrefix|..])
      case Some(f) => Some(CssVar(false, f))
      case None => None
    else
      None
  }

  /** Every entry's name suffix denotes that entry again; none starts like "opposite-". */
  lemma FieldNameRoundTrip(f: Field)
    ensures FieldOfName(FieldName(f)) == Some(f)
    ensures |FieldName(f)| > 0 && FieldName(f)[0] != 'o'
  {
    match f
    case Bg =>
    case Text =>
    case Border =>
    case ButtonBg =>
    case ButtonHover =>
    case ButtonBorderHover =>
  }

  /** Every property's name denotes that property again. */
  lemma NameRoundTrip(v: CssVar)
    ensures CssVarOfName(v.Name()) == Some(v)
  {
    FieldNameRoundTrip(v.field);
    var n := v.Name();
    if v.opposite {
      assert n[..|OppositePrefix|] == OppositePrefix;
      assert n[|OppositePrefix|..] == FieldName(v.field);
    } else {
      assert n[..|ActivePrefix|] == ActivePrefix;
      assert n[|ActivePrefix|..] == FieldName(v.field);
      assert n[8] == FieldName(v.field)[0];
      assert OppositePrefix[8] == 'o';
      assert |n| < |OppositePrefix| || n[..|OppositePrefix|][8] != OppositePrefix[8];
    }
  }

  /**
   * Distinct properties have distinct names, so keying the property map by `CssVar`
   * loses nothing against keying it by name.
   */
  lemma NameInjective(v: CssVar, w: CssVar)
    ensures v.Name() == w.Name() ==> v == w
  {
    NameRoundTrip(v);
    NameRoundTrip(w);
  }

  /** The entry of palette `p` that property field `f` carries. */
  function Entry(p: Palette, f: Field): string {
    match f
    case Bg => p.bg
    case Text => p.text
    case Border => p.border
    case ButtonBg => p.buttonBg
    case ButtonHover => p.buttonHover
    case ButtonBorderHover => p.buttonBorderHover
  }

  /** The six properties that carry palette `p` on one side (active or opposite). */
  function PaletteVariables(opposite: bool, p: Palette): map<CssVar, string> {
    map[
      CssVar(opposite, Bg) := p.bg,
      CssVar(opposite, Text) := p.text,
      CssVar(opposite, Border) := p.border,
      CssVar(opposite, ButtonBg) := p.buttonBg,
      CssVar(opposite, ButtonHover) := p.buttonHover,
      CssVar(opposite, ButtonBorderHover) := p.buttonBorderHover]
  }

  /** The palette a stylesheet reads from the six properties of one side, if all are set. */
  function ReadPalette(vars: map<CssVar, string>, opposite: bool): Option<Palette> {
    if && CssVar(opposite, Bg) in vars
       && CssVar(opposite, Text) in vars
       && CssVar(opposite, Border) in vars
       && CssVar(opposite, ButtonBg) in vars
       && CssVar(opposite, ButtonHover) in vars
       && CssVar(opposite, ButtonBorderHover) in vars
    then
      Some(Palette(
        vars[CssVar(opposite, Bg)],
        vars[CssVar(opposite, Text)],
        vars[CssVar(opposite, Border)],
        vars[CssVar(opposite, ButtonBg)],
        vars[CssVar(opposite, ButtonHover)],
        vars[CssVar(opposite, ButtonBorderHover)]))
    else
      None
  }

  /** Writing a palette's six properties and reading them back gives the palette. */
  lemma PaletteVariablesRoundTrip(vars: map<CssVar, string>, opposite: bool, p: Palette)
    ensures ReadPalette(vars + PaletteVariables(opposite, p), opposite) == Some(p)
  {
  }

  /** Writing one side's properties leaves what the other side reads unchanged. */
  lemma OtherSideUntouched(vars: map<CssVar, string>, opposite: bool, p: Palette)
    ensures ReadPalette(vars + PaletteVariables(!opposite, p), opposite) == ReadPalette(vars, opposite)
  {
  }

  /** The property map after `setCSSVariables(theme)`: the theme's palette, then the opposite one. */
  function WithTheme(vars: map<CssVar, string>, theme: string): map<CssVar, string> {
    vars + PaletteVariables(false, ThemeColors(theme))
         + PaletteVariables(true, ThemeColors(OppositeTheme(theme)))
  }

  /** Writing both sides: each side reads back as the palette written to it. */
  lemma BothSidesRoundTrip(vars: map<CssVar, string>, current: Palette, opposite: Palette)
    ensures ReadPalette(vars + PaletteVariables(false, current) + PaletteVariables(true, opposite), false)
         == Some(current)
    ensures ReadPalette(vars + PaletteVariables(false, current) + PaletteVariables(true, opposite), true)
         == Some(opposite)
  {
    OtherSideUntouched(vars + PaletteVariables(false, current), false, opposite);
    PaletteVariablesRoundTrip(vars, false, current);
    PaletteVariablesRoundTrip(vars + PaletteVariables(false, current), true, opposite);
  }

  /** A later write of both sides overwrites everything an earlier write of both sides left. */
  lemma BothSidesOverride(vars: map<CssVar, string>, p: Palette, q: Palette, p': Palette, q': Palette)
    ensures vars + PaletteVariables(false, p) + PaletteVariables(true, q)
                 + PaletteVariables(false, p') + PaletteVariables(true, q')
         == vars + PaletteVariables(false, p') + PaletteVariables(true, q')
  {
  }

  /** Six successive writes of one side's properties amount to writing that side's palette. */
  lemma SixWrites(vars: map<CssVar, string>, opposite: bool, p: Palette)
    ensures vars[CssVar(opposite, Bg) := p.bg]
                [CssVar(opposite, Text) := p.text]
                [CssVar(opposite, Border) := p.border]
                [CssVar(opposite, ButtonBg) := p.buttonBg]
                [CssVar(opposite, ButtonHover) := p.buttonHover]
                [CssVar(opposite, ButtonBorderHover) := p.buttonBorderHover]
         == vars + PaletteVariables(opposite, p)
  {
  }

  /** Every property is set once both sides are written, to the entry of its side's palette. */
  lemma BothSidesComplete(vars: map<CssVar, string>, current: Palette, opposite: Palette, v: CssVar)
    ensures v in vars + PaletteVariables(false, current) + PaletteVariables(true, opposite)
    ensures (vars + PaletteVariables(false, current) + PaletteVariables(true, opposite))[v]
         == Entry(if v.opposite then opposite else current, v.field)
  {
    match v.field
    case Bg =>
    case Text =>
    case Border =>
    case ButtonBg =>
    case ButtonHover =>
    case ButtonBorderHover =>
  }

  /**
   * `setCSSVariables` writes every one of the twelve properties, whatever the theme, and
   * each property receives the entry of its side's palette.
   */
  lemma AllTwelveWritten(vars: map<CssVar, string>, theme: string, v: CssVar)
    ensures v in WithTheme(vars, theme)
    ensures WithTheme(vars, theme)[v]
         == Entry(if v.opposite then ThemeColors(OppositeTheme(theme)) else ThemeColors(theme), v.field)
  {
    BothSidesComplete(vars, ThemeColors(theme), ThemeColors(OppositeTheme(theme)), v);
  }

  /**
   * After `setCSSVariables(theme)` the `--color-*` properties hold the theme's palette and
   * the `--color-opposite-*` properties the opposite theme's palette.
   */
  lemma CssVariablesMatchPalettes(vars: map<CssVar, string>, theme: string)
    ensures ReadPalette(WithTheme(vars, theme), false) == Some(ThemeColors(theme))
    ensures ReadPalette(WithTheme(vars, theme), true) == Some(ThemeColors(OppositeTheme(theme)))
  {
    BothSidesRoundTrip(vars, ThemeColors(theme), ThemeColors(OppositeTheme(theme)));
  }

  // ---------------------------------------------------------------------------
  // Document state and what the operations make of it
  // ---------------------------------------------------------------------------

  /** The parts of the page and of local storage that theme management reads or writes. */
  datatype Document = Document(
    dataTheme: Option<string>,       // the root element's `data-theme` attribute
    cssVars: map<CssVar, string>,    // custom properties set on the root element
    iconSrc: string,                 // `src` of the toggle's icon image
    toggleTitle: string,             // `title` of the toggle button
    hasCanvas: bool,                 // whether the page has a QR canvas
    canvasFilter: string,            // that canvas's CSS filter
    storage: map<string, string>)    // extension-local storage

  /** The theme an attribute value stands for: light when absent or empty. */
  function ThemeOfAttribute(attr: Option<string>): string {
    if attr.Some? && attr.value != "" then attr.value else LightTheme
  }

  /** The preference read at start-up: light when nothing (or an empty value) is stored. */
  function StoredTheme(storage: map<string, string>): string {
    if ThemeStorageKey in storage && storage[ThemeStorageKey] != "" then
      storage[ThemeStorageKey]
    else
      LightTheme
  }

  /** The theme that applying `theme` actually shows: dark for "dark", light otherwise. */
  function Shown(theme: string): (r: string)
    ensures IsTheme(r)
    ensures r == DarkTheme <==> theme == DarkTheme
  {
    if theme == DarkTheme then DarkTheme else LightTheme
  }

  /** The document after `applyTheme(theme)`. */
  function Applied(d: Document, theme: string): Document {
    if theme == DarkTheme then
      d.(dataTheme := Some(DarkTheme),
         cssVars := WithTheme(d.cssVars, DarkTheme),
         iconSrc := DarkIcon,
         toggleTitle := DarkToggleTitle,
         canvasFilter := if d.hasCanvas then InvertFilter else d.canvasFilter)
    else
      d.(dataTheme := None,
         cssVars := WithTheme(d.cssVars, LightTheme),
         iconSrc := LightIcon,
         toggleTitle := LightToggleTitle,
         canvasFilter := if d.hasCanvas then NoFilter else d.canvasFilter)
  }

  /** The document after `initializeTheme()`: the stored preference, or light, applied. */
  function Initialized(d: Document): Document {
    Applied(d, StoredTheme(d.storage))
  }

  /** The document after `toggleTheme()`: the opposite of the shown theme, stored, then applied. */
  function Toggled(d: Document): Document {
    var next := OppositeTheme(ThemeOfAttribute(d.dataTheme));
    Applied(d.(storage := d.storage[ThemeStorageKey := next]), next)
  }

  /** The document after applying each theme of `themes` in turn. */
  function ApplyAll(d: Document, themes: seq<string>): Document
    decreases |themes|
  {
    if themes == [] then d else ApplyAll(Applied(d, themes[0]), themes[1..])
  }

  /**
   * Every visible theme marker agrees with the `data-theme` attribute: the attribute is
   * absent or "dark", both palettes are written, and icon, title and filter match.
   */
  predicate Coherent(d: Document) {
    var t := ThemeOfAttribute(d.dataTheme);
    && (d.dataTheme == None || d.dataTheme == Some(DarkTheme))
    && ReadPalette(d.cssVars, false) == Some(ThemeColors(t))
    && ReadPalette(d.cssVars, true) == Some(ThemeColors(OppositeTheme(t)))
    && d.iconSrc == (if t == DarkTheme then DarkIcon else LightIcon)
    && d.toggleTitle == (if t == DarkTheme then DarkToggleTitle else LightToggleTitle)
    && (d.hasCanvas ==> d.canvasFilter == (if t == DarkTheme then InvertFilter else NoFilter))
  }

  // ---------------------------------------------------------------------------
  // Properties of apply
  // ---------------------------------------------------------------------------

  /**
   * Applying a theme shows it (unknown strings show light), leaves every marker coherent,
   * and touches neither storage nor the presence of the canvas.
   */
  lemma ApplyShowsTheme(d: Document, theme: string)
    ensures ThemeOfAttribute(Applied(d, theme).dataTheme) == Shown(theme)
    ensures Coherent(Applied(d, theme))
    ensures Applied(d, theme).storage == d.storage
    ensures Applied(d, theme).hasCanvas == d.hasCanvas
  {
    CssVariablesMatchPalettes(d.cssVars, Shown(theme));
  }

  /** Any theme other than "dark", known or not, is applied exactly as "light". */
  lemma ApplyNonDarkIsLight(d: Document, theme: string)
    requires theme != DarkTheme
    ensures Applied(d, theme) == Applied(d, LightTheme)
  {
  }

  /** The last apply wins: whatever was applied before is overwritten. */
  lemma ApplyOverrides(d: Document, first: string, second: string)
    ensures Applied(Applied(d, first), second) == Applied(d, second)
  {
    var f, g := Shown(first), Shown(second);
    BothSidesOverride(d.cssVars, ThemeColors(f), ThemeColors(OppositeTheme(f)),
                      ThemeColors(g), ThemeColors(OppositeTheme(g)));
  }

  /** Apply neither reads nor writes storage, so it commutes with a storage update. */
  lemma ApplyStorageCommutes(d: Document, storage: map<string, string>, theme: string)
    ensures Applied(d, theme).(storage := storage) == Applied(d.(storage := storage), theme)
  {
  }

  /** Applying the same theme twice is the same as applying it once. */
  lemma ApplyIdempotent(d: Document, theme: string)
    ensures Applied(Applied(d, theme), theme) == Applied(d, theme)
  {
    ApplyOverrides(d, theme, theme);
  }

  /** After any non-empty series of applies the document depends only on the last theme. */
  lemma {:induction false} LastApplyWins(d: Document, themes: seq<string>)
    requires |themes| > 0
    ensures ApplyAll(d, themes) == Applied(d, themes[|themes| - 1])
    decreases |themes|
  {
    if |themes| > 1 {
      LastApplyWins(Applied(d, themes[0]), themes[1..]);
      ApplyOverrides(d, themes[0], themes[|themes| - 1]);
    }
  }

  /** Dark, then light, then dark gives the same document as dark alone. */
  lemma DarkLightDark(d: Document)
    ensures ApplyAll(d, [DarkTheme, LightTheme, DarkTheme]) == Applied(d, DarkTheme)
  {
    LastApplyWins(d, [DarkTheme, LightTheme, DarkTheme]);
  }

  // ---------------------------------------------------------------------------
  // Properties of initialisation and toggling
  // ---------------------------------------------------------------------------

  /** Start-up applies the stored preference, and light when nothing is stored. */
  lemma InitializeAppliesPreference(d: Document)
    ensures ThemeOfAttribute(Initialized(d).dataTheme) == Shown(StoredTheme(d.storage))
    ensures ThemeStorageKey !in d.storage ==> Initialized(d) == Applied(d, LightTheme)
    ensures Coherent(Initialized(d))
  {
    ApplyShowsTheme(d, StoredTheme(d.storage));
  }

  /**
   * Toggling shows the opposite of the theme the attribute stood for, stores exactly the
   * theme it then shows, and keeps the document coherent.
   */
  lemma ToggleFlips(d: Document)
    ensures ThemeOfAttribute(Toggled(d).dataTheme) == OppositeTheme(ThemeOfAttribute(d.dataTheme))
    ensures StoredTheme(Toggled(d).storage) == ThemeOfAttribute(Toggled(d).dataTheme)
    ensures Coherent(Toggled(d))
  {
    var next := OppositeTheme(ThemeOfAttribute(d.dataTheme));
    ApplyShowsTheme(d.(storage := d.storage[ThemeStorageKey := next]), next);
  }

  /** The theme read back after a toggle is never the one before, whatever the document. */
  lemma ToggleChangesTheme(d: Document)
    ensures ThemeOfAttribute(Toggled(d).dataTheme) != ThemeOfAttribute(d.dataTheme)
  {
    ToggleFlips(d);
  }

  /** A side whose palette reads back as `p` holds, property by property, the entries of `p`. */
  lemma ReadPaletteEntries(vars: map<CssVar, string>, opposite: bool, p: Palette, f: Field)
    requires ReadPalette(vars, opposite) == Some(p)
    ensures CssVar(opposite, f) in vars && vars[CssVar(opposite, f)] == Entry(p, f)
  {
    match f
    case Bg =>
    case Text =>
    case Border =>
    case ButtonBg =>
    case ButtonHover =>
    case ButtonBorderHover =>
  }

  /** Applying the theme a coherent document already shows changes nothing. */
  lemma CoherentApplyIsNoop(d: Document)
    requires Coherent(d)
    ensures Applied(d, ThemeOfAttribute(d.dataTheme)) == d
  {
    var t := ThemeOfAttribute(d.dataTheme);
    forall v: CssVar
      ensures v in d.cssVars && WithTheme(d.cssVars, t)[v] == d.cssVars[v]
    {
      AllTwelveWritten(d.cssVars, t, v);
      if v.opposite {
        ReadPaletteEntries(d.cssVars, true, ThemeColors(OppositeTheme(t)), v.field);
      } else {
        ReadPaletteEntries(d.cssVars, false, ThemeColors(t), v.field);
      }
    }
    assert WithTheme(d.cssVars, t) == d.cssVars;
  }

  /**
   * Two toggles show the original theme again when the attribute names a known theme
   * (which a coherent document's does), with that theme stored as the preference. On a
   * coherent document that stored preference is the only trace they leave.
   */
  lemma ToggleTwiceRestores(d: Document)
    requires IsTheme(ThemeOfAttribute(d.dataTheme))
    ensures ThemeOfAttribute(Toggled(Toggled(d)).dataTheme) == ThemeOfAttribute(d.dataTheme)
    ensures Toggled(Toggled(d))
         == Applied(d.(storage := d.storage[ThemeStorageKey := ThemeOfAttribute(d.dataTheme)]),
                    ThemeOfAttribute(d.dataTheme))
    ensures Coherent(d) ==>
      Toggled(Toggled(d)) == d.(storage := d.storage[ThemeStorageKey := ThemeOfAttribute(d.dataTheme)])
  {
    var t := ThemeOfAttribute(d.dataTheme);
    var next := OppositeTheme(t);
    var once := d.storage[ThemeStorageKey := next];
    var twice := d.storage[ThemeStorageKey := t];
    var d1 := Applied(d.(storage := once), next);
    assert ThemeOfAttribute(d1.dataTheme) == next by {
      ApplyShowsTheme(d.(storage := once), next);
    }
    assert OppositeTheme(next) == t by {
      OppositeInvolution(t);
    }
    assert Toggled(Toggled(d)) == Applied(d1.(storage := twice), t) by {
      assert once[ThemeStorageKey := t] == twice;
    }
    assert d1.(storage := twice) == Applied(d.(storage := twice), next) by {
      ApplyStorageCommutes(d, twice, next);
    }
    ApplyOverrides(d.(storage := twice), next, t);
    ApplyShowsTheme(d.(storage := twice), t);
    if Coherent(d) {
      CoherentApplyIsNoop(d);
      ApplyStorageCommutes(d, twice, t);
    }
  }

  /**
   * The persisted preference and the applied theme agree after a toggle: re-reading the
   * preference and applying it again, as a reopened page or a change notification does,
   * changes nothing.
   */
  lemma ReapplyAfterToggleIsNoop(d: Document)
    ensures Initialized(Toggled(d)) == Toggled(d)
  {
    var next := OppositeTheme(ThemeOfAttribute(d.dataTheme));
    var d1 := d.(storage := d.storage[ThemeStorageKey := next]);
    assert StoredTheme(Toggled(d).storage) == next;
    ApplyIdempotent(d1, next);
  }

  // ---------------------------------------------------------------------------
  // The page's document, updated in place
  // ---------------------------------------------------------------------------

  /** The page document and local storage, as the exported functions of the module mutate them. */
  class ThemedDocument {
    var dataTheme: Option<string>
    var cssVars: map<CssVar, string>
    var iconSrc: string
    var toggleTitle: string
    var hasCanvas: bool
    var canvasFilter: string
    var storage: map<string, string>
    /** Whether the browser offers `document.startViewTransition`. */
    const viewTransitions: bool

    /** The current state as a value. */
    function Snapshot(): Document
      reads this
    {
      Document(dataTheme, cssVars, iconSrc, toggleTitle, hasCanvas, canvasFilter, storage)
    }

    constructor (initial: Document, viewTransitions: bool)
      ensures Snapshot() == initial
      ensures this.viewTransitions == viewTransitions
    {
      dataTheme := initial.dataTheme;
      cssVars := initial.cssVars;
      iconSrc := initial.iconSrc;
      toggleTitle := initial.toggleTitle;
      hasCanvas := initial.hasCanvas;
      canvasFilter := initial.canvasFilter;
      storage := initial.storage;
      this.viewTransitions := viewTransitions;
    }

    /** `setCSSVariables(theme)`: twelve successive property writes on the root element. */
    method SetCSSVariables(theme: string)
      modifies this`cssVars
      ensures cssVars == WithTheme(old(cssVars), theme)
    {
      var current := if theme == DarkTheme then DarkThemeColors else LightThemeColors;
      var opposite := if theme == DarkTheme then LightThemeColors else DarkThemeColors;

      SixWrites(cssVars, false, current);
      cssVars := cssVars[CssVar(false, Bg) := current.bg];
      cssVars := cssVars[CssVar(false, Text) := current.text];
      cssVars := cssVars[CssVar(false, Border) := current.border];
      cssVars := cssVars[CssVar(false, ButtonBg) := current.buttonBg];
      cssVars := cssVars[CssVar(false, ButtonHover) := current.buttonHover];
      cssVars := cssVars[CssVar(false, ButtonBorderHover) := current.buttonBorderHover];

      SixWrites(cssVars, true, opposite);
      cssVars := cssVars[CssVar(true, Bg) := opposite.bg];
      cssVars := cssVars[CssVar(true, Text) := opposite.text];
      cssVars := cssVars[CssVar(true, Border) := opposite.border];
      cssVars := cssVars[CssVar(true, ButtonBg) := opposite.buttonBg];
      cssVars := cssVars[CssVar(true, ButtonHover) := opposite.buttonHover];
      cssVars := cssVars[CssVar(true, ButtonBorderHover) := opposite.buttonBorderHover];
      assert current == ThemeColors(theme) && opposite == ThemeColors(OppositeTheme(theme));
    }

    /** The update `applyTheme` runs, directly or inside a view transition. */
    method UpdateTheme(theme: string)
      modifies this
      ensures Snapshot() == Applied(old(Snapshot()), theme)
    {
      if theme == DarkTheme {
        dataTheme := Some(DarkTheme);
        SetCSSVariables(DarkTheme);
        iconSrc := DarkIcon;
        toggleTitle := DarkToggleTitle;
        if hasCanvas {
          canvasFilter := InvertFilter;
        }
      } else {
        dataTheme := None;
        SetCSSVariables(LightTheme);
        iconSrc := LightIcon;
        toggleTitle := LightToggleTitle;
        if hasCanvas {
          canvasFilter := NoFilter;
        }
      }
    }

    /**
     * `applyTheme(theme, useTransition)`. The transition only changes how the update is
     * painted, so the resulting state is the same whichever way it runs.
     */
    method ApplyTheme(theme: string, useTransition: bool)
      modifies this
      ensures Snapshot() == Applied(old(Snapshot()), theme)
    {
      if useTransition && viewTransitions {
        // the update runs inside a view transition
        UpdateTheme(theme);
      } else {
        UpdateTheme(theme);
      }
    }

    /** `initializeTheme()`: read the preference, falling back to light, and apply it. */
    method InitializeTheme()
      modifies this
      ensures Snapshot() == Initialized(old(Snapshot()))
    {
      var theme := LightTheme;
      if ThemeStorageKey in storage && storage[ThemeStorageKey] != "" {
        theme := storage[ThemeStorageKey];
      }
      ApplyTheme(theme, false);
    }

    /** `toggleTheme()`: read the attribute, store the opposite theme, apply it with a transition. */
    method ToggleTheme()
      modifies this
      ensures Snapshot() == Toggled(old(Snapshot()))
    {
      var currentTheme := LightTheme;
      if dataTheme.Some? && dataTheme.value != "" {
        currentTheme := dataTheme.value;
      }
      var newTheme := if currentTheme == DarkTheme then LightTheme else DarkTheme;
      storage := storage[ThemeStorageKey := newTheme];
      ApplyTheme(newTheme, true);
    }
  }
}
