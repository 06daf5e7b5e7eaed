/**
 * Theme identifiers and colour palettes (shared/config.js): constant records and
 * two total selector functions, with no state.
 */
module Config {

  /** Key of the persisted theme preference. */
  const ThemeStorageKey: string := "theme-preference"
  const DarkTheme: string := "dark"
  const LightTheme: string := "light"

  /** The six colours every palette defines. */
  datatype Palette = Palette(
    bg: string,
    text: string,
    border: string,
    buttonBg: string,
    buttonHover: string,
    buttonBorderHover: string)

  const LightThemeColors: Palette :=
    Palette("#ffffff", "#333333", "#e0e0e0", "#f5f5f5", "#e8e8e8", "#b8b8b8")

  const DarkThemeColors: Palette :=
    Palette("#1e1e1e", "#e0e0e0", "#555555", "#333333", "#3f3f3f", "#777777")

  /** One of the two theme identifiers the extension itself ever writes. */
  predicate IsTheme(theme: string) {
    theme == DarkTheme || theme == LightTheme
  }

  /** The palette of a theme: dark exactly for "dark", light for every other string. */
  function ThemeColors(theme: string): (p: Palette)
    ensures p == DarkThemeColors <==> theme == DarkTheme
    ensures p == LightThemeColors <==> theme != DarkTheme
  {
    if theme == DarkTheme then DarkThemeColors else LightThemeColors
  }

  /** The other theme; every string that is not "dark" counts as light. */
  function OppositeTheme(theme: string): (r: string)
    ensures IsTheme(r)
    ensures r == DarkTheme <==> theme != DarkTheme
    ensures r != theme
  {
    if theme == DarkTheme then LightTheme else DarkTheme
  }

  /** Taking the opposite twice gives back a known theme. */
  lemma OppositeInvolution(theme: string)
    requires IsTheme(theme)
    ensures OppositeTheme(OppositeTheme(theme)) == theme
  {
  }

  /** A theme's palette and its opposite's palette never coincide, already on the background. */
  lemma OppositePaletteDiffers(theme: string)
    ensures ThemeColors(theme).bg != ThemeColors(OppositeTheme(theme)).bg
    ensures ThemeColors(theme) != ThemeColors(OppositeTheme(theme))
  {
  }
}
