/**
 * The popup page (popup/popup.js): its own theme handling (glyph icon and toolbar icon
 * set instead of CSS custom properties), the integer display scale of the QR canvas, the
 * http/https gate on the tab URL and the start-up dispatch between the two error
 * messages and QR generation.
 *
 * As in module Theme, `Page` is the state as a value, functions say what each operation
 * makes of it, and the class `PopupPage` performs the writes and is proved against them.
 * The URL parser and the QR generator are parameters: `parse` gives the protocol of a
 * string that parses as a URL and None when parsing throws; `generate` gives the side
 * of the module grid of the generated code or GenerationFailed when the library throws.
 */
module Popup {
  import opened Wrappers
  import opened Config
  import Theme

  const MoonGlyph: string := "\U{1F319}"
  const SunGlyph: string := "\U{2600}\U{FE0F}"

  /** Paths of the toolbar icon at 16, 48 and 128 pixels. */
  datatype IconSet = IconSet(icon16: string, icon48: string, icon128: string)

  const DarkToolbarIcons: IconSet :=
    IconSet("../icons/icon-16.dark.png", "../icons/icon-48.dark.png", "../icons/icon-128.dark.png")
  const LightToolbarIcons: IconSet :=
    IconSet("../icons/icon-16.png", "../icons/icon-48.png", "../icons/icon-128.png")

  /** Quiet-zone width, in modules, the code is rendered with on the canvas. */
  const QrPadding: nat := 4

  const NoTabMessage: string := "No active tab found."
  const WebPagesOnlyMessage: string :=
    "QR codes can only be generated for web pages (http:// or https://)."
  const GenerationFailedMessage: string := "Failed to generate QR code. Please try again."

  const HttpProtocol: string := "http:"
  const HttpsProtocol: string := "https:"

  /** Values of `style.display` the popup writes. */
  const Flex: string := "flex"
  const Hidden: string := "none"
  const Block: string := "block"

  /** The outcome of the QR library on one input: the side of the module grid, or a throw. */
  datatype Generation = Generated(modules: nat) | GenerationFailed

  /** The first active tab of the current window; its URL may be undefined. */
  datatype Tab = Tab(url: Option<string>)

  /** What the start-up callback decides to do with the tab it got. */
  datatype Action = ShowQr(url: string) | ShowErr(message: string)

  /** The parts of the popup page and of local storage that popup.js reads or writes. */
  datatype Page = Page(
    dataTheme: Option<string>,      // the root element's `data-theme` attribute
    themeIconText: string,          // text of the theme toggle's glyph
    toggleTitle: string,            // `title` of the theme toggle
    toolbarIcons: IconSet,          // the extension's toolbar icon
    hasCanvas: bool,                // whether #qr-canvas exists
    canvasFilter: string,           // its CSS filter
    canvasWidth: nat,               // its native width in device pixels
    styleWidth: nat,                // its displayed CSS width, in px
    styleHeight: nat,               // its displayed CSS height, in px
    hasDisplay: bool,               // whether #qr-display exists
    containerWidth: nat,            // #qr-display's clientWidth
    containerHeight: nat,           // #qr-display's clientHeight
    displayStyle: string,           // #qr-display's style.display
    errorStyle: string,             // #error-message's style.display
    errorText: string,              // #error-message's text
    storage: map<string, string>)   // extension-local storage

  // ---------------------------------------------------------------------------
  // Theme
  // ---------------------------------------------------------------------------

  /** The page after popup.js's `applyTheme(theme)`. */
  function Applied(p: Page, theme: string): Page {
    if theme == DarkTheme then
      p.(dataTheme := Some(DarkTheme),
         themeIconText := MoonGlyph,
         toggleTitle := Theme.DarkToggleTitle,
         canvasFilter := if p.hasCanvas then Theme.InvertFilter else p.canvasFilter,
         toolbarIcons := DarkToolbarIcons)
    else
      p.(dataTheme := None,
         themeIconText := SunGlyph,
         toggleTitle := Theme.LightToggleTitle,
         canvasFilter := if p.hasCanvas then Theme.NoFilter else p.canvasFilter,
         toolbarIcons := LightToolbarIcons)
  }

  /** The page after `initializeTheme()`. */
  function Initialized(p: Page): Page {
    Applied(p, Theme.StoredTheme(p.storage))
  }

  /** The page after `toggleTheme()`. */
  function Toggled(p: Page): Page {
    var next := OppositeTheme(Theme.ThemeOfAttribute(p.dataTheme));
    Applied(p.(storage := p.storage[ThemeStorageKey := next]), next)
  }

  /** Glyph, title, toolbar icons and canvas filter all agree with the `data-theme` attribute. */
  predicate Coherent(p: Page) {
    var dark := p.dataTheme == Some(DarkTheme);
    && (p.dataTheme == None || dark)
    && p.themeIconText == (if dark then MoonGlyph else SunGlyph)
    && p.toggleTitle == (if dark then Theme.DarkToggleTitle else Theme.LightToggleTitle)
    && p.toolbarIcons == (if dark then DarkToolbarIcons else LightToolbarIcons)
    && (p.hasCanvas ==> p.canvasFilter == (if dark then Theme.InvertFilter else Theme.NoFilter))
  }

  /** Two pages show the same render: same canvas, same sizes, same visible areas and message. */
  predicate SameRender(p: Page, q: Page) {
    && p.hasCanvas == q.hasCanvas
    && p.canvasWidth == q.canvasWidth
    && p.styleWidth == q.styleWidth
    && p.styleHeight == q.styleHeight
    && p.hasDisplay == q.hasDisplay
    && p.containerWidth == q.containerWidth
    && p.containerHeight == q.containerHeight
    && p.displayStyle == q.displayStyle
    && p.errorStyle == q.errorStyle
    && p.errorText == q.errorText
  }

  /**
   * Applying a theme shows it (unknown strings show light), makes every marker agree with
   * it, and leaves the render and storage alone.
   */
  lemma ApplyShowsTheme(p: Page, theme: string)
    ensures Theme.ThemeOfAttribute(Applied(p, theme).dataTheme) == Theme.Shown(theme)
    ensures Coherent(Applied(p, theme))
    ensures SameRender(Applied(p, theme), p)
    ensures Applied(p, theme).storage == p.storage
  {
  }

  /** The last apply wins. */
  lemma ApplyOverrides(p: Page, first: string, second: string)
    ensures Applied(Applied(p, first), second) == Applied(p, second)
  {
  }

  /** Applying the same theme twice changes nothing more than applying it once. */
  lemma ApplyIdempotent(p: Page, theme: string)
    ensures Applied(Applied(p, theme), theme) == Applied(p, theme)
  {
    ApplyOverrides(p, theme, theme);
  }

  /** Start-up shows the stored preference, light when nothing is stored. */
  lemma InitializeAppliesPreference(p: Page)
    ensures Theme.ThemeOfAttribute(Initialized(p).dataTheme) == Theme.Shown(Theme.StoredTheme(p.storage))
    ensures ThemeStorageKey !in p.storage ==> Initialized(p) == Applied(p, LightTheme)
    ensures Coherent(Initialized(p))
  {
    ApplyShowsTheme(p, Theme.StoredTheme(p.storage));
  }

  /**
   * Toggling shows the opposite of the theme the attribute stood for (light when it is
   * absent), stores exactly the theme it then shows, flips the canvas filter, and leaves
   * the rendered code as it was: nothing is generated again.
   */
  lemma ToggleFlips(p: Page)
    ensures Theme.ThemeOfAttribute(Toggled(p).dataTheme) == OppositeTheme(Theme.ThemeOfAttribute(p.dataTheme))
    ensures Theme.StoredTheme(Toggled(p).storage) == Theme.ThemeOfAttribute(Toggled(p).dataTheme)
    ensures Coherent(Toggled(p))
    ensures SameRender(Toggled(p), p)
    ensures Coherent(p) && p.hasCanvas ==> Toggled(p).canvasFilter != p.canvasFilter
  {
    var next := OppositeTheme(Theme.ThemeOfAttribute(p.dataTheme));
    ApplyShowsTheme(p.(storage := p.storage[ThemeStorageKey := next]), next);
  }

  // ---------------------------------------------------------------------------
  // Canvas scaling
  // ---------------------------------------------------------------------------

  function Min(a: nat, b: nat): nat {
    if a < b then a else b
  }

  /**
   * The integer factor the canvas is displayed at: the largest whole number of canvas
   * sizes that fits the smaller container side, and never less than 1 (a container
   * smaller than the canvas overflows rather than blurs).
   */
  function DisplayScale(canvasSize: nat, containerWidth: nat, containerHeight: nat): (scale: nat)
    requires canvasSize > 0
    ensures scale >= 1
    ensures scale == 1 || canvasSize * scale <= Min(containerWidth, containerHeight)
    ensures canvasSize * (scale + 1) > Min(containerWidth, containerHeight)
  {
    var maxScale := Min(containerWidth, containerHeight) / canvasSize;
    if maxScale > 1 then maxScale else 1
  }

  /** Whenever at least one whole canvas fits, the scale is exactly the floor of the ratio. */
  lemma DisplayScaleIsFloor(canvasSize: nat, containerWidth: nat, containerHeight: nat)
    requires canvasSize > 0
    requires Min(containerWidth, containerHeight) / canvasSize >= 1
    ensures DisplayScale(canvasSize, containerWidth, containerHeight)
         == Min(containerWidth, containerHeight) / canvasSize
    ensures canvasSize * DisplayScale(canvasSize, containerWidth, containerHeight)
         <= Min(containerWidth, containerHeight)
  {
  }

  /** No integer scale larger than the chosen one fits the container. */
  lemma DisplayScaleIsLargestFit(canvasSize: nat, containerWidth: nat, containerHeight: nat, k: nat)
    requires canvasSize > 0
    requires canvasSize * k <= Min(containerWidth, containerHeight)
    ensures k <= DisplayScale(canvasSize, containerWidth, containerHeight)
  {
  }

  /** The page after `updateCanvasScale()`. */
  function Rescaled(p: Page): Page {
    if !p.hasCanvas || p.canvasWidth == 0 || !p.hasDisplay then
      p
    else
      var displaySize := p.canvasWidth * DisplayScale(p.canvasWidth, p.containerWidth, p.containerHeight);
      p.(styleWidth := displaySize, styleHeight := displaySize)
  }

  /**
   * Rescaling displays the canvas as a square of a whole multiple of its native size, at
   * least the native size, and within the container whenever the container can hold it;
   * nothing else changes. Without canvas, container or native width nothing changes at all.
   */
  lemma RescaledIsSquareFit(p: Page)
    ensures !p.hasCanvas || p.canvasWidth == 0 || !p.hasDisplay ==> Rescaled(p) == p
    ensures p.hasCanvas && p.canvasWidth > 0 && p.hasDisplay ==>
              var r := Rescaled(p);
              && r.styleWidth == r.styleHeight
              && r.styleWidth == p.canvasWidth * DisplayScale(p.canvasWidth, p.containerWidth, p.containerHeight)
              && r.styleWidth >= p.canvasWidth
              && (p.canvasWidth <= Min(p.containerWidth, p.containerHeight)
                  ==> r.styleWidth <= Min(p.containerWidth, p.containerHeight))
              && r == p.(styleWidth := r.styleWidth, styleHeight := r.styleHeight)
  {
    if p.hasCanvas && p.canvasWidth > 0 && p.hasDisplay {
      var scale := DisplayScale(p.canvasWidth, p.containerWidth, p.containerHeight);
      assert p.canvasWidth * scale >= p.canvasWidth * 1;
      if p.canvasWidth <= Min(p.containerWidth, p.containerHeight) {
        DisplayScaleIsFloor(p.canvasWidth, p.containerWidth, p.containerHeight);
      }
    }
  }

  // ---------------------------------------------------------------------------
  // URL gate and dispatch
  // ---------------------------------------------------------------------------

  /**
   * `isValidWebUrl(url)`: false for an undefined or empty URL and for one that does not
   * parse; otherwise true exactly when the parsed protocol is `http:` or `https:`.
   */
  function IsValidWebUrl(url: Option<string>, parse: string -> Option<string>): (ok: bool)
    ensures url == None || url == Some("") ==> !ok
    ensures url.Some? && parse(url.value) == None ==> !ok
    ensures ok <==> url.Some? && url.value != ""
                    && (parse(url.value) == Some(HttpProtocol) || parse(url.value) == Some(HttpsProtocol))
  {
    if url == None || url.value == "" then
      false
    else
      match parse(url.value)
      case None => false
      case Some(protocol) => protocol == HttpProtocol || protocol == HttpsProtocol
  }

  /** The branch the tab-query callback takes. */
  function Dispatch(tab: Option<Tab>, parse: string -> Option<string>): (a: Action)
    ensures tab == None ==> a == ShowErr(NoTabMessage)
    ensures a.ShowQr? <==> tab.Some? && IsValidWebUrl(tab.value.url, parse)
    ensures a.ShowQr? ==> tab.Some? && tab.value.url == Some(a.url)
    ensures tab.Some? && !IsValidWebUrl(tab.value.url, parse) ==> a == ShowErr(WebPagesOnlyMessage)
  {
    match tab
    case None => ShowErr(NoTabMessage)
    case Some(t) =>
      if IsValidWebUrl(t.url, parse) then ShowQr(t.url.value) else ShowErr(WebPagesOnlyMessage)
  }

  /**
   * The page after `showError(message)`. Without #qr-display the first write throws, so
   * nothing changes.
   */
  function ErrorShown(p: Page, message: string): Page {
    if !p.hasDisplay then p
    else p.(displayStyle := Hidden, errorStyle := Block, errorText := message)
  }

  /**
   * The page after `displayQRCode(data)` when the library's outcome on `data` is `g`, with
   * the deferred rescale already run. Without #qr-display the first write throws, the
   * handler's `showError` throws again, and nothing changes. A failed generation, or a
   * missing canvas to render onto, ends in the fixed failure message.
   */
  function QrDisplayed(p: Page, g: Generation): Page {
    if !p.hasDisplay then
      p
    else
      var shown := p.(displayStyle := Flex, errorStyle := Hidden);
      if g.GenerationFailed? || !shown.hasCanvas then
        ErrorShown(shown, GenerationFailedMessage)
      else
        Rescaled(shown.(canvasWidth := g.modules + 2 * QrPadding))
  }

  /** The page after performing the dispatched action. */
  function Performed(p: Page, a: Action, generate: string -> Generation): Page {
    match a
    case ShowQr(url) => QrDisplayed(p, generate(url))
    case ShowErr(message) => ErrorShown(p, message)
  }

  /** The page after `init()`: theme initialised, then the tab dispatched. */
  function Launched(p: Page, tab: Option<Tab>, parse: string -> Option<string>,
                    generate: string -> Generation): Page
  {
    Performed(Initialized(p), Dispatch(tab, parse), generate)
  }

  /** A failed generation hides the code area and shows the fixed message in the error area. */
  lemma GenerationFailureShowsError(p: Page)
    requires p.hasDisplay
    ensures var r := QrDisplayed(p, GenerationFailed);
            && r.displayStyle == Hidden && r.errorStyle == Block
            && r.errorText == GenerationFailedMessage
            && r == p.(displayStyle := Hidden, errorStyle := Block, errorText := GenerationFailedMessage)
  {
  }

  /**
   * A successful generation shows the code area, hides the error area, gives the canvas
   * its native width (grid plus quiet zone on both sides) and displays it as a square at
   * the display scale.
   */
  lemma GenerationSuccessRenders(p: Page, modules: nat)
    requires p.hasDisplay && p.hasCanvas
    ensures var r := QrDisplayed(p, Generated(modules));
            && r.displayStyle == Flex && r.errorStyle == Hidden
            && r.canvasWidth == modules + 2 * QrPadding
            && r.styleWidth == r.styleHeight
            && r.styleWidth == r.canvasWidth * DisplayScale(r.canvasWidth, p.containerWidth, p.containerHeight)
            && r.errorText == p.errorText
  {
  }

  /** No tab: the fixed "No active tab found." message, whatever the generator would do. */
  lemma NoTabShowsError(p: Page, parse: string -> Option<string>, generate: string -> Generation)
    requires p.hasDisplay
    ensures Launched(p, None, parse, generate)
         == ErrorShown(Initialized(p), NoTabMessage)
    ensures Launched(p, None, parse, generate).errorText == NoTabMessage
    ensures Launched(p, None, parse, generate).displayStyle == Hidden
  {
  }

  /**
   * A tab whose URL is not an http/https URL gets the web-pages-only message, and the
   * generator is never consulted: any two generators give the same page.
   */
  lemma InvalidUrlSkipsGeneration(p: Page, tab: Tab, parse: string -> Option<string>,
                                  generate: string -> Generation, other: string -> Generation)
    requires !IsValidWebUrl(tab.url, parse)
    ensures Launched(p, Some(tab), parse, generate) == Launched(p, Some(tab), parse, other)
    ensures Launched(p, Some(tab), parse, generate) == ErrorShown(Initialized(p), WebPagesOnlyMessage)
  {
  }

  /** A tab with a valid URL has exactly that URL generated and displayed. */
  lemma ValidUrlGenerates(p: Page, tab: Tab, parse: string -> Option<string>, generate: string -> Generation)
    requires IsValidWebUrl(tab.url, parse)
    ensures tab.url.Some?
    ensures Launched(p, Some(tab), parse, generate) == QrDisplayed(Initialized(p), generate(tab.url.value))
  {
  }

  /** Dispatch never touches the theme markers, so a launched page is coherent. */
  lemma LaunchedIsCoherent(p: Page, tab: Option<Tab>, parse: string -> Option<string>,
                           generate: string -> Generation)
    ensures Coherent(Launched(p, tab, parse, generate))
    ensures Launched(p, tab, parse, generate).storage == p.storage
  {
    InitializeAppliesPreference(p);
  }

  // ---------------------------------------------------------------------------
  // The popup page, updated in place
  // ---------------------------------------------------------------------------

  /** The popup document and local storage, as popup.js mutates them. */
  class PopupPage {
    var dataTheme: Option<string>
    var themeIconText: string
    var toggleTitle: string
    var toolbarIcons: IconSet
    var hasCanvas: bool
    var canvasFilter: string
    var canvasWidth: nat
    var styleWidth: nat
    var styleHeight: nat
    var hasDisplay: bool
    var containerWidth: nat
    var containerHeight: nat
    var displayStyle: string
    var errorStyle: string
    var errorText: string
    var storage: map<string, string>
    /** Whether the browser offers `document.startViewTransition`. */
    const viewTransitions: bool

    /** The current state as a value. */
    function Snapshot(): Page
      reads this
    {
      Page(dataTheme, themeIconText, toggleTitle, toolbarIcons, hasCanvas, canvasFilter,
           canvasWidth, styleWidth, styleHeight, hasDisplay, containerWidth, containerHeight,
           displayStyle, errorStyle, errorText, storage)
    }

    constructor (initial: Page, viewTransitions: bool)
      ensures Snapshot() == initial
      ensures this.viewTransitions == viewTransitions
    {
      dataTheme := initial.dataTheme;
      themeIconText := initial.themeIconText;
      toggleTitle := initial.toggleTitle;
      toolbarIcons := initial.toolbarIcons;
      hasCanvas := initial.hasCanvas;
      canvasFilter := initial.canvasFilter;
      canvasWidth := initial.canvasWidth;
      styleWidth := initial.styleWidth;
      styleHeight := initial.styleHeight;
      hasDisplay := initial.hasDisplay;
      containerWidth := initial.containerWidth;
      containerHeight := initial.containerHeight;
      displayStyle := initial.displayStyle;
      errorStyle := initial.errorStyle;
      errorText := initial.errorText;
      storage := initial.storage;
      this.viewTransitions := viewTransitions;
    }

    /** The update `applyTheme` runs, directly or inside a view transition. */
    method UpdateTheme(theme: string)
      modifies this
      ensures Snapshot() == Applied(old(Snapshot()), theme)
    {
      if theme == DarkTheme {
        dataTheme := Some(DarkTheme);
        themeIconText := MoonGlyph;
        toggleTitle := Theme.DarkToggleTitle;
        if hasCanvas {
          canvasFilter := Theme.InvertFilter;
        }
        toolbarIcons := DarkToolbarIcons;
      } else {
        dataTheme := None;
        themeIconText := SunGlyph;
        toggleTitle := Theme.LightToggleTitle;
        if hasCanvas {
          canvasFilter := Theme.NoFilter;
        }
        toolbarIcons := LightToolbarIcons;
      }
    }

    /** `applyTheme(theme, useTransition)`: the same resulting state with or without transition. */
    method ApplyTheme(theme: string, useTransition: bool)
      modifies this
      ensures Snapshot() == Applied(old(Snapshot()), theme)
    {
      if useTransition && viewTransitions {
        // the update runs inside a view transition
        UpdateTheme(theme);
      } else {
        UpdateTheme(theme);
      }
    }

    /** `initializeTheme()`: read the preference, falling back to light, and apply it. */
    method InitializeTheme()
      modifies this
      ensures Snapshot() == Initialized(old(Snapshot()))
    {
      var theme := LightTheme;
      if ThemeStorageKey in storage && storage[ThemeStorageKey] != "" {
        theme := storage[ThemeStorageKey];
      }
      ApplyTheme(theme, false);
    }

    /** `toggleTheme()`: store the opposite of the attribute's theme, then apply it. */
    method ToggleTheme()
      modifies this
      ensures Snapshot() == Toggled(old(Snapshot()))
    {
      var currentTheme := LightTheme;
      if dataTheme.Some? && dataTheme.value != "" {
        currentTheme := dataTheme.value;
      }
      var newTheme := if currentTheme == DarkTheme then LightTheme else DarkTheme;
      storage := storage[ThemeStorageKey := newTheme];
      ApplyTheme(newTheme, true);
    }

    /** `updateCanvasScale()`: display the canvas as a square at the integer scale. */
    method UpdateCanvasScale()
      modifies this
      ensures Snapshot() == Rescaled(old(Snapshot()))
    {
      if !hasCanvas || canvasWidth == 0 || !hasDisplay {
        return;
      }
      var canvasSize := canvasWidth;
      var maxScale := Min(containerWidth, containerHeight) / canvasSize;
      var scale := if maxScale > 1 then maxScale else 1;
      var displaySize := canvasSize * scale;
      styleWidth := displaySize;
      styleHeight := displaySize;
    }

    /** `showError(message)`. */
    method ShowError(message: string)
      modifies this
      ensures Snapshot() == ErrorShown(old(Snapshot()), message)
    {
      if !hasDisplay {
        // `qrDisplay.style` throws before anything is written
        return;
      }
      displayStyle := Hidden;
      errorStyle := Block;
      errorText := message;
    }

    /** `displayQRCode(data)`, with the rescale it schedules for the next frame run at once. */
    method DisplayQRCode(data: string, generate: string -> Generation)
      modifies this
      ensures Snapshot() == QrDisplayed(old(Snapshot()), generate(data))
    {
      if !hasDisplay {
        // the first write throws; the handler's showError throws the same way
        ShowError(GenerationFailedMessage);
        return;
      }
      displayStyle := Flex;
      errorStyle := Hidden;
      var qrCode := generate(data);
      if qrCode.GenerationFailed? || !hasCanvas {
        ShowError(GenerationFailedMessage);
        return;
      }
      canvasWidth := qrCode.modules + 2 * QrPadding;
      UpdateCanvasScale();
    }

    /** `init()`: initialise the theme, then act on the active tab. */
    method Init(tab: Option<Tab>, parse: string -> Option<string>, generate: string -> Generation)
      modifies this
      ensures Snapshot() == Launched(old(Snapshot()), tab, parse, generate)
    {
      InitializeTheme();
      if tab.Some? {
        var url := tab.value.url;
        if IsValidWebUrl(url, parse) {
          DisplayQRCode(url.value, generate);
        } else {
          ShowError(WebPagesOnlyMessage);
        }
      } else {
        ShowError(NoTabMessage);
      }
    }
  }
}
