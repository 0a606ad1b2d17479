/** The preference store (src/composables/useAccessibility.ts): a fresh set
    of six presentation preferences per call, a shared colour palette that a
    call with a colour configuration replaces by "defaults overlaid with the
    configuration", the read-only configuration snapshot, and the writing of
    the palette as six custom style properties on the document root.

    The document is injected: a `Document` object whose `style` map stands
    for the root element's style declarations, `null` where there is no
    document. Colour values are opaque strings. */
module Accessibility {
  import opened Wrappers

  /** The six palette entries. */
  datatype ColorKey =
    | PrimaryColor
    | PrimaryHoverColor
    | LinkHighlightBg
    | LinkHighlightBorder
    | ReadingHighlightBg
    | ReadingHighlightBorder

  /** `AccessibilityColorConfig`: every entry optional. */
  datatype ColorConfig = ColorConfig(
    primaryColor: Option<string>,
    primaryHoverColor: Option<string>,
    linkHighlightBg: Option<string>,
    linkHighlightBorder: Option<string>,
    readingHighlightBg: Option<string>,
    readingHighlightBorder: Option<string>)
  {
    function Get(k: ColorKey): Option<string>
    {
      match k
      case PrimaryColor => primaryColor
      case PrimaryHoverColor => primaryHoverColor
      case LinkHighlightBg => linkHighlightBg
      case LinkHighlightBorder => linkHighlightBorder
      case ReadingHighlightBg => readingHighlightBg
      case ReadingHighlightBorder => readingHighlightBorder
    }
  }

  /** The configuration `{}`: it supplies no colour. */
  const NoColors: ColorConfig := ColorConfig(None, None, None, None, None, None)

  /** `Required<AccessibilityColorConfig>`: a fully populated palette. */
  datatype Palette = Palette(
    primaryColor: string,
    primaryHoverColor: string,
    linkHighlightBg: string,
    linkHighlightBorder: string,
    readingHighlightBg: string,
    readingHighlightBorder: string)
  {
    function Get(k: ColorKey): string
    {
      match k
      case PrimaryColor => primaryColor
      case PrimaryHoverColor => primaryHoverColor
      case LinkHighlightBg => linkHighlightBg
      case LinkHighlightBorder => linkHighlightBorder
      case ReadingHighlightBg => readingHighlightBg
      case ReadingHighlightBorder => readingHighlightBorder
    }
  }

  /** `defaultColors`. */
  const DefaultColors: Palette := Palette(
    primaryColor := "#2563eb",
    primaryHoverColor := "#1d4ed8",
    linkHighlightBg := "#fef08a",
    linkHighlightBorder := "#eab308",
    readingHighlightBg := "#bfdbfe",
    readingHighlightBorder := "#3b82f6")

  /** `{ ...defaultColors, ...config }`: every colour the configuration
      supplies is taken from it, every other one from the defaults. */
  function Overlay(config: ColorConfig): (p: Palette)
    ensures forall k :: config.Get(k).Some? ==> p.Get(k) == config.Get(k).value
    ensures forall k :: config.Get(k).None? ==> p.Get(k) == DefaultColors.Get(k)
  {
    Palette(
      config.primaryColor.GetOr(DefaultColors.primaryColor),
      config.primaryHoverColor.GetOr(DefaultColors.primaryHoverColor),
      config.linkHighlightBg.GetOr(DefaultColors.linkHighlightBg),
      config.linkHighlightBorder.GetOr(DefaultColors.linkHighlightBorder),
      config.readingHighlightBg.GetOr(DefaultColors.readingHighlightBg),
      config.readingHighlightBorder.GetOr(DefaultColors.readingHighlightBorder))
  }

  /** The configuration that supplies every colour of `p`. */
  function Supplying(p: Palette): (c: ColorConfig)
    ensures forall k :: c.Get(k) == Some(p.Get(k))
  {
    ColorConfig(Some(p.primaryColor), Some(p.primaryHoverColor), Some(p.linkHighlightBg),
                Some(p.linkHighlightBorder), Some(p.readingHighlightBg), Some(p.readingHighlightBorder))
  }

  /** Overlaying `{}` restores the defaults, whatever the palette was before. */
  lemma OverlayNothing()
    ensures Overlay(NoColors) == DefaultColors
  {
  }

  /** Overlaying a configuration that supplies every colour yields exactly
      that palette: every fully populated palette is reachable. */
  lemma OverlayEverything(p: Palette)
    ensures Overlay(Supplying(p)) == p
  {
  }

  /** The custom style property that carries each palette entry. */
  function CssProperty(k: ColorKey): string
  {
    match k
    case PrimaryColor => "--accessibility-primary"
    case PrimaryHoverColor => "--accessibility-primary-hover"
    case LinkHighlightBg => "--accessibility-link-highlight-bg"
    case LinkHighlightBorder => "--accessibility-link-highlight-border"
    case ReadingHighlightBg => "--accessibility-reading-highlight-bg"
    case ReadingHighlightBorder => "--accessibility-reading-highlight-border"
  }

  /** The six custom style properties the palette is written to. */
  const CssProperties: set<string> := {
    "--accessibility-primary",
    "--accessibility-primary-hover",
    "--accessibility-link-highlight-bg",
    "--accessibility-link-highlight-border",
    "--accessibility-reading-highlight-bg",
    "--accessibility-reading-highlight-border"
  }

  /** Each palette entry has its own property, and the properties are
      exactly `CssProperties`. */
  lemma CssPropertiesDistinct()
    ensures forall k1, k2 :: CssProperty(k1) == CssProperty(k2) ==> k1 == k2
    ensures forall k :: CssProperty(k) in CssProperties
    ensures forall name :: name in CssProperties ==> exists k :: CssProperty(k) == name
  {
    forall name | name in CssProperties
      ensures exists k :: CssProperty(k) == name
    {
      if name == "--accessibility-primary" {
        assert CssProperty(PrimaryColor) == name;
      } else if name == "--accessibility-primary-hover" {
        assert CssProperty(PrimaryHoverColor) == name;
      } else if name == "--accessibility-link-highlight-bg" {
        assert CssProperty(LinkHighlightBg) == name;
      } else if name == "--accessibility-link-highlight-border" {
        assert CssProperty(LinkHighlightBorder) == name;
      } else if name == "--accessibility-reading-highlight-bg" {
        assert CssProperty(ReadingHighlightBg) == name;
      } else {
        assert CssProperty(ReadingHighlightBorder) == name;
      }
    }
  }

  /** One declaration write, `setProperty(name, value)`: an empty value
      removes the declaration, any other value sets it; no other
      declaration changes. */
  function StyleWrite(style: map<string, string>, name: string, value: string): (r: map<string, string>)
    ensures value == "" ==> name !in r
    ensures value != "" ==> name in r && r[name] == value
    ensures forall other :: other != name ==> (other in r <==> other in style)
    ensures forall other :: other in style && other != name ==> r[other] == style[other]
  {
    if value == "" then style - {name} else style[name := value]
  }

  /** The root style after the six writes of `applyColors`: each palette
      property holds its colour when the colour is non-empty and is removed
      when it is empty; every other property keeps its value. */
  function WithColors(style: map<string, string>, p: Palette): (r: map<string, string>)
    ensures forall k :: p.Get(k) != "" ==> CssProperty(k) in r && r[CssProperty(k)] == p.Get(k)
    ensures forall k :: p.Get(k) == "" ==> CssProperty(k) !in r
    ensures forall name :: name !in CssProperties ==> (name in r <==> name in style)
    ensures forall name :: name in style && name !in CssProperties ==> r[name] == style[name]
  {
    CssPropertiesDistinct();
    var s1 := StyleWrite(style, CssProperty(PrimaryColor), p.primaryColor);
    var s2 := StyleWrite(s1, CssProperty(PrimaryHoverColor), p.primaryHoverColor);
    var s3 := StyleWrite(s2, CssProperty(LinkHighlightBg), p.linkHighlightBg);
    var s4 := StyleWrite(s3, CssProperty(LinkHighlightBorder), p.linkHighlightBorder);
    var s5 := StyleWrite(s4, CssProperty(ReadingHighlightBg), p.readingHighlightBg);
    StyleWrite(s5, CssProperty(ReadingHighlightBorder), p.readingHighlightBorder)
  }

  /** The default palette has no empty colour, so writing it sets all six
      properties: the property set becomes the old one plus the six. */
  lemma DefaultsSetEveryProperty(style: map<string, string>)
    ensures WithColors(style, DefaultColors).Keys == style.Keys + CssProperties
  {
    var r := WithColors(style, DefaultColors);
    CssPropertiesDistinct();
    forall name | name in CssProperties
      ensures name in r
    {
      var k :| CssProperty(k) == name;
      assert DefaultColors.Get(k) != "";
    }
  }

  /** The document root (`document.documentElement`) with its style. */
  class Document {
    var style: map<string, string>

    constructor (style: map<string, string>)
      ensures this.style == style
    {
      this.style := style;
    }

    /** `style.setProperty(name, value)`. */
    method SetProperty(name: string, value: string)
      modifies this
      ensures style == StyleWrite(old(style), name, value)
    {
      if value == "" {
        style := style - {name};
      } else {
        style := style[name := value];
      }
    }
  }

  /** `applyColors(colorConfig)`: writes the six palette properties on the
      document root; does nothing when there is no document. */
  method ApplyColors(doc: Document?, colorConfig: Palette)
    modifies doc
    ensures doc != null ==> doc.style == WithColors(old(doc.style), colorConfig)
  {
    if doc == null {
      return;
    }
    doc.SetProperty("--accessibility-primary", colorConfig.primaryColor);
    doc.SetProperty("--accessibility-primary-hover", colorConfig.primaryHoverColor);
    doc.SetProperty("--accessibility-link-highlight-bg", colorConfig.linkHighlightBg);
    doc.SetProperty("--accessibility-link-highlight-border", colorConfig.linkHighlightBorder);
    doc.SetProperty("--accessibility-reading-highlight-bg", colorConfig.readingHighlightBg);
    doc.SetProperty("--accessibility-reading-highlight-border", colorConfig.readingHighlightBorder);
  }

  /** The six preference fields one call of `useAccessibility` returns; the
      component changes them by assigning to them. */
  class Preferences {
    var fontSize: int
    var isDyslexicFont: bool
    var isHighContrast: bool
    var isHighlightLinks: bool
    var readOnHover: bool
    var readOnSelect: bool

    /** Font size 100 (per cent) and every toggle off. */
    constructor ()
      ensures fontSize == 100
      ensures !isDyslexicFont && !isHighContrast && !isHighlightLinks
      ensures !readOnHover && !readOnSelect
    {
      fontSize := 100;
      isDyslexicFont := false;
      isHighContrast := false;
      isHighlightLinks := false;
      readOnHover := false;
      readOnSelect := false;
    }
  }

  /** The value of the `config` snapshot. */
  datatype ConfigSnapshot = ConfigSnapshot(
    fontSize: int,
    isDyslexicFont: bool,
    isHighContrast: bool,
    isHighlightLinks: bool,
    readOnHover: bool,
    readOnSelect: bool,
    colors: Palette)

  /** The module-level shared palette (`colors`). */
  class ColorState {
    var colors: Palette

    /** Module load: a copy of the defaults. */
    constructor ()
      ensures colors == DefaultColors
    {
      colors := DefaultColors;
    }

    /** `config`: the six preference values of `prefs` together with the
        current shared palette. */
    function Config(prefs: Preferences): (c: ConfigSnapshot)
      reads this, prefs
      ensures c.fontSize == prefs.fontSize
      ensures c.isDyslexicFont == prefs.isDyslexicFont && c.isHighContrast == prefs.isHighContrast
      ensures c.isHighlightLinks == prefs.isHighlightLinks
      ensures c.readOnHover == prefs.readOnHover && c.readOnSelect == prefs.readOnSelect
      ensures c.colors == colors
    {
      ConfigSnapshot(prefs.fontSize, prefs.isDyslexicFont, prefs.isHighContrast,
                     prefs.isHighlightLinks, prefs.readOnHover, prefs.readOnSelect, colors)
    }

    /** `useAccessibility(colorConfig)`: fresh default preferences; with a
        configuration, the shared palette becomes the defaults overlaid with
        it (not the previous palette overlaid with it) and is written to the
        document; without one, palette and document are left alone. */
    method UseAccessibility(colorConfig: Option<ColorConfig>, doc: Document?) returns (prefs: Preferences)
      modifies this, doc
      ensures fresh(prefs)
      ensures colors == if colorConfig.Some? then Overlay(colorConfig.value) else old(colors)
      ensures doc != null ==>
              doc.style == if colorConfig.Some? then WithColors(old(doc.style), colors) else old(doc.style)
      ensures Config(prefs) == ConfigSnapshot(100, false, false, false, false, false, colors)
    {
      prefs := new Preferences();
      if colorConfig.Some? {
        colors := Overlay(colorConfig.value);
        ApplyColors(doc, colors);
      }
    }
  }
}
