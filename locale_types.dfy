/** The types of the locale tables: the closed set of locale codes, the
    message keys and the record of message strings that every locale must
    supply in full (src/locales/types.ts). */
module LocaleTypes {

  /** `LocaleCode = 'es' | 'en'`. */
  datatype LocaleCode = Es | En

  /** The string form of a locale code, as stored and compared at startup. */
  function Code(l: LocaleCode): (s: string)
    ensures |s| == 2
  {
    match l
    case Es => "es"
    case En => "en"
  }

  /** The keys of `AccessibilityMessages`, one constructor per property. */
  datatype MessageKey =
    Title
    | Subtitle
    | Close
    | FontSize
    | IncreaseFontSize
    | DecreaseFontSize
    | ResetFontSize
    | DyslexicFont
    | HighContrast
    | HighlightLinks
    | ScreenReader
    | ReadFullPage
    | StopReading
    | ReadOnHover
    | ReadOnHoverDesc
    | ReadOnSelect
    | ReadOnSelectDesc
    | ResetAll
    | InfoTitle
    | InfoText
    | Language
    | SpeechNotSupported
    | AriaOpenMenu
    | AriaCloseMenu
    | AriaToggleDyslexic
    | AriaToggleContrast
    | AriaToggleLinks
    | AriaToggleHover
    | AriaToggleSelect

  /** The property name of a key, as the TypeScript source spells it. */
  function KeyName(k: MessageKey): (s: string)
    ensures s != ""
  {
    match k
    case Title => "title"
    case Subtitle => "subtitle"
    case Close => "close"
    case FontSize => "fontSize"
    case IncreaseFontSize => "increaseFontSize"
    case DecreaseFontSize => "decreaseFontSize"
    case ResetFontSize => "resetFontSize"
    case DyslexicFont => "dyslexicFont"
    case HighContrast => "highContrast"
    case HighlightLinks => "highlightLinks"
    case ScreenReader => "screenReader"
    case ReadFullPage => "readFullPage"
    case StopReading => "stopReading"
    case ReadOnHover => "readOnHover"
    case ReadOnHoverDesc => "readOnHoverDesc"
    case ReadOnSelect => "readOnSelect"
    case ReadOnSelectDesc => "readOnSelectDesc"
    case ResetAll => "resetAll"
    case InfoTitle => "infoTitle"
    case InfoText => "infoText"
    case Language => "language"
    case SpeechNotSupported => "speechNotSupported"
    case AriaOpenMenu => "ariaOpenMenu"
    case AriaCloseMenu => "ariaCloseMenu"
    case AriaToggleDyslexic => "ariaToggleDyslexic"
    case AriaToggleContrast => "ariaToggleContrast"
    case AriaToggleLinks => "ariaToggleLinks"
    case AriaToggleHover => "ariaToggleHover"
    case AriaToggleSelect => "ariaToggleSelect"
  }

  /** `AccessibilityMessages`: one string for every key. A value of this type
      is complete by construction, as the TypeScript type annotation makes
      every locale record complete. */
  datatype AccessibilityMessages = AccessibilityMessages(
    title: string,
    subtitle: string,
    close: string,
    fontSize: string,
    increaseFontSize: string,
    decreaseFontSize: string,
    resetFontSize: string,
    dyslexicFont: string,
    highContrast: string,
    highlightLinks: string,
    screenReader: string,
    readFullPage: string,
    stopReading: string,
    readOnHover: string,
    readOnHoverDesc: string,
    readOnSelect: string,
    readOnSelectDesc: string,
    resetAll: string,
    infoTitle: string,
    infoText: string,
    language: string,
    speechNotSupported: string,
    ariaOpenMenu: string,
    ariaCloseMenu: string,
    ariaToggleDyslexic: string,
    ariaToggleContrast: string,
    ariaToggleLinks: string,
    ariaToggleHover: string,
    ariaToggleSelect: string)
  {
    /** The entry for `k` (the source's `record[key]`). */
    function Get(k: MessageKey): string
    {
      match k
      case Title => title
      case Subtitle => subtitle
      case Close => close
      case FontSize => fontSize
      case IncreaseFontSize => increaseFontSize
      case DecreaseFontSize => decreaseFontSize
      case ResetFontSize => resetFontSize
      case DyslexicFont => dyslexicFont
      case HighContrast => highContrast
      case HighlightLinks => highlightLinks
      case ScreenReader => screenReader
      case ReadFullPage => readFullPage
      case StopReading => stopReading
      case ReadOnHover => readOnHover
      case ReadOnHoverDesc => readOnHoverDesc
      case ReadOnSelect => readOnSelect
      case ReadOnSelectDesc => readOnSelectDesc
      case ResetAll => resetAll
      case InfoTitle => infoTitle
      case InfoText => infoText
      case Language => language
      case SpeechNotSupported => speechNotSupported
      case AriaOpenMenu => ariaOpenMenu
      case AriaCloseMenu => ariaCloseMenu
      case AriaToggleDyslexic => ariaToggleDyslexic
      case AriaToggleContrast => ariaToggleContrast
      case AriaToggleLinks => ariaToggleLinks
      case AriaToggleHover => ariaToggleHover
      case AriaToggleSelect => ariaToggleSelect
    }

    /** Every entry is a non-empty string, so a `||` fallback on a lookup in
        this record never fires. */
    ghost predicate AllNonEmpty()
    {
      forall k: MessageKey :: Get(k) != ""
    }
  }
}
