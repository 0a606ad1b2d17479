/** The English message record `en` (src/locales/en.ts). */
module LocaleEn {
  import opened LocaleTypes

  const EnMessages: AccessibilityMessages := AccessibilityMessages(
    title := "Accessibility",
    subtitle := "Adjust the interface to your needs",
    close := "Close menu",
    fontSize := "Font Size",
    increaseFontSize := "Increase font size",
    decreaseFontSize := "Decrease font size",
    resetFontSize := "Reset size",
    dyslexicFont := "Dyslexic Font",
    highContrast := "High Contrast",
    highlightLinks := "Highlight Links",
    screenReader := "Screen Reader",
    readFullPage := "Read Full Page",
    stopReading := "Stop Reading",
    readOnHover := "Read on Hover",
    readOnHoverDesc := "Read text when you hover over it",
    readOnSelect := "Read Selected Text",
    readOnSelectDesc := "Read text when you select it",
    resetAll := "Reset All",
    infoTitle := "Information",
    infoText := "These settings are automatically saved and will be applied across all pages.",
    language := "Language",
    speechNotSupported := "Your browser does not support speech synthesis.",
    ariaOpenMenu := "Open accessibility menu",
    ariaCloseMenu := "Close menu",
    ariaToggleDyslexic := "Enable dyslexic font",
    ariaToggleContrast := "Enable high contrast",
    ariaToggleLinks := "Highlight all links",
    ariaToggleHover := "Enable read on hover",
    ariaToggleSelect := "Enable read on select")

  /** Every English entry is non-empty: a lookup in this table never falls
      through to another table or to the key. */
  lemma NonEmpty()
    ensures EnMessages.AllNonEmpty()
  {
  }

  /** Entries the component's header, language selector and reset button show. */
  lemma KnownEntries()
    ensures EnMessages.Get(Title) == "Accessibility"
         && EnMessages.Get(Language) == "Language"
         && EnMessages.Get(ResetAll) == "Reset All"
  {
  }
}
