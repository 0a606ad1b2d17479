/** The locale index (src/locales/index.ts): the table of message records,
    the default locale, the selectable locales and the speech-synthesis
    language tags. */
module Locales {
  import opened LocaleTypes
  import LocaleEn
  import LocaleEs

  /** `messages`: the record of each supported locale. */
  const Messages: map<LocaleCode, AccessibilityMessages> :=
    map[Es := LocaleEs.EsMessages, En := LocaleEn.EnMessages]

  /** `defaultLocale`. */
  const DefaultLocale: LocaleCode := Es

  /** An entry of `availableLocales`: a code and its display name. */
  datatype LocaleInfo = LocaleInfo(code: LocaleCode, name: string)

  /** `availableLocales`, in display order. */
  const AvailableLocales: seq<LocaleInfo> :=
    [LocaleInfo(Es, "Español"), LocaleInfo(En, "English")]

  /** `ttsLangMap`: the speech-synthesis language tag of each locale. */
  const TtsLangMap: map<LocaleCode, string> := map[Es := "es-MX", En := "en-US"]

  /** `messages` has a record for every locale code, the `es` record under
      `Es` and the `en` record under `En`, and every record is complete with
      non-empty entries. */
  lemma MessagesShape()
    ensures forall l: LocaleCode :: l in Messages && Messages[l].AllNonEmpty()
    ensures Messages[Es] == LocaleEs.EsMessages && Messages[En] == LocaleEn.EnMessages
  {
    forall l: LocaleCode
      ensures l in Messages && Messages[l].AllNonEmpty()
    {
      match l
      case Es => LocaleEs.NonEmpty();
      case En => LocaleEn.NonEmpty();
    }
  }

  /** The default locale is Spanish. */
  lemma DefaultIsSpanish()
    ensures DefaultLocale == Es && Code(DefaultLocale) == "es"
  {
  }

  /** `ttsLangMap` is total over the locale codes: `es` is Mexican Spanish,
      `en` is US English. */
  lemma TtsLangMapShape()
    ensures forall l: LocaleCode :: l in TtsLangMap && TtsLangMap[l] != ""
    ensures TtsLangMap[Es] == "es-MX" && TtsLangMap[En] == "en-US"
  {
    forall l: LocaleCode
      ensures l in TtsLangMap && TtsLangMap[l] != ""
    {
      match l
      case Es =>
      case En =>
    }
  }

  /** `availableLocales` lists Spanish ("Español") and then English
      ("English"), each code once. */
  lemma AvailableLocalesShape()
    ensures |AvailableLocales| == 2
    ensures AvailableLocales[0] == LocaleInfo(Es, "Español")
    ensures AvailableLocales[1] == LocaleInfo(En, "English")
    ensures AvailableCodes() == {Es, En}
  {
  }

  /** The codes listed in `availableLocales`. */
  function AvailableCodes(): set<LocaleCode>
  {
    set i | 0 <= i < |AvailableLocales| :: AvailableLocales[i].code
  }
}
