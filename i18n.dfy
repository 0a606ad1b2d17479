/** The locale resolver (src/composables/useI18n.ts): the shared current
    locale and custom message overrides, their recovery from persistent
    storage at startup, the composable's option handling, the lookup `t`
    with its fallback chain, `setLocale` and the derived speech-synthesis
    language tag.

    The environment is injected: persistent storage is a `Storage` object
    (`null` where there is no `window`), and the host application's
    translator is an optional `string -> string` function. */
module I18n {
  import opened Wrappers
  import opened LocaleTypes
  import opened Locales

  /** The storage key under which the selected locale is persisted. */
  const StorageKey: string := "accessibility-locale"

  /** The namespace under which the host translator is queried. */
  const GlobalPrefix: string := "accessibility."

  /** The host application's translator (`$i18n.t`). */
  type Translator = string -> string

  /** `Partial<AccessibilityMessages>`: the keys a caller overrides. */
  type Overrides = map<MessageKey, string>

  /** `Partial<Record<LocaleCode, Partial<AccessibilityMessages>>>`. */
  type CustomMessages = map<LocaleCode, Overrides>

  /** `UseI18nOptions`; an absent options object behaves as `NoOptions`. */
  datatype I18nOptions = I18nOptions(
    locale: Option<LocaleCode>,
    messages: Option<CustomMessages>,
    useGlobalI18n: Option<bool>)

  const NoOptions: I18nOptions := I18nOptions(None, None, None)

  /** A string key-value store (`localStorage`). */
  class Storage {
    var items: map<string, string>

    constructor (items: map<string, string>)
      ensures this.items == items
    {
      this.items := items;
    }

    /** `getItem`: the stored value, or nothing (`null`) for a missing key. */
    function GetItem(key: string): (r: Option<string>)
      reads this
      ensures r.Some? <==> key in items
      ensures r.Some? ==> r.value == items[key]
    {
      if key in items then Some(items[key]) else None
    }

    /** `setItem`: stores `value` under `key`, leaving other keys alone. */
    method SetItem(key: string, value: string)
      modifies this
      ensures items == old(items)[key := value]
    {
      items := items[key := value];
    }
  }

  /** The startup guard on a persisted value: it is taken as a locale only
      when it is exactly "es" or "en" (an empty string is rejected by the
      truthiness test, and every other string by the comparison). */
  function ParseLocale(saved: string): (r: Option<LocaleCode>)
    ensures r.Some? <==> saved == "es" || saved == "en"
    ensures r.Some? ==> Code(r.value) == saved
  {
    if saved != "" && (saved == "es" || saved == "en") then
      Some(if saved == "es" then Es else En)
    else
      None
  }

  /** The strings accepted at startup are exactly the codes listed in
      `availableLocales`. */
  lemma AcceptedAreAvailable(saved: string)
    ensures ParseLocale(saved).Some? <==>
            exists i :: 0 <= i < |AvailableLocales| && Code(AvailableLocales[i].code) == saved
  {
    if saved == "es" {
      assert Code(AvailableLocales[0].code) == saved;
    } else if saved == "en" {
      assert Code(AvailableLocales[1].code) == saved;
    }
  }

  /** What a locale written by `setLocale` reads back as at the next startup:
      every locale code survives the trip through storage. */
  lemma ParseLocaleOfCode(l: LocaleCode)
    ensures ParseLocale(Code(l)) == Some(l)
  {
  }

  /** The translator `t` consults: the host's, unless the options switch it
      off with `useGlobalI18n: false`. */
  function HostTranslator(options: I18nOptions, host: Option<Translator>): (r: Option<Translator>)
    ensures r.Some? <==> host.Some? && options.useGlobalI18n != Some(false)
    ensures r.Some? ==> r == host
  {
    if options.useGlobalI18n != Some(false) then host else None
  }

  /** The top-level spread `{ ...current, ...extra }`: a locale that `extra`
      mentions gets `extra`'s override map wholesale, every other locale keeps
      its overrides. */
  function MergeMessages(current: CustomMessages, extra: CustomMessages): (r: CustomMessages)
    ensures r.Keys == current.Keys + extra.Keys
    ensures forall l :: l in extra ==> r[l] == extra[l]
    ensures forall l :: l in current && l !in extra ==> r[l] == current[l]
  {
    current + extra
  }

  /** The entry of a locale's built-in record. The branch for a locale
      without a record has no counterpart in the source (there the lookup
      would throw) and is never taken: every locale code has a record
      (`MessagesShape`). */
  function TableEntry(l: LocaleCode, key: MessageKey): string
  {
    if l in Messages then Messages[l].Get(key) else ""
  }

  /** `messages[l][key] || messages[defaultLocale][key] || key`: because every
      record is complete and non-empty, this is always the entry of the
      locale's own record and neither fallback is reached. */
  function BuiltIn(l: LocaleCode, key: MessageKey): (r: string)
    ensures l in Messages && r == Messages[l].Get(key)
    ensures r != ""
  {
    MessagesShape();
    var current := TableEntry(l, key);
    if current != "" then current
    else
      var fallback := TableEntry(DefaultLocale, key);
      if fallback != "" then fallback else KeyName(key)
  }

  /** `ttsLangMap[l]`, or the empty string (standing for `undefined`) when
      the map has no tag for `l`. */
  function TagOf(l: LocaleCode): string
  {
    if l in TtsLangMap then TtsLangMap[l] else ""
  }

  /** `ttsLangMap[l] || ttsLangMap[defaultLocale]`: because the map is total
      with non-empty tags, this is always the tag of `l` itself and the
      default locale's tag is never needed. */
  function TtsTag(l: LocaleCode): (r: string)
    ensures l in TtsLangMap && r == TtsLangMap[l]
    ensures r != ""
  {
    TtsLangMapShape();
    var tag := TagOf(l);
    if tag != "" then tag else TagOf(DefaultLocale)
  }

  /** The lookup key handed to the host translator. */
  function GlobalKey(key: MessageKey): string
  {
    GlobalPrefix + KeyName(key)
  }

  /** The host translator found a translation: it answered something other
      than the query itself. */
  predicate HostHit(globalI18n: Option<Translator>, key: MessageKey)
  {
    globalI18n.Some? && globalI18n.value(GlobalKey(key)) != GlobalKey(key)
  }

  /** The module-level state of the resolver. */
  class LocaleState {
    var currentLocale: LocaleCode
    var customMessages: CustomMessages
    const storage: Storage?

    /** Module load: the locale starts as the default and is replaced by the
        persisted one when storage exists and holds "es" or "en" under
        `StorageKey`; there are no overrides yet. */
    constructor (storage: Storage?)
      ensures this.storage == storage
      ensures customMessages == map[]
      ensures (storage != null && StorageKey in storage.items &&
               ParseLocale(storage.items[StorageKey]).Some?) ==>
              Code(currentLocale) == storage.items[StorageKey]
      ensures !(storage != null && StorageKey in storage.items &&
                ParseLocale(storage.items[StorageKey]).Some?) ==>
              currentLocale == DefaultLocale
    {
      this.storage := storage;
      currentLocale := DefaultLocale;
      customMessages := map[];
      if storage != null {
        var saved := storage.GetItem(StorageKey);
        if saved.Some? {
          var parsed := ParseLocale(saved.value);
          if parsed.Some? {
            currentLocale := parsed.value;
          }
        }
      }
    }

    /** `useI18n(options)`: decides which host translator `t` will consult,
        sets the locale when the options give one and merges the options'
        overrides into the shared ones. */
    method UseI18n(options: I18nOptions, host: Option<Translator>) returns (globalI18n: Option<Translator>)
      modifies this
      ensures globalI18n == HostTranslator(options, host)
      ensures currentLocale == if options.locale.Some? then options.locale.value else old(currentLocale)
      ensures customMessages ==
              if options.messages.Some? then MergeMessages(old(customMessages), options.messages.value)
              else old(customMessages)
    {
      globalI18n := HostTranslator(options, host);
      if options.locale.Some? {
        currentLocale := options.locale.value;
      }
      if options.messages.Some? {
        customMessages := MergeMessages(customMessages, options.messages.value);
      }
    }

    /** There is a non-empty custom override for `key` in the current locale. */
    predicate HasOverride(key: MessageKey)
      reads this
    {
      currentLocale in customMessages && key in customMessages[currentLocale] &&
      customMessages[currentLocale][key] != ""
    }

    /** `t(key)`: the host translator's answer when it found one, else the
        non-empty custom override, else the built-in entry of the current
        locale. */
    function T(globalI18n: Option<Translator>, key: MessageKey): (r: string)
      reads this
      ensures HostHit(globalI18n, key) ==> r == globalI18n.value(GlobalKey(key))
      ensures !HostHit(globalI18n, key) && HasOverride(key) ==>
              r == customMessages[currentLocale][key]
      ensures !HostHit(globalI18n, key) && !HasOverride(key) ==>
              currentLocale in Messages && r == Messages[currentLocale].Get(key) && r != ""
    {
      if globalI18n.Some? && globalI18n.value(GlobalKey(key)) != GlobalKey(key) then
        globalI18n.value(GlobalKey(key))
      else
        var customMsg :=
          if currentLocale in customMessages && key in customMessages[currentLocale]
          then customMessages[currentLocale][key] else "";
        if customMsg != "" then customMsg
        else BuiltIn(currentLocale, key)
    }

    /** `setLocale(l)`: the locale becomes `l`, and `l` is persisted under
        `StorageKey` when storage exists; overrides are untouched. */
    method SetLocale(l: LocaleCode)
      modifies this, storage
      ensures currentLocale == l
      ensures customMessages == old(customMessages)
      ensures storage != null ==> storage.items == old(storage.items)[StorageKey := Code(l)]
    {
      currentLocale := l;
      if storage != null {
        storage.SetItem(StorageKey, Code(l));
      }
    }

    /** `ttsLang`: the tag of the current locale. */
    function TtsLang(): (r: string)
      reads this
      ensures currentLocale == Es ==> r == "es-MX"
      ensures currentLocale == En ==> r == "en-US"
    {
      TtsTag(currentLocale)
    }

    /** `locale`: a read-only view of the current locale. */
    function Locale(): (r: LocaleCode)
      reads this
      ensures r == currentLocale
    {
      currentLocale
    }
  }

  /** Without a host translation and without an override, `t` answers the
      current locale's built-in entry; for the page title that is
      "Accessibility" in English and "Accesibilidad" in Spanish. */
  lemma TitleByLocale(s: LocaleState, globalI18n: Option<Translator>)
    requires !HostHit(globalI18n, Title) && !s.HasOverride(Title)
    ensures s.currentLocale == En ==> s.T(globalI18n, Title) == "Accessibility"
    ensures s.currentLocale == Es ==> s.T(globalI18n, Title) == "Accesibilidad"
  {
    LocaleEn.KnownEntries();
    LocaleEs.KnownEntries();
  }

  /** A custom override beats the built-in table: with overrides
      `{ en: { title: "Custom" } }` and locale `en`, `t('title')` is "Custom". */
  lemma OverridePrecedence(s: LocaleState, globalI18n: Option<Translator>)
    requires s.currentLocale == En && s.customMessages == map[En := map[Title := "Custom"]]
    requires !HostHit(globalI18n, Title)
    ensures s.T(globalI18n, Title) == "Custom"
  {
  }

  /** Reload after `setLocale`: a resolver created on the same storage after
      `setLocale(l)` starts in locale `l`. */
  method SetLocaleThenReload(storage: Storage, l: LocaleCode) returns (reloaded: LocaleState)
    modifies storage
    ensures reloaded.currentLocale == l
  {
    var first := new LocaleState(storage);
    first.SetLocale(l);
    ParseLocaleOfCode(l);
    reloaded := new LocaleState(storage);
  }
}
