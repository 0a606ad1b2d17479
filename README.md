# accessibility-menu: the composables and locale tables in Dafny

This project models the logic behind an embeddable accessibility menu. The
menu is for a component-based web framework. The model covers two pieces,
each with its shared state.

- **Locale resolver** (`useI18n`). It holds the shared current locale (`es`
  or `en`) and the per-locale custom message overrides. At module load it
  restores a persisted locale. The option-driven initialiser may set the
  locale, merge overrides and choose whether to consult the host's
  translator. `t(key)` resolves a key through a fixed chain: host
  translation, then non-empty override, then the current locale's table,
  then the default locale's table, then the key itself. `setLocale`
  persists the new locale. `ttsLang` is derived from the current locale.
- **Preference store** (`useAccessibility`). Each call returns fresh
  preferences: font size 100 and five toggles off. A shared six-colour
  palette is replaced by "defaults overlaid with the configuration" when a
  call supplies a configuration. There is a read-only `config` snapshot.
  `applyColors` writes the palette as six custom style properties on the
  document root.
- **Locale tables**: the `es` and `en` message records, `messages`,
  `defaultLocale`, `availableLocales` and `ttsLangMap`.

Files:

| file | module | models |
|---|---|---|
| `wrappers.dfy` | `Wrappers` | `Option`, which stands for undefined and null |
| `locale_types.dfy` | `LocaleTypes` | `LocaleCode`, the message keys, and the `AccessibilityMessages` record |
| `locale_en.dfy`, `locale_es.dfy` | `LocaleEn`, `LocaleEs` | the two message records |
| `locales.dfy` | `Locales` | the locale index |
| `i18n.dfy` | `I18n` | the locale resolver |
| `accessibility.dfy` | `Accessibility` | the preference store |

Module-level mutable state becomes a class: `I18n.LocaleState` and
`Accessibility.ColorState`. The environment is injected, not probed:

- `localStorage` is a `Storage` object, `null` where there is no `window`.
- The document root is a `Document` object with a `style` map, `null`
  where there is no `document`.
- The host translator (`$i18n.t`) is an `Option<string -> string>`, with
  `None` when the host has none.

Vue refs become fields. Computed values (`config`, `ttsLang`, `locale`)
become functions that read the current state.

The word "overlay" below means `{ ...defaultColors, ...config }`: keys the
configuration gives take its values, the rest take the defaults.

Two points about the code that the model keeps as written:

- `options.messages` is merged by a top-level spread. A locale the options
  mention has its override map replaced wholesale, so its earlier per-key
  overrides are lost (`I18n.MergeMessages`).
- The `config` snapshot holds exactly the six preferences and the palette.

## Model

| member | source | states |
|---|---|---|
| `LocaleEn.NonEmpty` | src/locales/en.ts:5-51 | every entry of `en` is a non-empty string |
| `LocaleEn.KnownEntries` | src/locales/en.ts:5-39 | `title` is "Accessibility", `language` is "Language", `resetAll` is "Reset All" |
| `LocaleEs.NonEmpty` | src/locales/es.ts:5-51 | every entry of `es` is a non-empty string |
| `LocaleEs.KnownEntries` | src/locales/es.ts:5-39 | `title` is "Accesibilidad", `language` is "Idioma", `resetAll` is "Restablecer Todo" |
| `Locales.MessagesShape` | src/locales/index.ts:7-10 | `messages` has a record for every locale code: `es` under `Es`, `en` under `En`, each complete and non-empty |
| `Locales.DefaultIsSpanish` | src/locales/index.ts:12 | the default locale is `es` |
| `Locales.AvailableLocalesShape` | src/locales/index.ts:14-17 | exactly two entries, Spanish ("Español") then English ("English"); the listed codes are the set {es, en} |
| `Locales.TtsLangMapShape` | src/locales/index.ts:20-23 | the TTS map is total with non-empty tags: `es` is "es-MX", `en` is "en-US" |
| `I18n.Storage.GetItem` | src/composables/useI18n.ts:11 | a stored value comes back exactly when its key is present; otherwise the result is null |
| `I18n.Storage.SetItem` | src/composables/useI18n.ts:68 | the key maps to the value and no other key changes |
| `I18n.ParseLocale` | src/composables/useI18n.ts:12 | a persisted string is accepted if and only if it is exactly "es" or "en", and the accepted locale's code is that string |
| `I18n.AcceptedAreAvailable` | src/composables/useI18n.ts:12 | the strings accepted at startup are exactly the codes listed in `availableLocales` |
| `I18n.ParseLocaleOfCode` | src/composables/useI18n.ts:10-15 | every locale code written to storage is read back as the same locale at startup |
| `I18n.HostTranslator` | src/composables/useI18n.ts:27 | `t` consults a translator if and only if the host has one and `useGlobalI18n` is not `false`; that translator is the host's |
| `I18n.MergeMessages` | src/composables/useI18n.ts:35-40 | the merged overrides cover both key sets; a locale in the options gets the options' map wholesale; every other locale keeps its map |
| `I18n.BuiltIn` | src/composables/useI18n.ts:61 | the fallback chain current table, then default table, then key, always yields the current locale's own entry, and it is non-empty |
| `I18n.TtsTag` | src/composables/useI18n.ts:73 | the fallback chain over `ttsLangMap` always yields the locale's own tag, and it is non-empty |
| `I18n.LocaleState.constructor` | src/composables/useI18n.ts:6-15 | no overrides; the locale is the persisted one when storage exists and holds "es" or "en" under `accessibility-locale`; otherwise it is the default |
| `I18n.LocaleState.UseI18n` | src/composables/useI18n.ts:23-40 | returns the translator `t` will use; sets the locale exactly when the options give one; merges the options' overrides when given; leaves everything else alone |
| `I18n.LocaleState.T` | src/composables/useI18n.ts:43-62 | a host answer that differs from the query `accessibility.<key>` wins; otherwise a non-empty override for the current locale wins (an empty one is skipped); otherwise the result is the current locale's non-empty table entry |
| `I18n.LocaleState.SetLocale` | src/composables/useI18n.ts:65-70 | the locale becomes `l`; the overrides are unchanged; when storage exists, `l`'s code is stored under `accessibility-locale` and nothing else in storage changes |
| `I18n.LocaleState.TtsLang` | src/composables/useI18n.ts:73 | "es-MX" for `es` and "en-US" for `en` |
| `I18n.LocaleState.Locale` | src/composables/useI18n.ts:76 | the read-only view equals the current locale |
| `I18n.TitleByLocale` | src/composables/useI18n.ts:55-61 | with no host translation and no override, `t('title')` is "Accessibility" under `en` and "Accesibilidad" under `es` |
| `I18n.OverridePrecedence` | src/composables/useI18n.ts:55-58 | with overrides `{ en: { title: "Custom" } }` and locale `en`, `t('title')` is "Custom", not the table's entry |
| `I18n.SetLocaleThenReload` | src/composables/useI18n.ts:65-70 | a resolver created on the same storage after `setLocale(l)` starts in locale `l` |
| `Accessibility.Overlay` | src/composables/useAccessibility.ts:34 | each colour the configuration supplies is taken from it; each colour it omits is the default; the result is always fully populated |
| `Accessibility.OverlayNothing` | src/composables/useAccessibility.ts:12-19 | overlaying `{}` gives exactly `defaultColors` |
| `Accessibility.OverlayEverything` | src/composables/useAccessibility.ts:34 | a configuration that supplies all six colours yields exactly that palette |
| `Accessibility.CssPropertiesDistinct` | src/composables/useAccessibility.ts:65-70 | the six style properties are pairwise distinct, one per palette entry, and are exactly the set written |
| `Accessibility.StyleWrite` | src/composables/useAccessibility.ts:65 | one `setProperty` call: an empty value removes the declaration, any other value sets it, and no other declaration changes |
| `Accessibility.WithColors` | src/composables/useAccessibility.ts:64-70 | after the six writes, each palette property holds its colour when the colour is non-empty and is absent when it is empty; every property outside the six keeps its presence and value |
| `Accessibility.DefaultsSetEveryProperty` | src/composables/useAccessibility.ts:12-19 | the default palette has no empty colour, so writing it yields exactly the old property set plus the six |
| `Accessibility.Document.SetProperty` | src/composables/useAccessibility.ts:65 | the root style becomes `StyleWrite` of the old style: removal for an empty value, otherwise a write of that one property |
| `Accessibility.ApplyColors` | src/composables/useAccessibility.ts:61-71 | with a document, the root style becomes the six-property update of the old style; without one, nothing happens |
| `Accessibility.Preferences.constructor` | src/composables/useAccessibility.ts:25-30 | font size 100 and all five toggles false |
| `Accessibility.ColorState.constructor` | src/composables/useAccessibility.ts:22 | the shared palette starts as a copy of `defaultColors` |
| `Accessibility.ColorState.Config` | src/composables/useAccessibility.ts:38-46 | the snapshot holds the six current preference values and the current shared palette |
| `Accessibility.ColorState.UseAccessibility` | src/composables/useAccessibility.ts:24-58 | returns fresh default preferences. With a configuration, the palette becomes the overlay of the configuration on the defaults (the previous palette plays no part) and is written to the document. Without one, palette and document are unchanged. The snapshot then equals the defaults plus the palette |

## Left out

- Vue reactivity (`ref`, `computed`, change notification): refs are plain fields, and computed values are functions evaluated on the current state.
- Host translator detection through `getCurrentInstance()`: the instance's `$i18n` with its `t` method is a parameter of `UseI18n`. A host without `$i18n` or without `t` is `None`.
- A host translator that returns a non-string: the translator is typed `string -> string`.
- Values outside `LocaleCode`: the TypeScript type limits `setLocale` and `options.locale` to `es` and `en`, and so does the model. An unmapped locale therefore cannot occur. The `||` fallbacks in `t` and `ttsLang` are modelled as written and proved never to be reached (`I18n.BuiltIn`, `I18n.TtsTag`).
- Properties present but explicitly set to `undefined` in a partial object: `Option` models only "present with a string" or "absent". An explicit `undefined` in a colour configuration would make the JavaScript spread write `undefined` into the palette. An explicit `undefined` locale in `options.messages` would replace that locale's overrides with nothing.
- Storage failures (for example a storage that throws on access): storage is a map that always answers.
- The returned `colors` ref: callers see the shared palette as the field `ColorState.colors`.
- The menu component, its stylesheet, the plugin registration in `src/index.ts` and `vite.config.ts`: rendering, packaging and build configuration, with no logic of the core.
- Colour strings are opaque: there is no parsing or validation of colour values.
- Accessibility.Document.SetProperty: models the removal of a declaration for an empty value, but not the browser ignoring a value it cannot parse as a custom-property value (an unmatched `}` or a top-level `;`). In the model such a value is stored like any other, because CSS value parsing is not modelled.
- `t` is deterministic for a fixed state because it is a Dafny function, so determinism has no lemma of its own.
