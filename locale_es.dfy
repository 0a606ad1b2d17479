/** The Spanish message record `es` (src/locales/es.ts). */
module LocaleEs {
  import opened LocaleTypes

  const EsMessages: AccessibilityMessages := AccessibilityMessages(
    title := "Accesibilidad",
    subtitle := "Ajusta la interfaz según tus necesidades",
    close := "Cerrar menú",
    fontSize := "Tamaño de Fuente",
    increaseFontSize := "Aumentar tamaño de fuente",
    decreaseFontSize := "Disminuir tamaño de fuente",
    resetFontSize := "Restablecer tamaño",
    dyslexicFont := "Fuente para Dislexia",
    highContrast := "Alto Contraste",
    highlightLinks := "Resaltar Enlaces",
    screenReader := "Lector de Pantalla",
    readFullPage := "Leer Página Completa",
    stopReading := "Detener Lectura Completa",
    readOnHover := "Leer al Pasar Mouse",
    readOnHoverDesc := "Lee el texto cuando pasas el cursor sobre él",
    readOnSelect := "Leer Texto Seleccionado",
    readOnSelectDesc := "Lee el texto cuando lo seleccionas",
    resetAll := "Restablecer Todo",
    infoTitle := "Información",
    infoText := "Estos ajustes se guardan automáticamente y se aplicarán en todas las páginas.",
    language := "Idioma",
    speechNotSupported := "Tu navegador no soporta la síntesis de voz.",
    ariaOpenMenu := "Abrir menú de accesibilidad",
    ariaCloseMenu := "Cerrar menú",
    ariaToggleDyslexic := "Activar fuente para dislexia",
    ariaToggleContrast := "Activar alto contraste",
    ariaToggleLinks := "Resaltar todos los enlaces",
    ariaToggleHover := "Activar lectura al pasar el mouse",
    ariaToggleSelect := "Activar lectura de texto seleccionado")

  /** Every Spanish entry is non-empty: a lookup in this table never falls
      through to another table or to the key. */
  lemma NonEmpty()
    ensures EsMessages.AllNonEmpty()
  {
  }

  /** Entries the component's header, language selector and reset button show. */
  lemma KnownEntries()
    ensures EsMessages.Get(Title) == "Accesibilidad"
         && EsMessages.Get(Language) == "Idioma"
         && EsMessages.Get(ResetAll) == "Restablecer Todo"
  {
  }
}
