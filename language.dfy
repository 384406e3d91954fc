/** The language context of src/context/LanguageContext.tsx: the active
    locale, one mutable cell that starts as `'en'`, and `t`, the total
    lookup that falls back to the key itself. */
module LanguageContext {
  import opened Wrappers
  import opened Text
  import opened Translations

  /** `t(key)` while `lang` is active: `translations[lang][key] || key`. The
      result is the entry itself or, when the entry is missing or empty, the
      key; so `t` never fails and gives back something non-empty for any
      non-empty key. */
  function T(lang: Language, key: string): (r: string)
    ensures r == key || Entry(lang, key) == Some(r)
    ensures Entry(lang, key).Some? && Entry(lang, key).value != "" ==> r == Entry(lang, key).value
    ensures r == "" ==> key == ""
  {
    match Entry(lang, key)
    case Some(text) => if text != "" then text else key
    case None => key
  }

  /** A key the active block does not have is shown as itself. */
  lemma MissingKeyShowsKey(lang: Language, key: string)
    requires Entry(lang, key) == None
    ensures T(lang, key) == key
  {
  }

  /** Neither block has an `elec.` key, so every `t('elec.…')` of the
      electronics deck gives back its key verbatim, in either language. */
  lemma ElecKeyShowsKey(lang: Language, key: string)
    requires StartsWith(key, "elec.")
    ensures T(lang, key) == key
  {
    NoElecEntry(lang, key);
  }

  /** `t('deck.delivery.flow')` is the flow of the active locale. */
  lemma DeliveryFlowLookup(lang: Language)
    ensures T(lang, "deck.delivery.flow") == DeliveryFlow(lang)
  {
    DeliveryFlowEntry(lang);
  }

  /** `LanguageProvider`: the `language` state shared by every page. The
      dictionary is a constant, so setting the language changes only which
      block `T` reads. */
  class LanguageProvider {
    var language: Language

    /** `useState<Language>('en')`. */
    constructor()
      ensures language == En
    {
      language := En;
    }

    /** `setLanguage(lang)`. */
    method SetLanguage(lang: Language)
      modifies this
      ensures language == lang
    {
      language := lang;
    }

    /** The toggle buttons: `setLanguage(language === 'en' ? 'es' : 'en')`. */
    method ToggleLanguage()
      modifies this
      ensures language == Toggled(old(language))
    {
      language := if language == En then Es else En;
    }
  }

  /** The message `useLanguage` throws outside a provider. */
  const OutsideProvider := "useLanguage must be used within a LanguageProvider"

  /** `useLanguage()`: the nearest provider, or the error thrown when there is
      none. */
  function UseLanguage(context: Option<LanguageProvider>): (r: Result<LanguageProvider, string>)
    ensures r.Failure? <==> context.None?
    ensures r.Failure? ==> r.error == OutsideProvider
    ensures context.Some? ==> r == Success(context.value)
  {
    match context
    case None => Failure(OutsideProvider)
    case Some(provider) => Success(provider)
  }
}
