/** The current language and the translation function `t`
    (contexts/LanguageContext.tsx). */
module LanguageContext {
  import opened Types

  /** A lookup in one language's strings: the entry when it is present and not
      empty, otherwise the key itself. No other language is consulted. */
  function Translate(table: map<string, string>, key: string): (r: string)
    ensures key in table && table[key] != "" ==> r == table[key]
    ensures key !in table || table[key] == "" ==> r == key
    ensures key != "" ==> r != ""
  {
    if key in table && table[key] != "" then table[key] else key
  }

  class LanguageProvider {
    var language: Language
    const translations: Translations

    /** The application starts in Arabic. */
    constructor (translations: Translations)
      ensures language == AR && this.translations == translations
    {
      this.translations := translations;
      language := AR;
    }

    method SetLanguage(lang: Language)
      modifies this`language
      ensures language == lang
    {
      language := lang;
    }

    /** `t(key)`: the current language's string, falling back to the key. */
    function T(key: string): (r: string)
      reads this
      ensures var table := translations(language).strings;
              key in table && table[key] != "" ==> r == table[key]
      ensures var table := translations(language).strings;
              key !in table || table[key] == "" ==> r == key
    {
      Translate(translations(language).strings, key)
    }

    /** The document direction the provider sets: right-to-left for Arabic. */
    function Dir(): (dir: string)
      reads this
      ensures dir == "rtl" <==> language == AR
      ensures dir == "ltr" <==> language == EN
    {
      assert "rtl"[0] != "ltr"[0];
      match language
      case AR => "rtl"
      case EN => "ltr"
    }
  }
}
