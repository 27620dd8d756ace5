/**
 * contexts/I18nContext.tsx: the translation function `t` and the choice of the
 * initial interface language. The translation tables are an abstract map from
 * language code to key-to-text table; storage and the browser are parameters.
 */
module I18nContext {
  import opened Wrappers
  import opened Strings

  type Table = map<string, string>
  type Translations = map<string, Table>

  /** `translations[lang]?.[key]`: `None` when the table or the key is missing. */
  function Lookup(translations: Translations, lang: string, key: string): (entry: Option<string>)
    ensures entry.Some? <==> lang in translations && key in translations[lang]
  {
    if lang in translations && key in translations[lang] then Some(translations[lang][key]) else None
  }

  /** A looked-up entry that `||` keeps: present and not the empty string. */
  predicate Usable(entry: Option<string>) {
    entry.Some? && entry.value != ""
  }

  /** The first usable entry of a list of candidates, or `fallback`. */
  function FirstUsable(candidates: seq<Option<string>>, fallback: string): string {
    if candidates == [] then fallback
    else if Usable(candidates[0]) then candidates[0].value
    else FirstUsable(candidates[1..], fallback)
  }

  /** `t(key)`: the current language's entry, else the English entry, else the key; an unset language reads as `vi`. */
  function Translate(translations: Translations, language: string, key: string): (text: string)
    ensures text == FirstUsable([Lookup(translations, if language == "" then "vi" else language, key),
                                 Lookup(translations, "en", key)], key)
  {
    var lang := if language == "" then "vi" else language;
    var current := Lookup(translations, lang, key);
    if Usable(current) then current.value
    else
      var english := Lookup(translations, "en", key);
      assert [current, english][1..] == [english] && [english][1..] == [];
      assert FirstUsable([english], key) == if Usable(english) then english.value else FirstUsable([], key);
      if Usable(english) then english.value else key
  }

  /** `t` never returns the empty string for a non-empty key. */
  lemma TranslateNonEmpty(translations: Translations, language: string, key: string)
    requires key != ""
    ensures Translate(translations, language, key) != ""
  {
  }

  /** The text `t` returns is an entry of some table under that key, or the key itself. */
  lemma TranslateComesFromTables(translations: Translations, language: string, key: string)
    ensures var text := Translate(translations, language, key);
      text == key || exists lang :: lang in translations && key in translations[lang] && translations[lang][key] == text
  {
    var lang := if language == "" then "vi" else language;
    var text := Translate(translations, language, key);
    if Usable(Lookup(translations, lang, key)) {
      assert translations[lang][key] == text;
    } else if Usable(Lookup(translations, "en", key)) {
      assert translations["en"][key] == text;
    }
  }

  /** A usable entry in the current language wins; an empty one counts as missing. */
  lemma TranslateLevels(translations: Translations, language: string, key: string)
    requires language != ""
    ensures Usable(Lookup(translations, language, key)) ==>
      Translate(translations, language, key) == translations[language][key]
    ensures !Usable(Lookup(translations, language, key)) && Usable(Lookup(translations, "en", key)) ==>
      Translate(translations, language, key) == translations["en"][key]
    ensures !Usable(Lookup(translations, language, key)) && !Usable(Lookup(translations, "en", key)) ==>
      Translate(translations, language, key) == key
  {
  }

  /** An unset language looks keys up as Vietnamese. */
  lemma UnsetLanguageIsVietnamese(translations: Translations, key: string)
    ensures Translate(translations, "", key) == Translate(translations, "vi", key)
  {
  }

  /**
   * `getInitialLanguage`: the saved language when it names a table, else the
   * browser language up to its first `-` when that names a table, else `vi`,
   * which is also the answer without a `window`.
   */
  function GetInitialLanguage(hasWindow: bool, saved: Option<string>, navigatorLanguage: string, translations: Translations): (lang: string)
    ensures lang == "vi" || lang in translations
  {
    if !hasWindow then "vi"
    else if saved.Some? && saved.value != "" && saved.value in translations then saved.value
    else
      var browserLang := BrowserPrefix(navigatorLanguage);
      if browserLang in translations then browserLang else "vi"
  }

  /** `navigator.language.split('-')[0]`: the part before the first `-`. */
  function BrowserPrefix(navigatorLanguage: string): (prefix: string)
    ensures prefix <= navigatorLanguage && '-' !in prefix
    ensures prefix == navigatorLanguage || navigatorLanguage[|prefix|] == '-'
  {
    var pieces := Split(navigatorLanguage, '-');
    SplitJoin(navigatorLanguage, '-');
    if |pieces| == 1 then pieces[0]
    else
      JoinCons(pieces[0], pieces[1..], "-");
      assert [pieces[0]] + pieces[1..] == pieces;
      assert navigatorLanguage == pieces[0] + "-" + Join(pieces[1..], "-");
      pieces[0]
  }

  /** The order of preference: a saved table first, then the browser's, then `vi`; an empty saved value counts as none. */
  lemma InitialLanguagePreference(hasWindow: bool, saved: Option<string>, navigatorLanguage: string, translations: Translations)
    ensures var lang := GetInitialLanguage(hasWindow, saved, navigatorLanguage, translations);
      && (!hasWindow ==> lang == "vi")
      && (hasWindow && saved.Some? && saved.value != "" && saved.value in translations ==> lang == saved.value)
      && ((hasWindow && !(saved.Some? && saved.value != "" && saved.value in translations)
             && BrowserPrefix(navigatorLanguage) in translations)
            ==> lang == BrowserPrefix(navigatorLanguage))
      && ((hasWindow && !(saved.Some? && saved.value != "" && saved.value in translations)
             && BrowserPrefix(navigatorLanguage) !in translations)
            ==> lang == "vi")
      && (lang != "vi" ==> hasWindow)
  {
  }

  /** A browser language such as `en-US` selects its primary tag when no language was saved. */
  lemma RegionalBrowserLanguage(translations: Translations)
    requires "en" in translations
    ensures GetInitialLanguage(true, None, "en-US", translations) == "en"
  {
    assert Split("en-US", '-')[0] == "en";
  }
}
