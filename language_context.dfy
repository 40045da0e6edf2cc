/**
 * The language provider: the current interface language, shared by every page,
 * with the operations that change it.  Changing the language also tells i18next,
 * saves the choice in local storage, sets the document language, and rewrites a
 * language-prefixed address in place.
 */
module LanguageContext {
  import opened Wrappers
  import opened JsText
  import opened Browser

  /** Local-storage key of the chosen language. */
  const LanguageKey: string := "language"

  /** Whether a path starts with a language prefix, textually. */
  predicate HasLangPrefix(path: string) {
    StartsWith(path, "/zh") || StartsWith(path, "/en")
  }

  /** `path.replace(/^\/(zh|en)/, '')`: one leading `/zh` or `/en` removed, whatever
      follows it. */
  function StripLang(path: string): (r: string)
    ensures HasLangPrefix(path) ==> r == path[3..]
    ensures !HasLangPrefix(path) ==> r == path
  {
    if HasLangPrefix(path) then path[3..] else path
  }

  /** `` `/${lang}${pathWithoutLang}` ``: the path moved under the prefix of `lang`. */
  function LangPath(lang: string, path: string): (r: string)
    ensures StartsWith(r, "/" + lang)
    ensures r[1 + |lang|..] == StripLang(path)
  {
    "/" + lang + StripLang(path)
  }

  /** Moving a path under one language and then another is moving it under the
      second directly; the first prefix leaves no trace. */
  lemma LangPathOverrides(a: string, b: string, path: string)
    requires b == "zh" || b == "en"
    ensures LangPath(a, LangPath(b, path)) == LangPath(a, path)
  {
    var q := LangPath(b, path);
    assert q[..3] == "/" + b;
    assert q[3..] == StripLang(path);
  }

  /** The prefix is removed as text, not as a path segment: `/zhx` becomes
      `/` + lang + `x`. */
  lemma StripIsTextual(lang: string, rest: string)
    ensures LangPath(lang, "/zh" + rest) == "/" + lang + rest
    ensures LangPath(lang, "/en" + rest) == "/" + lang + rest
  {
    assert ("/zh" + rest)[..3] == "/zh" && ("/zh" + rest)[3..] == rest;
    assert ("/en" + rest)[..3] == "/en" && ("/en" + rest)[3..] == rest;
  }

  /** The language `toggleLanguage` switches to. */
  function Toggle(lang: string): (r: string)
    ensures r != lang
    ensures r == "zh" || r == "en"
  {
    if lang == "zh" then "en" else "zh"
  }

  /** Toggling twice returns to either shipped language. */
  lemma ToggleTwice(lang: string)
    requires lang == "zh" || lang == "en"
    ensures Toggle(Toggle(lang)) == lang
  {
  }

  /** `i18n.language || 'zh'`. */
  function InitialLanguage(i18nLanguage: Option<string>): (lang: string)
    ensures lang != ""
    ensures i18nLanguage.Some? && i18nLanguage.value != "" ==> lang == i18nLanguage.value
    ensures i18nLanguage.None? || i18nLanguage.value == "" ==> lang == "zh"
  {
    if i18nLanguage.Some? && i18nLanguage.value != "" then i18nLanguage.value else "zh"
  }

  /** The readme for a language: the Chinese one for `zh`, the English one otherwise. */
  function ReadmeFileName(lang: string): (name: string)
    ensures name == "README_ZH.md" <==> lang == "zh"
    ensures name == "README.md" <==> lang != "zh"
  {
    if lang == "zh" then "README_ZH.md" else "README.md"
  }

  class Provider {
    var currentLanguage: string
    /** The language i18next renders with. */
    var i18nLanguage: string
    /** `document.documentElement.lang`. */
    var documentLanguage: string
    /** Local storage. */
    var storage: map<string, string>
    /** The address bar. */
    const location: Location

    /** The provider starts with `i18n.language || 'zh'`. */
    constructor(i18nLanguage: Option<string>, documentLanguage: string, storage: map<string, string>, location: Location)
      ensures currentLanguage == InitialLanguage(i18nLanguage)
      ensures this.i18nLanguage == InitialLanguage(i18nLanguage)
      ensures this.documentLanguage == documentLanguage && this.storage == storage
      ensures this.location == location
    {
      currentLanguage := InitialLanguage(i18nLanguage);
      this.i18nLanguage := InitialLanguage(i18nLanguage);
      this.documentLanguage := documentLanguage;
      this.storage := storage;
      this.location := location;
    }

    /** What `setLanguage(lang)` leaves behind when `lang` is not the current
        language: every record of the language says `lang`, and a prefixed address
        is moved under `lang` in place unless it already is there. */
    ghost predicate LanguageSet(lang: string, path0: string, replaced0: seq<string>)
      reads this, location
    {
      currentLanguage == lang && i18nLanguage == lang && documentLanguage == lang
      && LanguageKey in storage && storage[LanguageKey] == lang
      && if HasLangPrefix(path0) && LangPath(lang, path0) != path0
         then location.pathname == LangPath(lang, path0) && location.replaced == replaced0 + [LangPath(lang, path0)]
         else location.pathname == path0 && location.replaced == replaced0
    }

    /** `setLanguage(lang)`: nothing happens for the current language. */
    method SetLanguage(lang: string)
      modifies this, location
      ensures lang == old(currentLanguage) ==>
        currentLanguage == old(currentLanguage) && i18nLanguage == old(i18nLanguage)
        && documentLanguage == old(documentLanguage) && storage == old(storage)
        && location.pathname == old(location.pathname) && location.replaced == old(location.replaced)
      ensures lang != old(currentLanguage) ==> LanguageSet(lang, old(location.pathname), old(location.replaced))
      ensures forall k :: k in old(storage) && k != LanguageKey ==> k in storage && storage[k] == old(storage)[k]
    {
      if lang != currentLanguage {
        currentLanguage := lang;
        i18nLanguage := lang;
        storage := storage[LanguageKey := lang];
        documentLanguage := lang;
        var currentPath := location.pathname;
        var newPath := LangPath(lang, currentPath);
        if currentPath != newPath && HasLangPrefix(currentPath) {
          location.Replace(newPath);
        }
      }
    }

    /** `toggleLanguage()`: Chinese becomes English and everything else Chinese; it
        always changes the language. */
    method ToggleLanguage()
      modifies this, location
      ensures currentLanguage == Toggle(old(currentLanguage)) != old(currentLanguage)
      ensures LanguageSet(Toggle(old(currentLanguage)), old(location.pathname), old(location.replaced))
      ensures forall k :: k in old(storage) && k != LanguageKey ==> k in storage && storage[k] == old(storage)[k]
    {
      SetLanguage(Toggle(currentLanguage));
    }
  }

  /** Switching between the shipped languages on a prefixed address and back
      restores the address. */
  lemma SwitchBackRestoresPath(a: string, b: string, path: string)
    requires a == "zh" || a == "en"
    requires b == "zh" || b == "en"
    requires StartsWith(path, "/" + a)
    ensures LangPath(a, LangPath(b, path)) == path
  {
    LangPathOverrides(a, b, path);
    assert path[..3] == "/" + a;
    assert path == path[..3] + path[3..];
  }
}
