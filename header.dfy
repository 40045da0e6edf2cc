/**
 * The page header's language switch and its language-prefixed links.
 */
module Header {
  import opened JsText
  import opened Browser
  import opened LanguageContext

  /** `getPathWithLang(path)`: a link under the current language's prefix, the root
      becoming the bare prefix. */
  function PathWithLang(current: string, path: string): (r: string)
    ensures StartsWith(r, "/" + current)
    ensures path == "/" ==> r == "/" + current
    ensures path != "/" ==> r[1 + |current|..] == path
  {
    "/" + current + (if path == "/" then "" else path)
  }

  /** `changeLanguage(lang)`: the language is set first, then the address is moved
      under `lang` by a replacing navigation when it is not already there.  On a
      prefixed address `setLanguage` has already rewritten it, so the entry is
      replaced twice with the same path. */
  method ChangeLanguage(provider: Provider, lang: string)
    modifies provider, provider.location
    ensures lang == old(provider.currentLanguage) ==>
      provider.currentLanguage == old(provider.currentLanguage) && provider.storage == old(provider.storage)
      && provider.i18nLanguage == old(provider.i18nLanguage) && provider.documentLanguage == old(provider.documentLanguage)
      && provider.location.pathname == old(provider.location.pathname)
      && provider.location.replaced == old(provider.location.replaced)
    ensures lang != old(provider.currentLanguage) ==>
      provider.currentLanguage == lang && provider.i18nLanguage == lang && provider.documentLanguage == lang
      && LanguageKey in provider.storage && provider.storage[LanguageKey] == lang
      && provider.location.pathname == LangPath(lang, old(provider.location.pathname))
      && provider.location.replaced == old(provider.location.replaced) + Rewrites(lang, old(provider.location.pathname))
    ensures forall k :: k in old(provider.storage) && k != LanguageKey ==> k in provider.storage && provider.storage[k] == old(provider.storage)[k]
  {
    if provider.currentLanguage != lang {
      var currentPath := provider.location.pathname;
      var newPath := LangPath(lang, currentPath);
      provider.SetLanguage(lang);
      if currentPath != newPath {
        provider.location.Replace(newPath);
      }
    }
  }

  /** The entries `changeLanguage(lang)` writes for the address `path`: one from
      `setLanguage` when the address is prefixed, one from the header's navigation,
      none when the address is already in place. */
  function Rewrites(lang: string, path: string): (r: seq<string>)
    ensures LangPath(lang, path) == path ==> r == []
    ensures LangPath(lang, path) != path ==> 1 <= |r| <= 2 && forall i :: 0 <= i < |r| ==> r[i] == LangPath(lang, path)
    ensures |r| == 2 <==> HasLangPrefix(path) && LangPath(lang, path) != path
  {
    var newPath := LangPath(lang, path);
    if newPath == path then []
    else if HasLangPrefix(path) then [newPath, newPath]
    else [newPath]
  }
}
