/**
 * The interface language chosen at start-up: a language saved in local storage
 * wins, otherwise the browser's language decides between Chinese and English.
 * Local storage and the navigator are parameters.
 */
module I18n {
  import opened Wrappers
  import opened JsText

  /** The languages the interface ships translations for. */
  predicate Supported(lang: string) {
    lang == "zh" || lang == "en"
  }

  /** `navigator.language || navigator.userLanguage`: `None` when `language` is absent
      or empty and `userLanguage` is absent, where `startsWith` then throws. */
  function BrowserLanguage(language: Option<string>, userLanguage: Option<string>): (r: Option<string>)
    ensures language.Some? && language.value != "" ==> r == language
    ensures r.Some? ==> r == language || r == userLanguage
    ensures !(language.Some? && language.value != "") ==> r == userLanguage
  {
    if language.Some? && language.value != "" then language
    else if userLanguage.Some? then userLanguage
    else None
  }

  /** Chinese exactly for a browser language starting with `zh`, English otherwise. */
  function FromBrowser(browser: string): (lang: string)
    ensures Supported(lang)
    ensures lang == "zh" <==> StartsWith(browser, "zh")
  {
    if StartsWith(browser, "zh") then "zh" else "en"
  }

  /** `detectUserLanguage()`: the saved language when it is non-empty, unchecked;
      otherwise the browser's.  `saved` is `localStorage.getItem('language')`.  The
      failure is the `TypeError` thrown when the browser reports no language. */
  function DetectUserLanguage(saved: Option<string>, language: Option<string>, userLanguage: Option<string>): (r: Result<string>)
    ensures saved.Some? && saved.value != "" ==> r == Success(saved.value)
    ensures (saved.None? || saved.value == "") && r.Success? ==> Supported(r.value)
    ensures r.Failure? <==> (saved.None? || saved.value == "") && BrowserLanguage(language, userLanguage).None?
    ensures (saved.None? || saved.value == "") && BrowserLanguage(language, userLanguage).Some? ==>
      (r == Success("zh") <==> StartsWith(BrowserLanguage(language, userLanguage).value, "zh"))
  {
    if saved.Some? && saved.value != "" then Success(saved.value)
    else match BrowserLanguage(language, userLanguage)
      case None => Failure("browserLang is undefined")
      case Some(browser) => Success(FromBrowser(browser))
  }

  /** The detection with the saved value checked against the shipped languages: a
      saved language the interface does not ship falls back to the browser's. */
  function DetectSupportedLanguage(saved: Option<string>, language: Option<string>, userLanguage: Option<string>): (r: Result<string>)
    ensures r.Success? ==> Supported(r.value)
    ensures saved.Some? && Supported(saved.value) ==> r == Success(saved.value)
  {
    if saved.Some? && Supported(saved.value) then Success(saved.value)
    else match BrowserLanguage(language, userLanguage)
      case None => Failure("browserLang is undefined")
      case Some(browser) => Success(FromBrowser(browser))
  }

  /** The two detections differ only on a saved language the interface does not
      ship: there the original keeps it and the checked one asks the browser. */
  lemma DetectionsAgreeOnSupported(saved: Option<string>, language: Option<string>, userLanguage: Option<string>)
    ensures saved.Some? && saved.value != "" && !Supported(saved.value) ==>
      DetectUserLanguage(saved, language, userLanguage) == Success(saved.value) &&
      DetectSupportedLanguage(saved, language, userLanguage) == DetectUserLanguage(None, language, userLanguage)
    ensures saved.None? || saved.value == "" || Supported(saved.value) ==>
      DetectSupportedLanguage(saved, language, userLanguage) == DetectUserLanguage(saved, language, userLanguage)
  {
  }
}
