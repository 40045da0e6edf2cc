/**
 * The application shell: the effect that keeps the address under a language
 * prefix, and the route table mapping addresses to pages.
 */
module App {
  import opened Wrappers
  import opened JsText
  import opened Browser
  import opened I18n
  import opened LanguageContext
  import opened Header

  /** The pages the router can show. */
  datatype Page = Home | Creator | About | Guide | Privacy | Terms | NotFound

  /** The route table, prefixed and unprefixed; everything else is `NotFound`. */
  const Routes: seq<(string, Page)> := [
    ("/", Home),
    ("/zh", Home), ("/zh/editor", Creator), ("/zh/about", About),
    ("/zh/guide", Guide), ("/zh/privacy", Privacy), ("/zh/terms", Terms),
    ("/en", Home), ("/en/editor", Creator), ("/en/about", About),
    ("/en/guide", Guide), ("/en/privacy", Privacy), ("/en/terms", Terms),
    ("/editor", Creator), ("/about", About), ("/guide", Guide),
    ("/privacy", Privacy), ("/terms", Terms)
  ]

  /** The page of the first entry whose path is `path`, `NotFound` without one. */
  function RouteIn(routes: seq<(string, Page)>, path: string): (p: Page)
    ensures p != NotFound ==> exists i :: 0 <= i < |routes| && routes[i] == (path, p)
    decreases |routes|
  {
    if routes == [] then NotFound
    else if routes[0].0 == path then routes[0].1
    else RouteIn(routes[1..], path)
  }

  /** The page shown at an address. */
  function Route(path: string): Page {
    RouteIn(Routes, path)
  }

  /** The page names reachable without a prefix, in table order. */
  const Names: seq<string> := ["/editor", "/about", "/guide", "/privacy", "/terms"]

  /** The first entry with the path wins: no earlier entry has it. */
  lemma {:induction false} RouteInFound(routes: seq<(string, Page)>, path: string, k: nat)
    requires k < |routes| && routes[k].0 == path
    requires forall j :: 0 <= j < k ==> routes[j].0 != path
    ensures RouteIn(routes, path) == routes[k].1
    decreases k
  {
    if k > 0 {
      RouteInFound(routes[1..], path, k - 1);
    }
  }

  /** A path no entry has is `NotFound`. */
  lemma {:induction false} RouteInAbsent(routes: seq<(string, Page)>, path: string)
    requires forall i :: 0 <= i < |routes| ==> routes[i].0 != path
    ensures RouteIn(routes, path) == NotFound
    decreases |routes|
  {
    if routes != [] {
      RouteInAbsent(routes[1..], path);
    }
  }

  /** Length, second and fifth character: enough to tell the table's paths apart. */
  function Signature(path: string): (int, char, char) {
    (|path|, if |path| > 1 then path[1] else ' ', if |path| > 4 then path[4] else ' ')
  }

  /** No path appears twice in the table. */
  lemma RoutesDistinct()
    ensures forall i, j :: 0 <= i < j < |Routes| ==> Routes[i].0 != Routes[j].0
  {
    forall i, j | 0 <= i < j < |Routes| ensures Routes[i].0 != Routes[j].0 {
      assert Signature(Routes[i].0) != Signature(Routes[j].0);
    }
  }

  /** Every entry's path shows that entry's page. */
  lemma RouteOfEntry(k: nat)
    requires k < |Routes|
    ensures Route(Routes[k].0) == Routes[k].1
  {
    RoutesDistinct();
    RouteInFound(Routes, Routes[k].0, k);
  }

  /** Where the prefixed entries of a name sit: the Chinese block starts at 2, the
      English one at 8, the unprefixed one at 13. */
  lemma PrefixedEntry(base: nat, lang: string, i: nat)
    requires (lang == "zh" && base == 2) || (lang == "en" && base == 8)
    requires i < |Names|
    ensures Routes[base + i].0 == "/" + lang + Names[i]
    ensures Routes[base + i].1 == Routes[13 + i].1 != NotFound && Routes[13 + i].0 == Names[i]
  {
    var p := "/" + lang;
    assert p == "/zh" || p == "/en";
    assert Routes[base + i].0 == p + Names[i] by {
      assert Routes[base + i].0[..3] == p;
      assert Routes[base + i].0[3..] == Names[i];
    }
  }

  /** Every named page is the same page under either prefix and without one. */
  lemma PrefixedRoutesAgree(lang: string, i: nat)
    requires lang == "zh" || lang == "en"
    requires i < |Names|
    ensures Route("/" + lang + Names[i]) == Route(Names[i]) != NotFound
  {
    var base := if lang == "zh" then 2 else 8;
    PrefixedEntry(base, lang, i);
    RouteOfEntry(base + i);
    RouteOfEntry(13 + i);
  }

  /** The bare prefixes show the home page, as the root does. */
  lemma PrefixedHome(lang: string)
    requires lang == "zh" || lang == "en"
    ensures Route("/" + lang) == Route("/") == Home
  {
    RouteOfEntry(0);
    if lang == "zh" {
      assert "/" + lang == Routes[1].0;
      RouteOfEntry(1);
    } else {
      assert "/" + lang == Routes[7].0;
      RouteOfEntry(7);
    }
  }

  /** Only a whole prefix segment selects a language: `/zhfoo` is no page. */
  lemma PrefixNeedsSegment()
    ensures Route("/zhfoo") == NotFound
  {
    forall i | 0 <= i < |Routes| ensures Routes[i].0 != "/zhfoo" {
      assert |Routes[i].0| != 6 || Routes[i].0[3] != 'f';
    }
    RouteInAbsent(Routes, "/zhfoo");
  }

  /** Whether an address lies under the prefix of `lang`: the bare prefix or the
      prefix followed by a slash. */
  predicate UnderLang(path: string, lang: string) {
    StartsWith(path, "/" + lang + "/") || path == "/" + lang
  }

  /** No address lies under both shipped prefixes. */
  lemma LangsExclusive(path: string)
    ensures !(UnderLang(path, "zh") && UnderLang(path, "en"))
  {
    if UnderLang(path, "zh") {
      assert path[1] == 'z';
    }
  }

  /** What the address effect does. */
  datatype Effect = Stay | Select(lang: string) | Redirect(target: string)

  /** The address effect for an address and the current language: an address under
      a shipped language selects it when it is not current; any other address is
      redirected under the current language. */
  function RouteEffect(path: string, current: string): (e: Effect)
    ensures e.Select? ==> Supported(e.lang) && e.lang != current && UnderLang(path, e.lang)
    ensures e.Stay? <==> UnderLang(path, current) && Supported(current)
    ensures e.Redirect? <==> !UnderLang(path, "zh") && !UnderLang(path, "en")
    ensures e.Redirect? && path != "/" ==> e.target == "/" + current + path
    ensures e.Redirect? && path == "/" ==> e.target == "/" + current
  {
    LangsExclusive(path);
    if UnderLang(path, "zh") then
      (if current != "zh" then Select("zh") else Stay)
    else if UnderLang(path, "en") then
      (if current != "en" then Select("en") else Stay)
    else if path != "/" then Redirect("/" + current + path)
    else Redirect("/" + current)
  }

  /** A prefixed address stays put when its language is selected. */
  lemma SelectKeepsAddress(path: string, lang: string)
    requires Supported(lang) && UnderLang(path, lang)
    ensures LangPath(lang, path) == path
  {
    assert path[..3] == "/" + lang;
    assert path == path[..3] + path[3..];
  }

  /** With a shipped language current, a redirect lands on an address the effect
      leaves alone: there is never a second redirect. */
  lemma NoSecondRedirect(path: string, current: string)
    requires Supported(current)
    requires StartsWith(path, "/")
    ensures RouteEffect(path, current).Redirect? ==> RouteEffect(RouteEffect(path, current).target, current) == Stay
  {
    var t := if path == "/" then "/" + current else "/" + current + path;
    if path != "/" {
      assert t[..|current| + 2] == "/" + current + "/";
    }
  }

  /** With a language current that is not shipped and holds no slash, every redirect
      lands on a longer address that is redirected again, without end. */
  lemma UnsupportedLanguageRedirectsAgain(path: string, current: string)
    requires current != "" && !Supported(current) && '/' !in current
    requires StartsWith(path, "/")
    requires RouteEffect(path, current).Redirect?
    ensures var t := RouteEffect(path, current).target;
      StartsWith(t, "/") && |t| > |path| && RouteEffect(t, current).Redirect?
  {
    var t := RouteEffect(path, current).target;
    NotUnderLang(t, current, "zh");
    NotUnderLang(t, current, "en");
  }

  /** An address `/` + `current` + rest with a slash-free `current` other than `lang`
      and a rest empty or starting with a slash is not under `lang`. */
  lemma NotUnderLang(t: string, current: string, lang: string)
    requires Supported(lang) && current != lang && '/' !in current
    requires StartsWith(t, "/" + current)
    requires |t| == |current| + 1 || t[|current| + 1] == '/'
    ensures !UnderLang(t, lang)
  {
    assert t[1..1 + |current|] == current;
    if |current| < 2 {
      assert lang[0] != '/' && lang[1] != '/';
    } else if |current| == 2 {
      assert t[1..3] == current;
    } else {
      assert t[1..3] == current[..2] && t[3] == current[2] != '/';
    }
  }

  /** The header's links are never redirected while a shipped language is current. */
  lemma HeaderLinksStay(current: string, path: string)
    requires Supported(current)
    requires path == "" || StartsWith(path, "/")
    ensures RouteEffect(PathWithLang(current, path), current) == Stay
  {
    var r := PathWithLang(current, path);
    if path != "/" && path != "" {
      assert r == "/" + current + path;
      assert r[..|current| + 2] == "/" + current + "/";
    } else {
      assert r == "/" + current;
    }
  }

  /** The language the provider starts with when i18next was started with the
      original detection: a saved language that is not shipped is kept. */
  lemma SavedUnsupportedLanguageLoops(saved: string, language: Option<string>, userLanguage: Option<string>)
    requires saved != "" && !Supported(saved) && '/' !in saved
    ensures var current := InitialLanguage(Some(DetectUserLanguage(Some(saved), language, userLanguage).value));
      current == saved && RouteEffect("/", current) == Redirect("/" + saved)
      && RouteEffect("/" + saved, current) == Redirect("/" + saved + "/" + saved)
  {
    UnsupportedLanguageRedirectsAgain("/", saved);
  }

  /** With the checked detection the provider's language is shipped, so the address
      effect redirects at most once. */
  lemma DetectedLanguageRedirectsOnce(saved: Option<string>, language: Option<string>, userLanguage: Option<string>, path: string)
    requires DetectSupportedLanguage(saved, language, userLanguage).Success?
    requires StartsWith(path, "/")
    ensures var current := InitialLanguage(Some(DetectSupportedLanguage(saved, language, userLanguage).value));
      Supported(current) &&
      (RouteEffect(path, current).Redirect? ==> RouteEffect(RouteEffect(path, current).target, current) == Stay)
  {
    var current := DetectSupportedLanguage(saved, language, userLanguage).value;
    NoSecondRedirect(path, current);
  }

  /** The address effect run against the provider: selecting goes through
      `setLanguage`, which leaves the address as it is; redirecting replaces the
      entry. */
  method RunRouteEffect(provider: Provider)
    modifies provider, provider.location
    ensures var e := RouteEffect(old(provider.location.pathname), old(provider.currentLanguage));
      match e
      case Stay =>
        provider.currentLanguage == old(provider.currentLanguage)
        && provider.i18nLanguage == old(provider.i18nLanguage) && provider.documentLanguage == old(provider.documentLanguage)
        && provider.storage == old(provider.storage)
        && provider.location.pathname == old(provider.location.pathname)
        && provider.location.replaced == old(provider.location.replaced)
      case Select(lang) =>
        provider.currentLanguage == lang && LanguageKey in provider.storage && provider.storage[LanguageKey] == lang
        && provider.i18nLanguage == lang && provider.documentLanguage == lang
        && (forall k :: k in old(provider.storage) && k != LanguageKey ==> k in provider.storage && provider.storage[k] == old(provider.storage)[k])
        && provider.location.pathname == old(provider.location.pathname)
        && provider.location.replaced == old(provider.location.replaced)
      case Redirect(target) =>
        provider.currentLanguage == old(provider.currentLanguage)
        && provider.i18nLanguage == old(provider.i18nLanguage) && provider.documentLanguage == old(provider.documentLanguage)
        && provider.storage == old(provider.storage)
        && provider.location.pathname == target
        && provider.location.replaced == old(provider.location.replaced) + [target]
  {
    var e := RouteEffect(provider.location.pathname, provider.currentLanguage);
    match e {
      case Stay =>
      case Select(lang) =>
        SelectKeepsAddress(provider.location.pathname, lang);
        provider.SetLanguage(lang);
      case Redirect(target) =>
        provider.location.Replace(target);
    }
  }
}
