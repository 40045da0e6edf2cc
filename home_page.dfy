/**
 * The home page: the product URL input and the fetch button.  A successful fetch
 * stores the product record in session storage under `productData` and navigates
 * to the editor.  Session storage is a map of strings, navigation a log of paths,
 * and `JSON.stringify` a parameter.
 */
module HomePage {
  import opened Wrappers
  import opened JsValue
  import opened JsText
  import opened Slug
  import opened ProductHuntApi

  /** Session-storage key of the fetched product. */
  const ProductDataKey: string := "productData"
  /** Path of the card editor. */
  const EditorPath: string := "/editor"

  /** Whether the interface language is Chinese (`i18n.language === 'zh'`). */
  predicate IsChinese(language: string) {
    language == "zh"
  }

  /** The message shown for an empty input, in the interface language. */
  function EmptyInputMessage(language: string): string {
    if IsChinese(language) then "请输入 Product Hunt URL" else "Please enter a Product Hunt URL"
  }

  /** The prefix of the message shown when the fetch rejects. */
  function FetchFailedPrefix(language: string): string {
    if IsChinese(language) then "无法获取产品信息: " else "Failed to fetch product: "
  }

  /** The message shown when the fetch rejects: the prefix, then the rejection's message. */
  function FetchFailedMessage(language: string, reason: string): (m: string)
    ensures |m| > |reason| && m[|m| - |reason|..] == reason
  {
    FetchFailedPrefix(language) + reason
  }

  class Page {
    var productUrl: string
    var loading: bool
    var error: string
    /** Session storage. */
    var session: map<string, string>
    /** Every path navigated to, in order. */
    var navigations: seq<string>
    /** `JSON.stringify`. */
    const serialize: Json -> string
    /** `new URL(...)`, reduced to hostname and pathname. */
    const parse: string -> Option<Url>

    constructor(serialize: Json -> string, parse: string -> Option<Url>, session: map<string, string>)
      ensures productUrl == "" && !loading && error == ""
      ensures this.session == session && navigations == []
      ensures this.serialize == serialize && this.parse == parse
    {
      productUrl := "";
      loading := false;
      error := "";
      this.session := session;
      navigations := [];
      this.serialize := serialize;
      this.parse := parse;
    }

    /** The input's change handler. */
    method HandleInputChange(value: string)
      modifies this
      ensures productUrl == value
      ensures loading == old(loading) && error == old(error)
      ensures session == old(session) && navigations == old(navigations)
    {
      productUrl := value;
    }

    /** `handleFetchProduct`: the empty-input guard, slug extraction, the fetch with
        the cache skipped, then the outcome stored.  `answer` stands for the network;
        `run` records what the fetch did, and is `None` when the guard stops the
        handler before it. */
    method HandleFetchProduct(language: string, answer: nat -> Reply) returns (run: Option<Run>)
      modifies this
      ensures productUrl == old(productUrl)
      ensures run.None? <==> old(productUrl) == ""
      ensures run.None? ==>
        error == EmptyInputMessage(language) && loading == old(loading)
        && session == old(session) && navigations == old(navigations)
      ensures run.Some? ==> run.value == Fetch(Some(ExtractSlug(old(productUrl), parse)), Some(true), answer)
      ensures run.Some? ==> Fetched(run.value, language, old(session), old(navigations))
    {
      if productUrl == "" {
        error := EmptyInputMessage(language);
        return None;
      }
      var slug := ExtractSlug(productUrl, parse);
      var r := FetchAndStore(slug, language, answer);
      run := Some(r);
    }

    /** The fetch of an extracted slug, with the cache skipped, and its outcome stored. */
    method FetchAndStore(slug: string, language: string, answer: nat -> Reply) returns (run: Run)
      modifies this
      ensures run == Fetch(Some(slug), Some(true), answer)
      ensures Fetched(run, language, old(session), old(navigations))
      ensures productUrl == old(productUrl)
    {
      ghost var session0, navigations0 := session, navigations;
      loading := true;
      error := "";
      var result, requests, waits := FetchProductData(Some(slug), Some(true), answer);
      run := Run(result, requests, waits);
      Store(run, language, session0, navigations0);
    }

    /** What the page holds after a fetch that ran: on success the record is in
        session storage and the editor was navigated to, with the spinner left on;
        on failure the error message is shown and nothing else changes. */
    ghost predicate Fetched(run: Run, language: string, session0: map<string, string>, navigations0: seq<string>)
      reads this
    {
      match run.result
      case Success(record) =>
        session == session0[ProductDataKey := serialize(RecordToJson(record))] &&
        navigations == navigations0 + [EditorPath] && loading && error == ""
      case Failure(message) =>
        error == FetchFailedMessage(language, message) && !loading &&
        session == session0 && navigations == navigations0
    }

    /** The end of `handleFetchProduct` once the fetch settled: store and navigate, or
        show the error. */
    method Store(run: Run, language: string, ghost session0: map<string, string>, ghost navigations0: seq<string>)
      requires loading && error == "" && session == session0 && navigations == navigations0
      modifies this
      ensures productUrl == old(productUrl)
      ensures Fetched(run, language, session0, navigations0)
    {
      match run.result {
        case Success(record) =>
          session := session[ProductDataKey := serialize(RecordToJson(record))];
          navigations := navigations + [EditorPath];
        case Failure(message) =>
          error := FetchFailedMessage(language, message);
          loading := false;
      }
    }
  }

  /** An input of only white space passes the empty-input guard, extracts the empty
      slug, and so fetches the default example product. */
  lemma BlankInputFetchesDefault(url: string, parse: string -> Option<Url>, answer: nat -> Reply)
    requires url != "" && Trim(url) == ""
    ensures var run := Fetch(Some(ExtractSlug(url, parse)), Some(true), answer);
      run.requests != [] && run.requests[0] == Request(0, DefaultExample, true)
  {
    assert ExtractSlug(url, parse) == "";
    assert Trim("") == "";
    FetchRequestsAndWaits(Some(ExtractSlug(url, parse)), Some(true), answer);
    assert FirstSuccess(answer, 0) >= 0;
  }
}
