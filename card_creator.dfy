/**
 * The card editor page: the card and export settings records with their
 * single-key updaters, the product fetch, the hand-over of the product stored by
 * the home page, and the choice of encoder and file name on export.
 *
 * Settings records are JSON objects updated by key, so they are maps.  Rendering
 * the card to an image is not modelled: whether the renderer produced an image is
 * a parameter, and a download is recorded instead of performed.
 */
module CardCreator {
  import opened Wrappers
  import opened JsValue
  import opened JsText
  import opened Slug
  import opened ProductHuntApi
  import opened HomePage

  /** The text settings the editor starts with. */
  const InitialTextSettings: map<string, Json> := map[
    "fontFamily" := JStr("font-sans"),
    "titleSize" := JStr("text-2xl"),
    "taglineSize" := JStr("text-base"),
    "titleColor" := JStr("text-gray-900"),
    "taglineColor" := JStr("text-gray-600"),
    "bold" := JBool(true),
    "italic" := JBool(false),
    "align" := JStr("text-left"),
    "letterSpacing" := JNum(2),
    "customTitleColor" := JStr(""),
    "customTaglineColor" := JStr("")
  ]

  /** The card settings the editor starts with. */
  const InitialCardSettings: map<string, Json> := map[
    "theme" := JStr("light"),
    "backgroundColor" := JStr("#ffffff"),
    "backgroundType" := JStr("solid"),
    "gradientValue" := JStr("bg-gradient-to-br from-white to-gray-100"),
    "frameStyle" := JStr("clean"),
    "showLogo" := JBool(true),
    "showTagline" := JBool(true),
    "shadow" := JStr("md"),
    "aspectRatio" := JStr("16:9"),
    "watermark" := JBool(true),
    "showVotes" := JBool(true),
    "showComments" := JBool(true),
    "textSettings" := JObj(InitialTextSettings)
  ]

  /** The export settings the editor starts with (the `quality` member is left out). */
  const InitialExportSettings: map<string, Json> := map["format" := JStr("png"), "scale" := JNum(2)]

  /** `{...prev, [name]: value}`: the record with one member set. */
  function SettingsWith(settings: map<string, Json>, name: string, value: Json): (r: map<string, Json>)
    ensures r.Keys == settings.Keys + {name}
    ensures name in r && r[name] == value
    ensures forall k :: k in settings && k != name ==> r[k] == settings[k]
  {
    settings[name := value]
  }

  /** The members of `{...v}` for the text settings: those of an object, none for
      anything else. */
  function Fields(v: Option<Json>): (r: map<string, Json>)
    ensures v.Some? && v.value.JObj? ==> r == v.value.fields
    ensures v.None? || !v.value.JObj? ==> r == map[]
  {
    if v.Some? && v.value.JObj? then v.value.fields else map[]
  }

  /** `{...prev, textSettings: {...prev.textSettings, [name]: value}}`. */
  function TextSettingsWith(settings: map<string, Json>, name: string, value: Json): (r: map<string, Json>)
    ensures r.Keys == settings.Keys + {"textSettings"}
    ensures forall k :: k in settings && k != "textSettings" ==> r[k] == settings[k]
    ensures r["textSettings"].JObj?
    ensures Member(r["textSettings"], name) == Some(value)
    ensures forall k :: k != name ==> Member(r["textSettings"], k) == Member(JObj(Fields(Member(JObj(settings), "textSettings"))), k)
  {
    settings["textSettings" := JObj(Fields(Member(JObj(settings), "textSettings"))[name := value])]
  }

  /** Updates of two different members can be made in either order. */
  lemma SettingsUpdatesCommute(settings: map<string, Json>, a: string, x: Json, b: string, y: Json)
    requires a != b
    ensures SettingsWith(SettingsWith(settings, a, x), b, y) == SettingsWith(SettingsWith(settings, b, y), a, x)
  {
  }

  /** A text-setting update keeps the other text settings of an object. */
  lemma TextSettingsKeepsOthers(settings: map<string, Json>, name: string, value: Json, other: string)
    requires "textSettings" in settings && settings["textSettings"].JObj?
    requires other != name && other in settings["textSettings"].fields
    ensures Member(TextSettingsWith(settings, name, value)["textSettings"], other) == Some(settings["textSettings"].fields[other])
  {
  }

  /** The encoders `handleExport` dispatches to. */
  datatype Encoder = Png | Jpeg | WebpViaCanvas

  /** The `switch (format)`: strict equality against the literals, PNG by default. */
  function EncoderFor(format: Option<Json>): (e: Encoder)
    ensures e == Jpeg <==> IsStr(format, "jpeg") || IsStr(format, "jpg")
    ensures e == WebpViaCanvas <==> IsStr(format, "webp")
    ensures e == Png <==> !IsStr(format, "jpeg") && !IsStr(format, "jpg") && !IsStr(format, "webp")
  {
    if IsStr(format, "png") then Png
    else if IsStr(format, "jpeg") || IsStr(format, "jpg") then Jpeg
    else if IsStr(format, "webp") then WebpViaCanvas
    else Png
  }

  const DownloadPrefix: string := "product-hunt-card-"

  /** `product-hunt-card-${productData?.name || 'card'}.${extension}`. */
  function DownloadName(productData: Json, extension: string): (name: string)
    ensures |name| > |DownloadPrefix| + |extension| && name[..|DownloadPrefix|] == DownloadPrefix
    ensures name[|name| - |extension| - 1..] == "." + extension
    ensures !TruthyOpt(OptMember(Some(productData), "name")) ==> name == DownloadPrefix + "card." + extension
  {
    var stem := Or(OptMember(Some(productData), "name"), Some(JStr("card")));
    DownloadPrefix + TextOpt(stem) + "." + extension
  }

  /** A product whose name is a non-empty string gives that name in the file name. */
  lemma DownloadNameUsesProductName(productData: Json, productName: string, extension: string)
    requires productData.JObj? && "name" in productData.fields && productData.fields["name"] == JStr(productName)
    requires productName != ""
    ensures DownloadName(productData, extension) == DownloadPrefix + productName + "." + extension
  {
  }

  /** The `backgroundColor` option: the card colour for a solid background, null
      otherwise (`None` is an undefined colour). */
  function ExportBackground(cardSettings: map<string, Json>): (c: Option<Json>)
    ensures IsStr(Member(JObj(cardSettings), "backgroundType"), "solid") ==> c == Member(JObj(cardSettings), "backgroundColor")
    ensures !IsStr(Member(JObj(cardSettings), "backgroundType"), "solid") ==> c == Some(JNull)
  {
    if IsStr(Member(JObj(cardSettings), "backgroundType"), "solid") then Member(JObj(cardSettings), "backgroundColor")
    else Some(JNull)
  }

  /** One download: the encoder, the file name and the renderer options. */
  datatype Download = Download(encoder: Encoder, fileName: string, background: Option<Json>, pixelRatio: Option<Json>)

  /** The download `handleExport` makes from the current state. */
  function ExportPlan(cardSettings: map<string, Json>, exportSettings: map<string, Json>, productData: Json): (d: Download)
    ensures d.encoder == EncoderFor(Member(JObj(exportSettings), "format"))
    ensures d.fileName == DownloadName(productData, TextOpt(Member(JObj(exportSettings), "format")))
    ensures d.background == ExportBackground(cardSettings)
    ensures d.pixelRatio == Member(JObj(exportSettings), "scale")
  {
    var format := Member(JObj(exportSettings), "format");
    var encoder := EncoderFor(format);
    // The canvas branch spells its extension out; it is the format's own text.
    var extension := if encoder == WebpViaCanvas then "webp" else TextOpt(format);
    Download(encoder, DownloadName(productData, extension), ExportBackground(cardSettings), Member(JObj(exportSettings), "scale"))
  }

  /** With the initial settings the card is exported as PNG at twice the size, on a
      white background, named after the product. */
  lemma InitialExport(productData: Json)
    ensures ExportPlan(InitialCardSettings, InitialExportSettings, productData) ==
      Download(Png, DownloadName(productData, "png"), Some(JStr("#ffffff")), Some(JNum(2)))
  {
    var format := Member(JObj(InitialExportSettings), "format");
    assert format == Some(JStr("png"));
    assert EncoderFor(format) == Png && TextOpt(format) == "png";
    assert Member(JObj(InitialExportSettings), "scale") == Some(JNum(2));
    assert Member(JObj(InitialCardSettings), "backgroundType") == Some(JStr("solid"));
    assert ExportBackground(InitialCardSettings) == Some(JStr("#ffffff"));
  }

  /** A format the switch does not know is encoded as PNG but named with its own
      extension. */
  lemma UnknownFormatKeepsExtension(cardSettings: map<string, Json>, exportSettings: map<string, Json>, productData: Json, format: string)
    requires format !in {"png", "jpeg", "jpg", "webp"}
    requires "format" in exportSettings && exportSettings["format"] == JStr(format)
    ensures ExportPlan(cardSettings, exportSettings, productData).encoder == Png
    ensures ExportPlan(cardSettings, exportSettings, productData).fileName == DownloadName(productData, format)
  {
  }

  class Editor {
    var productUrl: string
    /** The product shown, `null` before one is loaded. */
    var productData: Json
    var loading: bool
    var error: string
    var cardSettings: map<string, Json>
    var exportSettings: map<string, Json>
    var showExportOptions: bool
    /** Every download made, in order. */
    var downloads: seq<Download>
    /** `new URL(...)`, reduced to hostname and pathname. */
    const parse: string -> Option<Url>

    constructor(parse: string -> Option<Url>)
      ensures productUrl == "" && productData == JNull && !loading && error == ""
      ensures cardSettings == InitialCardSettings && exportSettings == InitialExportSettings
      ensures !showExportOptions && downloads == [] && this.parse == parse
    {
      productUrl := "";
      productData := JNull;
      loading := false;
      error := "";
      cardSettings := InitialCardSettings;
      exportSettings := InitialExportSettings;
      showExportOptions := false;
      downloads := [];
      this.parse := parse;
    }

    /** Whether nothing but the card settings differs from the earlier state. */
    twostate predicate OnlyCardSettingsChanged()
      reads this
    {
      productUrl == old(productUrl) && productData == old(productData) && loading == old(loading)
      && error == old(error) && exportSettings == old(exportSettings)
      && showExportOptions == old(showExportOptions) && downloads == old(downloads)
    }

    /** `handleSettingsChange(name, value)`. */
    method HandleSettingsChange(name: string, value: Json)
      modifies this
      ensures cardSettings == SettingsWith(old(cardSettings), name, value)
      ensures OnlyCardSettingsChanged()
    {
      cardSettings := cardSettings[name := value];
    }

    /** `handleTextSettingsChange(name, value)`. */
    method HandleTextSettingsChange(name: string, value: Json)
      modifies this
      ensures cardSettings == TextSettingsWith(old(cardSettings), name, value)
      ensures OnlyCardSettingsChanged()
    {
      var text := Fields(Member(JObj(cardSettings), "textSettings"));
      cardSettings := cardSettings["textSettings" := JObj(text[name := value])];
    }

    /** `handleExportSettingChange(name, value)`. */
    method HandleExportSettingChange(name: string, value: Json)
      modifies this
      ensures exportSettings == SettingsWith(old(exportSettings), name, value)
      ensures cardSettings == old(cardSettings) && productData == old(productData) && downloads == old(downloads)
      ensures productUrl == old(productUrl) && showExportOptions == old(showExportOptions)
      ensures loading == old(loading) && error == old(error)
    {
      exportSettings := exportSettings[name := value];
    }

    /** `handleProductDataChange`: the content editor's save. */
    method HandleProductDataChange(data: Json)
      modifies this
      ensures productData == data
      ensures cardSettings == old(cardSettings) && exportSettings == old(exportSettings) && downloads == old(downloads)
      ensures productUrl == old(productUrl) && loading == old(loading) && error == old(error)
      ensures showExportOptions == old(showExportOptions)
    {
      productData := data;
    }

    /** The mount effect: a product left in session storage by the home page is
        parsed and shown, and its `url`, when truthy, fills the input.  `deserialize`
        is `JSON.parse`; a parse failure is logged and changes nothing. */
    method LoadStoredProduct(session: map<string, string>, deserialize: string -> Option<Json>)
      modifies this
      ensures ProductDataKey !in session || session[ProductDataKey] == "" || deserialize(session[ProductDataKey]).None? ==>
        productData == old(productData) && productUrl == old(productUrl)
      ensures ProductDataKey in session && session[ProductDataKey] != "" && deserialize(session[ProductDataKey]).Some? ==>
        productData == deserialize(session[ProductDataKey]).value &&
        productUrl == (if TruthyOpt(OptMember(Some(productData), "url")) then TextOpt(OptMember(Some(productData), "url"))
                       else old(productUrl))
      ensures cardSettings == old(cardSettings) && exportSettings == old(exportSettings) && downloads == old(downloads)
      ensures loading == old(loading) && error == old(error) && showExportOptions == old(showExportOptions)
    {
      if ProductDataKey in session && session[ProductDataKey] != "" {
        var data := deserialize(session[ProductDataKey]);
        if data.Some? {
          productData := data.value;
          // `data.url` on a parsed `null` throws after the product was set; the
          // throw is caught and logged.
          var url := OptMember(data, "url");
          if TruthyOpt(url) {
            // The field holds a string; a stored non-string `url` would be kept as
            // is there, while `productUrl` here is text, so it holds its ToString.
            productUrl := TextOpt(url);
          }
        }
      }
    }

    /** `handleFetchProduct`: like the home page's, but the record is shown here. */
    method HandleFetchProduct(language: string, answer: nat -> Reply) returns (run: Option<Run>)
      modifies this
      ensures productUrl == old(productUrl) && cardSettings == old(cardSettings)
      ensures exportSettings == old(exportSettings) && downloads == old(downloads)
      ensures run.None? <==> old(productUrl) == ""
      ensures run.None? ==> error == EmptyInputMessage(language) && loading == old(loading) && productData == old(productData)
      ensures run.Some? ==> run.value == Fetch(Some(ExtractSlug(old(productUrl), parse)), Some(true), answer)
      ensures run.Some? ==> !loading && Shown(run.value.result, language, old(productData))
    {
      if productUrl == "" {
        error := EmptyInputMessage(language);
        return None;
      }
      var slug := ExtractSlug(productUrl, parse);
      var r := FetchAndShow(slug, language, answer);
      run := Some(r);
    }

    /** The fetch of an extracted slug, with the cache skipped, and its outcome shown. */
    method FetchAndShow(slug: string, language: string, answer: nat -> Reply) returns (run: Run)
      modifies this
      ensures run == Fetch(Some(slug), Some(true), answer)
      ensures !loading && Shown(run.result, language, old(productData))
      ensures productUrl == old(productUrl) && cardSettings == old(cardSettings)
      ensures exportSettings == old(exportSettings) && downloads == old(downloads)
    {
      ghost var productData0 := productData;
      loading := true;
      error := "";
      var result, requests, waits := FetchProductData(Some(slug), Some(true), answer);
      run := Run(result, requests, waits);
      Show(result, language, productData0);
    }

    /** What the editor shows once a fetch settled: the record, or the error with the
        product left as it was. */
    ghost predicate Shown(result: Result<ProductRecord>, language: string, productData0: Json)
      reads this
    {
      match result
      case Success(record) => productData == RecordToJson(record) && error == ""
      case Failure(message) => productData == productData0 && error == FetchFailedMessage(language, message)
    }

    /** The end of `handleFetchProduct` once the fetch settled. */
    method Show(result: Result<ProductRecord>, language: string, ghost productData0: Json)
      requires error == "" && productData == productData0
      modifies this
      ensures !loading && Shown(result, language, productData0)
      ensures productUrl == old(productUrl) && cardSettings == old(cardSettings)
      ensures exportSettings == old(exportSettings) && downloads == old(downloads)
    {
      match result {
        case Success(record) =>
          productData := RecordToJson(record);
        case Failure(message) =>
          error := FetchFailedMessage(language, message);
      }
      loading := false;
    }

    /** `handleExport`: nothing without a mounted card or when the renderer fails;
        otherwise one download as `ExportPlan` says, after which the options panel
        closes (the canvas branch returns before that). */
    method HandleExport(mounted: bool, rendered: bool)
      modifies this
      ensures !mounted || !rendered ==> downloads == old(downloads) && showExportOptions == old(showExportOptions)
      ensures mounted && rendered ==> downloads == old(downloads) + [ExportPlan(cardSettings, exportSettings, productData)]
      ensures mounted && rendered ==> showExportOptions == (ExportPlan(cardSettings, exportSettings, productData).encoder == WebpViaCanvas && old(showExportOptions))
      ensures cardSettings == old(cardSettings) && exportSettings == old(exportSettings) && productData == old(productData)
      ensures productUrl == old(productUrl) && loading == old(loading) && error == old(error)
    {
      if !mounted || !rendered {
        return;
      }
      var plan := ExportPlan(cardSettings, exportSettings, productData);
      downloads := downloads + [plan];
      if plan.encoder != WebpViaCanvas {
        showExportOptions := false;
      }
    }
  }

  /** What the home page stores is what the editor shows, when `JSON.parse` undoes
      `JSON.stringify` on it. */
  lemma StoredProductReachesEditor(record: ProductRecord, serialize: Json -> string, deserialize: string -> Option<Json>,
                                   session: map<string, string>)
    requires deserialize(serialize(RecordToJson(record))) == Some(RecordToJson(record))
    requires serialize(RecordToJson(record)) != ""
    ensures var stored := session[ProductDataKey := serialize(RecordToJson(record))];
      ProductDataKey in stored && stored[ProductDataKey] != "" &&
      deserialize(stored[ProductDataKey]) == Some(RecordToJson(record)) &&
      OptMember(Some(RecordToJson(record)), "url") == Some(record.url)
  {
  }
}
