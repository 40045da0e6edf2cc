# Product Hunt card maker — a verified model of its core

The application turns a Product Hunt product into a shareable image card. The
user pastes a product URL, and a slug is extracted from it. The browser asks a
Cloudflare Worker to forward a GraphQL query to the Product Hunt API. The Worker
keeps a five-minute edge cache of clean answers. The fetch orchestrator tries
three query shapes per round for up to three rounds, waiting 2 and then 4
seconds between rounds. It normalises the first product it finds into a record.

The home page stores that record in session storage and opens the editor. The
editor holds three groups of state:

- the card settings, changed one member at a time by the card and text controls,
  or thirteen members at once by a template;
- the export settings;
- the product record, which the content panel edits through a buffer and saves
  back in one step.

The card component renders the settings and the record as class lists and inline
styles. A language layer keeps the interface language and the `/zh` or `/en`
address prefix in step. It covers detection at start-up, the provider's
`setLanguage`, the header's language switch and the application's routing effect.

Each source file is one Dafny module:

| module | file |
|---|---|
| `Wrappers`, `JsValue`, `JsText` | shared: `Option`/`Result`, JavaScript values and truthiness, and string built-ins (`trim`, `split`, `join`, `startsWith`, and `parseInt` per ECMAScript) |
| `ApiProxy` | `workers/api-proxy.js` |
| `ProductHuntApi` | `src/services/productHuntApi.js` |
| `Slug` | `extractSlugFromUrl`, the same in `src/pages/HomePage.jsx` and `src/pages/CardCreator.jsx` |
| `HomePage` | `src/pages/HomePage.jsx` |
| `CardCreator` | `src/pages/CardCreator.jsx` |
| `CardControls` | `src/components/CardControls.jsx` |
| `TextStyleControls` | `src/components/TextStyleControls.jsx` |
| `ProductCard` | `src/components/ProductCard.jsx` |
| `ContentControls` | `src/components/ContentControls.jsx` |
| `I18n` | `src/i18n/index.js` |
| `Browser` | the address bar: the current pathname and a log of history replacements |
| `LanguageContext` | `src/contexts/LanguageContext.jsx` |
| `Header` | `src/components/Header.jsx` |
| `App` | `src/App.jsx` |

How the code is modelled:

- Stateful components are classes whose methods update their fields. This covers
  the Worker, the pages, the editor, the panels, the provider and the location.
- The Worker's behaviour, the fetch and the rendering are also given as
  functions. Each method is proved equal to its function, and the properties are
  proved about the functions.
- JavaScript values are one `Json` datatype, and `undefined` is `Option.None`.
- Settings objects are maps, because the source writes them by computed key.
- The network, the clock, `JSON.stringify`/`JSON.parse` and `new URL` are
  parameters of the operations that use them.

Two details of the retry loop:

- The orchestrator waits twice, 2000 ms then 4000 ms, across three rounds
  (productHuntApi.js:170-178).
- After the last round it rejects with the fixed "all query methods failed"
  message, not with the last underlying cause (productHuntApi.js:180-182).

## Model

| member | source | states |
|---|---|---|
| ApiProxy.InternalError | workers/api-proxy.js:96-104 | an exception becomes status 500 with the CORS headers and an `errors` envelope; an empty message is replaced by the fallback text |
| ApiProxy.Preflight | workers/api-proxy.js:116-126 | the preflight answer is 204 with no body, allows every origin and may be cached for 86400 seconds |
| ApiProxy.UpstreamFailureMessage | workers/api-proxy.js:68-75 | the 502 message is `API请求失败 (`, the decimal status, `): ` and then the upstream body text, nothing more |
| ApiProxy.CacheKey | workers/api-proxy.js:129-133 | a key exists exactly when `query` is a string; it starts with `ph_api_` and ends with the query stripped of all white space |
| ApiProxy.Lookup | workers/api-proxy.js:136-147 | a stored payload is returned exactly when its key is present and its age is below the 300-second TTL |
| ApiProxy.UpstreamBody | workers/api-proxy.js:61-64 | the forwarded body is an object holding only `query` and `variables`, both as in the request |
| ApiProxy.PreflightTouchesNothing | workers/api-proxy.js:16-18 | an OPTIONS request gets the preflight answer and neither reads the cache, writes it nor calls upstream |
| ApiProxy.InvalidJsonRejected | workers/api-proxy.js:21-30 | a body that is not JSON gets 400 `Invalid JSON in request` and touches nothing |
| ApiProxy.CacheKeyIgnoresWhiteSpace | workers/api-proxy.js:129-133 | two queries that differ only in white space, with the same variables, share a cache key |
| ApiProxy.CacheKeySpaceInsertion | workers/api-proxy.js:132 | inserting one white-space character into a query leaves its key unchanged |
| ApiProxy.SkipCacheBypassesCache | workers/api-proxy.js:37-44 | with `skipCache` exactly `true` the cache is neither read nor written, and the request goes upstream |
| ApiProxy.OtherwiseCacheIsRead | workers/api-proxy.js:37-44 | with any other `skipCache` the cache is probed under the request's key |
| ApiProxy.CacheMissGoesUpstream | workers/api-proxy.js:37-54 | with caching on, a miss or a failed read forwards the request, and the answer is the forwarding part's under the probed key |
| ApiProxy.FirstRequestAnsweredFromUpstream | workers/api-proxy.js:37-95 | the first request on an empty cache goes upstream, and an ok non-null payload is answered 200 with that payload |
| ApiProxy.CacheHitServesStoredPayload | workers/api-proxy.js:39-51 | a fresh, truthy stored payload is answered with 200, with no upstream call and no cache change |
| ApiProxy.UpstreamFailureIs502 | workers/api-proxy.js:66-80 | an upstream reply that is not ok becomes 502 carrying the status and body text, and nothing is cached |
| ApiProxy.UpstreamSuccessIs200 | workers/api-proxy.js:82-95 | an ok reply is answered 200 with its payload, a `null` payload included when `skipCache` is on; it is stored, stamped now, exactly when caching is on, the payload has no truthy `errors` member and the write succeeds |
| ApiProxy.NullDataWithCacheIs500 | workers/api-proxy.js:82-88 | with caching on, an ok reply whose payload is `null` fails reading `data.errors`: 500 with the TypeError message, and the cache is unchanged |
| ApiProxy.HandlePreservesCleanCache | workers/api-proxy.js:86-90 | the cache never comes to hold a payload with GraphQL errors |
| ApiProxy.InternalErrorsHaveMessage | workers/api-proxy.js:96-104 | every 500 answer carries a non-empty error message |
| ApiProxy.ForwardErrorsHaveMessage | workers/api-proxy.js:53-104 | every 500 the forwarding part gives carries a non-empty error message |
| ApiProxy.NullBodyIs500 | workers/api-proxy.js:33-37 | a JSON `null` body is a TypeError: 500, with no upstream call |
| ApiProxy.MissingQueryIs500 | workers/api-proxy.js:129-133 | with caching on, a body without `query` is a TypeError: 500, with no upstream call |
| ApiProxy.WriteFailureSwallowed | workers/api-proxy.js:150-162 | a failing cache write never changes the answer |
| ApiProxy.ReadFailureActsAsMiss | workers/api-proxy.js:136-147 | a failing cache read answers exactly as a miss does |
| ApiProxy.StoredPayloadServedWithinTtl | workers/api-proxy.js:150-159 | round trip: a stored clean payload answers the same request within the TTL without going upstream |
| ApiProxy.StoredPayloadExpires | workers/api-proxy.js:150-159 | once the TTL has passed, the same request goes upstream again |
| ApiProxy.ErrorsPayloadNotStored | workers/api-proxy.js:87-90 | a payload with a truthy `errors` member leaves the cache unchanged |
| ApiProxy.EdgeProxy.constructor | workers/api-proxy.js:12 | the Worker starts with an empty cache |
| ApiProxy.EdgeProxy.GetCachedResponse | workers/api-proxy.js:136-147 | the read returns the lookup result, or a miss when the store fails |
| ApiProxy.EdgeProxy.CacheResponse | workers/api-proxy.js:150-162 | the write stores the payload stamped with the current time, or leaves the cache unchanged when the store fails |
| ApiProxy.Forward | workers/api-proxy.js:53-95 | the forwarded body is the request's `query` and `variables`; the answer is 200, 500 or 502, 200 exactly for an ok JSON reply whose payload is not `null` or is read with the cache off; the cache is unchanged or gains exactly the payload under the probed key |
| ApiProxy.Handle | workers/api-proxy.js:14-105 | the status is one of 200, 204, 400, 500, 502; a request goes upstream only when it is not OPTIONS and its body is JSON, the cache is probed exactly when `skipCache` is not `true`, and the cache changes only by storing the upstream payload under that key |
| ApiProxy.EdgeProxy.HandleRequest | workers/api-proxy.js:14-105 | the response, the forwarded body and the new cache are those of the request-handling function |
| ProductHuntApi.RecordToJson | src/services/productHuntApi.js:150-160 | the stored record is an object holding the logo, media list, url and name |
| ProductHuntApi.ResolveSlug | src/services/productHuntApi.js:91-94 | a missing, empty or blank slug becomes `demodazzle`; any other slug is used as given |
| ProductHuntApi.RequestBody | src/services/productHuntApi.js:116-120 | the posted body carries the shape's query, `variables.slug` and `skipCache` |
| ProductHuntApi.WalkPath | src/services/productHuntApi.js:134-143 | a data-path walk that ends in a value ends in a truthy one |
| ProductHuntApi.MediaUrls | src/services/productHuntApi.js:156 | media mapping fails (TypeError) exactly when an item is null; otherwise it keeps only truthy urls, and never more than there were items |
| ProductHuntApi.MediaUrlsAppend | src/services/productHuntApi.js:156 | media mapping works item by item over a concatenation |
| ProductHuntApi.Normalise | src/services/productHuntApi.js:150-160 | the record takes name, id, tagline and description as found, the logo as `thumbnail.url` when that is truthy and `''` otherwise, the counts with fallback 0 and the url with fallback `website` then `''`; it fails exactly when the media mapping does |
| ProductHuntApi.MethodResult | src/services/productHuntApi.js:127-164 | a request yields a record only for an answered reply with a non-null payload, no truthy `errors` and a truthy value at the end of the data path |
| ProductHuntApi.Attempt | src/services/productHuntApi.js:105-164 | request `n` yields a record only when its reply is answered and the data path of shape `n mod 3` ends in a truthy value |
| ProductHuntApi.AttemptInRound | src/services/productHuntApi.js:105-112 | the `i`th request of a round uses the `i`th query shape |
| ProductHuntApi.FirstSuccess | src/services/productHuntApi.js:112-165 | the index of the first request that yields a record: every request before it fails |
| ProductHuntApi.Requests | src/services/productHuntApi.js:105-120 | request `j` uses query shape `j mod 3` with the same slug and `skipCache` |
| ProductHuntApi.Waits | src/services/productHuntApi.js:170-177 | the wait after the `j`th failed round is 2^j seconds |
| ProductHuntApi.FetchSucceedsAt | src/services/productHuntApi.js:145-160 | when request `n` is the first to yield a record, the fetch resolves with it after exactly `n + 1` requests |
| ProductHuntApi.FetchFailsIffAllFail | src/services/productHuntApi.js:167-182 | the fetch rejects exactly when all nine requests fail, and then with the fixed message after nine requests and two waits |
| ProductHuntApi.FetchStopsAtFirstRecord | src/services/productHuntApi.js:145-161 | a successful fetch stops at the first request that yields a record |
| ProductHuntApi.FetchRequestsAndWaits | src/services/productHuntApi.js:96-182 | at most nine requests go out, the `j`th with shape `j mod 3`, and one wait follows each failed round except the last |
| ProductHuntApi.Fetch | src/services/productHuntApi.js:88-203 | between one and nine requests go out with at most two waits; a rejection carries the fixed message after all nine, and a success is the record of the last request sent |
| ProductHuntApi.FetchSucceedsInRound | src/services/productHuntApi.js:145-177 | a record found in round `r` ends the fetch after the requests up to it and the waits of the `r` earlier rounds |
| ProductHuntApi.FetchFailsAfterAllRounds | src/services/productHuntApi.js:166-182 | with no record in nine requests the fetch rejects with the fixed message after all nine and both waits |
| ProductHuntApi.PostQueryFirstTry | src/services/productHuntApi.js:106-160 | a `data.post` answer to the first request resolves at once, with its thumbnail as logo and no media |
| ProductHuntApi.ErrorsAndEmptyEdgesSkipped | src/services/productHuntApi.js:128-143 | a GraphQL `errors` answer and an empty `edges` list both move on to the next shape |
| ProductHuntApi.TryMethod | src/services/productHuntApi.js:112-164 | one shape against its reply gives the result the specification function gives |
| ProductHuntApi.Send | src/services/productHuntApi.js:112-160 | request `3r + i` adds the i-th shape's body to those sent and gives that request's result |
| ProductHuntApi.TryRound | src/services/productHuntApi.js:112-168 | one round stops at the first shape that yields a record and sends exactly the requests the specification lists |
| ProductHuntApi.Wait | src/services/productHuntApi.js:170-173 | the waits after `retries` failed rounds are the specified prefix, the last one 2^retries seconds |
| ProductHuntApi.FetchProductData | src/services/productHuntApi.js:88-203 | the loop's result, requests and waits equal those of the specification function |
| Slug.DropTrailingSlash | src/pages/HomePage.jsx:69-71 | at most one trailing slash is removed |
| Slug.PathSegments | src/pages/HomePage.jsx:49-54 | the segments are non-empty and hold no slash |
| Slug.ProductHuntSlug | src/pages/HomePage.jsx:47-60 | a slug is taken exactly when the host contains `producthunt.com` and the path has two or more segments, the first `posts` or `products`; it is non-empty and has no slash |
| Slug.LastPiece | src/pages/HomePage.jsx:67-75 | the piece after the last slash holds no slash |
| Slug.ExtractSlug | src/pages/HomePage.jsx:33-80 | the slug never holds a slash; a trimmed input with neither a slash nor a dot is returned as it is |
| Slug.LastPieceAfterLastSlash | src/pages/HomePage.jsx:67-75 | the last piece is exactly the text after the last slash |
| Slug.PathSegmentsTrailingSlash | src/pages/HomePage.jsx:49-54 | one trailing slash on the path does not change the segments |
| Slug.ProductHuntUrlGivesName | src/pages/HomePage.jsx:44-60 | a Product Hunt `/posts/<name>` or `/products/<name>` URL, with or without a trailing slash, gives `<name>` |
| Slug.OtherPathGivesLastPiece | src/pages/HomePage.jsx:62-75 | any other input with a slash gives the text after its last slash |
| Slug.FallbackExample | src/pages/HomePage.jsx:67-75 | `random/path/fragment` gives `fragment` |
| Slug.DoubleSlashExample | src/pages/HomePage.jsx:67-75 | `a/b//` gives the empty slug, since only one trailing slash is removed |
| Slug.DottedNameKept | src/pages/HomePage.jsx:78-79 | an input with a dot and no slash that does not parse as a URL is kept as it is |
| HomePage.FetchFailedMessage | src/pages/HomePage.jsx:106-108 | the failure message ends with the rejection's message |
| HomePage.Page.constructor | src/pages/HomePage.jsx:12-14 | the page starts with an empty input, not loading and without an error |
| HomePage.Page.HandleInputChange | src/pages/HomePage.jsx:29-31 | the input holds the typed value and nothing else changes |
| HomePage.Page.HandleFetchProduct | src/pages/HomePage.jsx:82-111 | an empty input sets the localised error and fetches nothing; otherwise the fetch of the extracted slug with the cache skipped runs and its outcome is stored |
| HomePage.Page.FetchAndStore | src/pages/HomePage.jsx:88-110 | the fetch of the slug with the cache skipped runs and its outcome is stored; the input is kept |
| HomePage.Page.Store | src/pages/HomePage.jsx:96-110 | on success the record is serialised under `productData` and the editor is opened; on failure the error shows and loading stops |
| HomePage.BlankInputFetchesDefault | src/pages/HomePage.jsx:83-96 | an input of only white space passes the empty-input guard and fetches the default product |
| CardCreator.SettingsWith | src/pages/CardCreator.jsx:191-196 | one member is set to the value and every other member is kept |
| CardCreator.Fields | src/pages/CardCreator.jsx:201-204 | spreading an object gives its members; spreading anything else gives none |
| CardCreator.TextSettingsWith | src/pages/CardCreator.jsx:198-206 | one text setting is set, the other text settings and every other card setting are kept |
| CardCreator.SettingsUpdatesCommute | src/pages/CardCreator.jsx:191-196 | updates of two different members can be made in either order |
| CardCreator.TextSettingsKeepsOthers | src/pages/CardCreator.jsx:198-206 | a text-setting update keeps every other text setting of an object |
| CardCreator.EncoderFor | src/pages/CardCreator.jsx:232-272 | `jpeg`/`jpg` select JPEG, `webp` the canvas path, and every other format PNG |
| CardCreator.DownloadName | src/pages/CardCreator.jsx:275 | the file name is the prefix, the product name or `card`, a dot and the extension |
| CardCreator.DownloadNameUsesProductName | src/pages/CardCreator.jsx:275 | a non-empty product name appears in the file name |
| CardCreator.ExportBackground | src/pages/CardCreator.jsx:229 | the export background is the card colour for a solid background and null otherwise |
| CardCreator.ExportPlan | src/pages/CardCreator.jsx:219-280 | the download uses the encoder, file name, background and pixel ratio chosen by the settings |
| CardCreator.InitialExport | src/pages/CardCreator.jsx:31-63 | with the initial settings the card is exported as PNG at twice the size, on the initial background |
| CardCreator.UnknownFormatKeepsExtension | src/pages/CardCreator.jsx:232-275 | an unknown format is encoded as PNG but named with its own extension |
| CardCreator.Editor.constructor | src/pages/CardCreator.jsx:25-63 | the editor starts with no product, the initial card and export settings and no downloads |
| CardCreator.Editor.HandleSettingsChange | src/pages/CardCreator.jsx:191-196 | the card settings become the one-member update, and nothing else changes |
| CardCreator.Editor.HandleTextSettingsChange | src/pages/CardCreator.jsx:198-206 | the card settings become the text-setting update, and nothing else changes |
| CardCreator.Editor.HandleExportSettingChange | src/pages/CardCreator.jsx:212-217 | the export settings become the one-member update, and nothing else changes |
| CardCreator.Editor.HandleProductDataChange | src/pages/CardCreator.jsx:208-210 | the product record is replaced, and nothing else changes |
| CardCreator.Editor.LoadStoredProduct | src/pages/CardCreator.jsx:80-91 | a stored record that parses becomes the product; otherwise the product is kept |
| CardCreator.Editor.HandleFetchProduct | src/pages/CardCreator.jsx:164-189 | an empty input sets the localised error; otherwise the fetch runs and its outcome is shown |
| CardCreator.Editor.FetchAndShow | src/pages/CardCreator.jsx:170-188 | the fetch of the slug with the cache skipped runs and its outcome is shown; the input, settings and downloads are kept |
| CardCreator.Editor.Show | src/pages/CardCreator.jsx:178-188 | the fetched record is shown, or the localised failure message with the product kept; loading stops |
| CardCreator.Editor.HandleExport | src/pages/CardCreator.jsx:219-284 | without a mounted card, or when rendering fails, nothing is downloaded; otherwise the download of the current settings is appended |
| CardCreator.StoredProductReachesEditor | src/pages/CardCreator.jsx:80-91 | the record the home page stores is the record the editor shows, when parsing undoes serialising |
| CardControls.Lookup | src/components/CardControls.jsx:406 | the value found for a key is one listed for it; nothing is found only when the key is not listed |
| CardControls.Applied | src/components/CardControls.jsx:406-408 | applying entries in order adds exactly the listed keys |
| CardControls.AppliedValues | src/components/CardControls.jsx:406-408 | with distinct keys, every listed key ends with its listed value and every other member is kept |
| CardControls.AppliedListed | src/components/CardControls.jsx:406-408 | with distinct keys, every listed key ends with its listed value |
| CardControls.AppliedKeeps | src/components/CardControls.jsx:406-408 | every member not listed keeps its value |
| CardControls.Zip | src/components/CardControls.jsx:406 | keys paired with values position by position |
| CardControls.AppliedZip | src/components/CardControls.jsx:406-408 | writing distinct keys in order sets each to its value and keeps the other members |
| CardControls.HandleChange | src/components/CardControls.jsx:400-402 | the change is forwarded to the editor as it is |
| CardControls.TextKeysExclude | src/components/CardControls.jsx:44-393 | templates never set letter spacing or the custom colours |
| CardControls.TextObject | src/components/CardControls.jsx:44-393 | a template's text settings are an object |
| CardControls.TextObjectFields | src/components/CardControls.jsx:44-393 | a template's text settings hold exactly the eight text keys, each with the template's value |
| CardControls.TextObjectFacts | src/components/CardControls.jsx:44-393 | a template's text settings hold its boldness and slant, and no letter spacing or custom colour |
| CardControls.Entries | src/components/CardControls.jsx:406 | `Object.entries` lists the thirteen template settings in order |
| CardControls.ApplyEntries | src/components/CardControls.jsx:406-408 | the loop leaves the settings the in-order application gives, and nothing else changes |
| CardControls.ApplyTemplate | src/components/CardControls.jsx:404-409 | applying a template leaves the settings with every template entry applied, and nothing else changes |
| CardControls.LookupAt | src/components/CardControls.jsx:406 | with distinct keys, the value found for a listed key is the one listed |
| CardControls.AppliedTemplate | src/components/CardControls.jsx:404-409 | a template sets each of its thirteen keys to its value and keeps every other member |
| CardControls.TemplatesAreWellFormed | src/components/CardControls.jsx:44-393 | every template shows the logo and watermark and uses a frame the picker offers |
| CardControls.PresetsOfferPickerValues | src/components/CardControls.jsx:411-443 | every template uses a background, frame, shadow and ratio the pickers offer |
| CardControls.PresetsShowAll | src/components/CardControls.jsx:44-393 | every template shows every element, in bold upright text |
| CardControls.ApplyingWellFormed | src/components/CardControls.jsx:404-409 | applying a well-formed template gives an offered frame, shows logo and watermark, and replaces the text settings |
| CardControls.AppliedKeyAt | src/components/CardControls.jsx:404-409 | after a template, its `i`th key holds its `i`th value |
| CardControls.ApplyingPresetReplacesTextSettings | src/components/CardControls.jsx:404-409 | applying any template replaces the text settings wholesale, which drops letter spacing and custom colours |
| CardControls.ContrastColor | src/components/CardControls.jsx:734-748 | the letter colour is black or white; black for a missing colour or one shorter than seven characters |
| CardControls.ContrastIgnoresSuffix | src/components/CardControls.jsx:739-741 | characters after the seventh are ignored |
| CardControls.NaNChannelGivesWhite | src/components/CardControls.jsx:739-747 | a channel that does not parse (NaN) makes the letter white |
| CardControls.HexColorContrast | src/components/CardControls.jsx:744-747 | a `#rrggbb` colour gets black exactly when its weighted brightness is above 128 |
| CardControls.ColorPresetsGetBlack | src/components/CardControls.jsx:8-21 | every background colour preset gets black letters |
| TextStyleControls.TextUpdate | src/components/TextStyleControls.jsx:48-50 | a text update writes one member of the text settings and keeps every other card setting |
| TextStyleControls.Toggled | src/components/TextStyleControls.jsx:52-54 | the toggled member becomes the negation of its truthiness, and everything else is kept |
| TextStyleControls.ToggleTwiceRestores | src/components/TextStyleControls.jsx:52-54 | toggling a boolean member twice restores the settings |
| TextStyleControls.CustomChosen | src/components/TextStyleControls.jsx:57-67 | a custom colour sets the custom member and clears the line's preset |
| TextStyleControls.PresetChosen | src/components/TextStyleControls.jsx:303-306 | a preset click sets the preset member and clears the line's custom colour |
| TextStyleControls.ColourChoicesExclusive | src/components/TextStyleControls.jsx:57-67 | after either colour action at most one of the line's two colours is set, and nothing else in the text settings changes |
| TextStyleControls.ColourChoiceKeepsOtherLine | src/components/TextStyleControls.jsx:57-67 | a colour action on one line keeps the other line's exclusivity |
| TextStyleControls.SliderValue | src/components/TextStyleControls.jsx:274 | the slider shows the stored spacing when truthy and 2 otherwise, as written |
| TextStyleControls.SliderValueNullish | src/components/TextStyleControls.jsx:274 | the corrected slider shows every stored spacing, 0 included, and shows 2 when the spacing is missing or `null` |
| TextStyleControls.Panel.constructor | src/components/TextStyleControls.jsx:42-45 | the pickers start closed with custom colours `#000000` and `#666666` |
| TextStyleControls.Panel.DisplayedCustomColour | src/components/TextStyleControls.jsx:323 | the swatch shows the stored custom colour when truthy, and the panel's last pick otherwise |
| TextStyleControls.Panel.SwatchLetterColour | src/components/TextStyleControls.jsx:326 | the swatch letter is black or white, black for a short colour |
| TextStyleControls.Panel.HandleChange | src/components/TextStyleControls.jsx:48-50 | the change goes to the editor's text settings, and nothing else changes |
| TextStyleControls.Panel.ToggleSetting | src/components/TextStyleControls.jsx:52-54 | the editor's settings become the toggled ones |
| TextStyleControls.Panel.SetLetterSpacing | src/components/TextStyleControls.jsx:275 | the slider position is stored as the letter spacing |
| TextStyleControls.Panel.ChooseCustomColour | src/components/TextStyleControls.jsx:57-67 | the panel remembers the pick, the settings take it and clear the preset, and the swatch then shows it |
| TextStyleControls.Panel.ChoosePresetColour | src/components/TextStyleControls.jsx:303-306 | the settings take the preset and clear the custom colour; the swatch falls back to the panel's last pick |
| TextStyleControls.Panel.TogglePicker | src/components/TextStyleControls.jsx:324 | the line's picker flips, and the other stays as it was |
| TextStyleControls.Panel.ClosePicker | src/components/TextStyleControls.jsx:347 | the line's picker closes, and the other stays as it was |
| ProductCard.BgClass | src/components/ProductCard.jsx:24-39 | dotted and striped backgrounds get their pattern classes |
| ProductCard.InlineBackground | src/components/ProductCard.jsx:181 | the inline background colour is set exactly for a solid background |
| ProductCard.BackgroundCases | src/components/ProductCard.jsx:24-39 | a solid colour is applied as a class and inline; a solid background without a colour or a gradient without a value gets the default class |
| ProductCard.ShadowClass | src/components/ProductCard.jsx:42-50 | a shadow class is given exactly for the sizes `sm`, `md`, `lg`, `inner`, and it is `shadow-` followed by the size |
| ProductCard.ShadowClassNames | src/components/ProductCard.jsx:42-50 | the four shadow sizes map to `shadow-<size>`, and every other value to no class |
| ProductCard.AspectClass | src/components/ProductCard.jsx:52-61 | any class other than the default `aspect-video` comes from one of the offered ratio strings |
| ProductCard.CardWidth | src/components/ProductCard.jsx:103-111 | the width is 400, 500, 700 or 800 pixels, and below 700 exactly for the square and the two portrait ratios |
| ProductCard.OfferedRatioLayouts | src/components/ProductCard.jsx:53-111 | the offered ratios get distinct aspect classes and the listed widths; any other ratio falls back to the default |
| ProductCard.FrameOverlay | src/components/ProductCard.jsx:65-100 | the window chrome appears exactly for `window`; no overlay for a value the switch does not list |
| ProductCard.Present | src/components/ProductCard.jsx:114-132 | a class is pushed exactly for a truthy member |
| ProductCard.TitleSize | src/components/ProductCard.jsx:117-118 | the title size is the setting when set, `text-2xl` otherwise |
| ProductCard.TitleClassList | src/components/ProductCard.jsx:114-132 | the title classes start with the base and the size |
| ProductCard.TitleClasses | src/components/ProductCard.jsx:114-132 | the pushed classes joined by spaces |
| ProductCard.ControlValuesAreNotWeights | src/components/ProductCard.jsx:114-132 | no value a text control offers is a weight class |
| ProductCard.PresentOffered | src/components/ProductCard.jsx:114-132 | a pushed class for an offered value is an offered value |
| ProductCard.TitleWeightExactlyOne | src/components/ProductCard.jsx:114-132 | with values from the controls the title carries `font-bold` exactly when bold and `font-semibold` exactly when not |
| ProductCard.TitleLeadNoWeight | src/components/ProductCard.jsx:115-122 | with offered values nothing before the weight is a weight class |
| ProductCard.TitleTailNoWeight | src/components/ProductCard.jsx:127-129 | with offered values nothing after the weight is a weight class |
| ProductCard.TaglineClassList | src/components/ProductCard.jsx:134-148 | the tagline classes are base, size or `text-base`, colour or the default, then `italic` and the alignment when set |
| ProductCard.TaglineClasses | src/components/ProductCard.jsx:134-148 | the pushed classes joined by spaces |
| ProductCard.LetterSpacingClass | src/components/ProductCard.jsx:175-177 | undefined spacing is `tracking-normal`; the positions 0 to 4 select the five tracking classes |
| ProductCard.ColourStyle | src/components/ProductCard.jsx:159-171 | an inline colour style exists exactly for a truthy custom colour, and it is that colour |
| ProductCard.FlagDefaultTrue | src/components/ProductCard.jsx:7-21 | an undefined display flag is on; a defined one is its truthiness |
| ProductCard.FirstMedia | src/components/ProductCard.jsx:229-238 | the media shown is the first item of a non-empty list |
| ProductCard.Gated | src/components/ProductCard.jsx:189-204 | the logo and the tagline each show exactly when their flag and the product's member are truthy, and then show that member |
| ProductCard.StatsRow | src/components/ProductCard.jsx:210-225 | the stats row shows when votes or comments are on, each count as given or `0` |
| ProductCard.RenderCard | src/components/ProductCard.jsx:4-248 | a falsy product renders nothing; otherwise the card's shadow, aspect, width, inline background, background class, frame, title and tagline classes and colours, logo, tagline and the other parts are each the value the settings select |
| ProductCard.MissingCountsShowZero | src/components/ProductCard.jsx:210-225 | a product without counts shows `0` for both |
| ProductCard.CustomColourWins | src/components/ProductCard.jsx:159-171 | after a custom pick the title is drawn in that colour; after a preset click no inline colour is set |
| ProductCard.SliderZeroDisagrees | src/components/ProductCard.jsx:175-177 | a stored spacing of 0 is drawn tight while the slider shows position 2 |
| ProductCard.SliderNullishAgrees | src/components/ProductCard.jsx:175-177 | read with `??`, the slider shows the position the card draws |
| ContentControls.Spread | src/components/ContentControls.jsx:7 | spreading the record gives its members, and none for a record that is not an object |
| ContentControls.MediaValue | src/components/ContentControls.jsx:209-213 | the media input stores a one-item list, or the empty list for empty text |
| ContentControls.First | src/components/ContentControls.jsx:209 | `v[0]` of a list is its first item, undefined for the empty list |
| ContentControls.ShownMedia | src/components/ContentControls.jsx:209 | without media the input shows the empty text |
| ContentControls.MediaInputShown | src/components/ContentControls.jsx:209-213 | typing into the media input shows exactly what was typed |
| ContentControls.CountValue | src/components/ContentControls.jsx:246 | a count input stores the parsed number, or 0 for NaN |
| ContentControls.ShownCount | src/components/ContentControls.jsx:244 | a falsy count shows as 0 |
| ContentControls.StoredCountShown | src/components/ContentControls.jsx:244-246 | a stored count shows as itself, zero included |
| ContentControls.CountInputRoundTrip | src/components/ContentControls.jsx:244-246 | typing the numeral of a count stores that count and shows it back |
| ContentControls.Panel.constructor | src/components/ContentControls.jsx:7-9 | the buffer starts as a copy of the record, and the panel is idle |
| ContentControls.Panel.StartEdit | src/components/ContentControls.jsx:13-16 | the buffer is reset to the record and editing starts |
| ContentControls.Panel.InputChange | src/components/ContentControls.jsx:31-36 | only that member of the buffer changes, and the record is untouched |
| ContentControls.Panel.MediaInput | src/components/ContentControls.jsx:209-213 | the buffer's media becomes the input's list, and the input then shows what was typed |
| ContentControls.Panel.CountInput | src/components/ContentControls.jsx:244-260 | the buffer's count becomes the coerced value, and the input shows it |
| ContentControls.Panel.SaveEdit | src/components/ContentControls.jsx:19-22 | the buffer is handed to the editor once and becomes its record; editing stops; the editor's settings, downloads, url, loading flag, error and export panel are kept |
| ContentControls.Panel.CancelEdit | src/components/ContentControls.jsx:25-28 | the buffer is reset to the record, editing stops, and the editor is not called |
| I18n.BrowserLanguage | src/i18n/index.js:22 | `navigator.language` when non-empty, else `userLanguage` |
| I18n.FromBrowser | src/i18n/index.js:23 | the detected language is shipped, and it is Chinese exactly for a browser language starting with `zh` |
| I18n.DetectUserLanguage | src/i18n/index.js:18-24 | a non-empty saved language wins unchecked; otherwise the browser decides, giving `zh` exactly when its language starts with `zh` and `en` otherwise; it fails exactly when neither gives a language |
| I18n.DetectSupportedLanguage | src/i18n/index.js:18-24 | the corrected detection only ever gives a shipped language, and keeps a saved shipped one |
| I18n.DetectionsAgreeOnSupported | src/i18n/index.js:18-24 | the two detections differ only on a saved language that is not shipped |
| Browser.Location.constructor | src/contexts/LanguageContext.jsx:27 | the address starts at its pathname with no replacements |
| Browser.Location.Replace | src/contexts/LanguageContext.jsx:33 | the current entry is replaced: the pathname changes and the replacement is logged |
| LanguageContext.StripLang | src/contexts/LanguageContext.jsx:28 | one leading `/zh` or `/en` is removed, textually |
| LanguageContext.LangPath | src/contexts/LanguageContext.jsx:28-29 | the new path starts with `/` and the language, followed by the stripped path |
| LanguageContext.LangPathOverrides | src/contexts/LanguageContext.jsx:28-29 | moving a path under one language and then another is moving it under the last |
| LanguageContext.StripIsTextual | src/contexts/LanguageContext.jsx:28 | the prefix is removed as text, so `/zhx` loses `/zh` |
| LanguageContext.Toggle | src/contexts/LanguageContext.jsx:12 | toggling always changes the language, to Chinese or English |
| LanguageContext.ToggleTwice | src/contexts/LanguageContext.jsx:12 | toggling twice returns to a shipped language |
| LanguageContext.InitialLanguage | src/contexts/LanguageContext.jsx:8 | the provider starts with i18next's language, or Chinese without one |
| LanguageContext.ReadmeFileName | src/contexts/LanguageContext.jsx:39-41 | the Chinese readme exactly for Chinese |
| LanguageContext.Provider.constructor | src/contexts/LanguageContext.jsx:8 | the provider's and i18next's language both start as the initial language |
| LanguageContext.Provider.SetLanguage | src/contexts/LanguageContext.jsx:17-36 | the current language changes nothing; another sets the state, i18next, storage and the document, and moves a prefixed address; other storage keys are kept |
| LanguageContext.Provider.ToggleLanguage | src/contexts/LanguageContext.jsx:11-14 | toggling sets the other language everywhere `setLanguage` does, and keeps every storage key other than `language` |
| LanguageContext.SwitchBackRestoresPath | src/contexts/LanguageContext.jsx:27-34 | switching a prefixed address to another language and back restores it |
| Header.PathWithLang | src/components/Header.jsx:38-40 | a link sits under the current prefix; the root becomes the bare prefix |
| Header.ChangeLanguage | src/components/Header.jsx:15-35 | the current language changes nothing, neither the language records nor storage nor the address; another becomes the current, i18n and document language and the saved `language`, other storage keys are kept, and the address moves under its prefix, replaced once or, when already prefixed, twice |
| Header.Rewrites | src/components/Header.jsx:18-28 | the replacements written: none when in place, two when the address was prefixed, one otherwise |
| App.RouteIn | src/App.jsx:73-101 | a page other than not-found comes from an entry with that path |
| App.RouteInFound | src/App.jsx:73-101 | the first entry with the path decides the page |
| App.RouteInAbsent | src/App.jsx:100 | a path with no entry is not found |
| App.RoutesDistinct | src/App.jsx:75-98 | no path is listed twice |
| App.RouteOfEntry | src/App.jsx:75-98 | every listed path shows its own page |
| App.PrefixedEntry | src/App.jsx:78-98 | the Chinese and English blocks list the same pages as the unprefixed block |
| App.PrefixedRoutesAgree | src/App.jsx:78-98 | every named page is the same under either prefix and without one |
| App.PrefixedHome | src/App.jsx:75-86 | the bare prefixes show the home page, as the root does |
| App.PrefixNeedsSegment | src/App.jsx:78-100 | `/zhfoo` is no page |
| App.LangsExclusive | src/App.jsx:50-57 | no address lies under both prefixes |
| App.RouteEffect | src/App.jsx:46-66 | a prefixed address selects its language or stays; any other address is redirected under the current language |
| App.SelectKeepsAddress | src/App.jsx:50-57 | selecting the language of a prefixed address leaves it in place |
| App.NoSecondRedirect | src/App.jsx:58-64 | with a shipped language current, a redirect lands on an address that stays |
| App.UnsupportedLanguageRedirectsAgain | src/App.jsx:58-64 | with an unshipped language current, every redirect target is redirected again to a longer address |
| App.NotUnderLang | src/App.jsx:50-57 | an address under an unshipped language's text is not under a shipped prefix |
| App.HeaderLinksStay | src/App.jsx:46-66 | the header's links are never redirected while a shipped language is current |
| App.SavedUnsupportedLanguageLoops | src/i18n/index.js:19-20 | a saved language that is not shipped becomes current; `/` is redirected under it, and that address is redirected again under it |
| App.DetectedLanguageRedirectsOnce | src/App.jsx:58-64 | with the corrected detection an address is redirected at most once |
| App.RunRouteEffect | src/App.jsx:46-66 | the effect does what the effect function says: selecting sets the current, i18n and document language and the saved `language` (other storage keys kept) without moving the address; redirecting replaces the address only; staying changes nothing |
| JsValue.FalsyValues | src/components/ProductCard.jsx:189-204 | the falsy JSON values are exactly `null`, `false`, 0 and the empty string |
| JsValue.Member | src/components/ProductCard.jsx:189 | a member read finds a value exactly for an own member of an object, and then the stored one |
| JsValue.OptMember | src/services/productHuntApi.js:155-156 | optional chaining gives `undefined` on `null` or `undefined`, and the plain member read otherwise |
| JsValue.Or | src/services/productHuntApi.js:159 | `a \|\| b` is `a` when `a` is truthy and `b` otherwise, and is truthy exactly when either is |
| JsValue.Text | src/pages/CardCreator.jsx:275 | ToString gives a string as itself and a natural number as its decimal numeral |
| JsText.TrimStart | src/services/productHuntApi.js:92 | the result is a suffix, everything dropped is white space, and it does not start with white space |
| JsText.TrimEnd | src/services/productHuntApi.js:92 | the result is a prefix, everything dropped is white space, and it does not end with white space |
| JsText.Trim | src/pages/HomePage.jsx:34 | the trimmed text is no longer and neither starts nor ends with white space |
| JsText.TrimIdempotent | src/pages/HomePage.jsx:34 | trimming twice is trimming once |
| JsText.StripSpaces | workers/api-proxy.js:132 | the result is no longer and holds only non-space characters of the input |
| JsText.StripSpacesIgnoresSpace | workers/api-proxy.js:132 | inserting one white-space character anywhere does not change the stripped text |
| JsText.Split | src/pages/HomePage.jsx:72 | a split always yields at least one piece |
| JsText.SplitPiecesFree | src/pages/HomePage.jsx:72 | no piece of a split contains the separator |
| JsText.JoinSplit | src/pages/HomePage.jsx:72 | joining the pieces of a split with the same separator gives the text back |
| JsText.SplitJoin | src/components/ProductCard.jsx:131 | splitting a join of separator-free pieces gives the pieces back |
| JsText.NonEmptyParts | src/pages/HomePage.jsx:54 | the filter keeps only non-empty pieces, each taken from the input |
| JsText.NonEmptyPartsTrailingSep | src/pages/HomePage.jsx:49-54 | a trailing `/` does not change the non-empty path segments |
| JsText.ContainsChar | src/pages/HomePage.jsx:37 | `includes` of a one-character string is membership of that character |
| JsText.ParseInt | src/components/ContentControls.jsx:246 | a radix other than 0 outside 2..36, or a blank string, gives NaN; a negative result comes from a leading `-` |
| JsText.ParseIntNatToString | src/components/ContentControls.jsx:246 | `parseInt` in radix 10 reads back the numeral of every natural number |
| JsText.HexPairValue | src/components/CardControls.jsx:739-741 | two hexadecimal digits parse in radix 16 to the byte value they spell, in 0..255 |
| JsText.NoDigitIsNaN | src/components/ContentControls.jsx:246 | a string whose first character is no digit of the radix parses to NaN |
| JsText.NatToStringValue | workers/api-proxy.js:68-75 | the decimal numeral of a number reads back as that number |

## Left out

- Logging, markup, icons, labels and translated text are left out; only the state and the values that reach the card are modelled.
- The network, timers and the clock are parameters: upstream answers are a function of the request index, the waits are a list of delays, and the Worker's time is an input.
- `JSON.stringify`, `JSON.parse` and `new URL` are parameters, and nothing is assumed about their output beyond what each lemma states.
- The axios 10-second timeout and the wrapping of axios errors into `网络请求失败` (productHuntApi.js:186-201) are left out: a failed request is a reply that yields no record.
- The export `quality` is a float and is left out; the encoders themselves (html-to-image, the WebP canvas) are only named.
- The example loaders of CardCreator and of the home page (`loadExampleProduct`, HomePage.jsx:113-131) and the presentation tabs (`activeTab`, `activeSection`) are left out, since they only choose what is displayed.
- `getLetterSpacingStyle` (ProductCard.jsx:151-156) is never called and is left out.
- The second `getContrastColor` (TextStyleControls.jsx:428-442) is the same code as the one in CardControls.jsx and is modelled once, as `CardControls.ContrastColor`.
- The gradient presets and the colour picker widget are left out; a picked colour is any string.
- The LanguageContext storage/address effect (LanguageContext.jsx:44-63), run on mount and after each language change, is left out, because it only re-reads storage and the address and calls `setLanguage`, and after `setLanguage` both are already in step.
- The `languageChanged` event and the forced rerender (Header.jsx:31-33, App.jsx:24-43, i18n/index.js:47-52) are left out, since they change no modelled state.
- React Router's location and `window.location` are the same `Browser.Location`; `navigate(…, {replace: true})` and `history.replaceState` are both `Replace`.
- Route matching is exact: React Router's case-insensitive matching and its tolerance of a trailing slash are left out.
- ContentControls.Spread: spreading a string or an array (which gives indexed members) is modelled as giving no members.
- ContentControls.ShownMedia: states only the empty case and the round trip through the media input, not what an arbitrary stored value shows.
- CardCreator.Fields: a text-settings value that is not an object is read as having no members, which a string would not be.
- ProductCard.BgClass: states only the pattern classes; the solid and gradient cases are stated by `ProductCard.BackgroundCases`.
- Numbers are integers: letter spacing, counts and statuses never hold fractions in the model.
- The Worker cache is a map keyed by the key string itself, while the Cache API stores under the URL `https://example.com/<key>` (api-proxy.js:137,158): URL parsing (percent-encoding, and dropping everything from a `#`) can make two different keys share one entry, for example `a b` and `a%20b`, and that sharing is not modelled.
- Strings are sequences of Unicode scalar values, while JavaScript strings are sequences of UTF-16 code units: `length`, indexing and `slice` (the colour digits read by `getContrastColor`) differ from the model for text outside the Basic Multilingual Plane.

## Findings

| source | as written | input that shows it | evidently intended | confidence | as-written member | corrected member |
|---|---|---|---|---|---|---|
| src/components/TextStyleControls.jsx:274 | the slider reads `letterSpacing \|\| 2`, so a stored 0 shows as position 2, while ProductCard.jsx:175-177 draws 0 as the tightest tracking | move the slider to its leftmost position (0) | `letterSpacing ?? 2`, so the slider shows what the card draws | not executed | ProductCard.SliderZeroDisagrees | ProductCard.SliderNullishAgrees |
| src/i18n/index.js:19-20 | any non-empty saved language is used unchecked, and App.jsx:58-64 then prefixes every address with it | `localStorage.language = "fr"` and the address `/`: redirected to `/fr`, then `/fr/fr`, and so on | accept a saved language only when it is `zh` or `en`, else detect from the browser | not executed | App.SavedUnsupportedLanguageLoops | I18n.DetectSupportedLanguage |
