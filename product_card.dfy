/**
 * The card preview: the product record drawn with the card settings.  What is
 * modelled is what the settings decide — the Tailwind classes of the card, its
 * background, text and spacing, its width, the custom colour styles, and which
 * parts are shown.  Markup and icons are not.
 */
module ProductCard {
  import opened Wrappers
  import opened JsValue
  import opened JsText
  import opened CardControls
  import opened TextStyleControls

  /** A member of the card settings, as the destructuring reads it. */
  function Setting(settings: map<string, Json>, name: string): Option<Json> {
    Member(JObj(settings), name)
  }

  const DefaultGradient: string := "bg-gradient-to-br from-white to-gray-100 dark:from-gray-800 dark:to-gray-900"
  const DefaultBackground: string := "bg-white dark:bg-gray-800"

  /** `getBgStyle()`: a strict-equality switch on the background type. */
  function BgClass(settings: map<string, Json>): (c: string)
    ensures IsStr(Setting(settings, "backgroundType"), "dotted") ==> c == "bg-dotted bg-dotted-sm"
    ensures IsStr(Setting(settings, "backgroundType"), "striped") ==> c == "bg-striped bg-striped-sm"
  {
    var kind := Setting(settings, "backgroundType");
    if IsStr(kind, "gradient") then
      var gradient := Setting(settings, "gradientValue");
      if TruthyOpt(gradient) then Text(gradient.value) else DefaultGradient
    else if IsStr(kind, "dotted") then "bg-dotted bg-dotted-sm"
    else if IsStr(kind, "striped") then "bg-striped bg-striped-sm"
    else
      var colour := Setting(settings, "backgroundColor");
      if TruthyOpt(colour) then "bg-[" + Text(colour.value) + "]" else DefaultBackground
  }

  /** The inline `backgroundColor` style, set only for a solid background. */
  function InlineBackground(settings: map<string, Json>): (style: Option<Option<Json>>)
    ensures style.Some? <==> IsStr(Setting(settings, "backgroundType"), "solid")
  {
    if IsStr(Setting(settings, "backgroundType"), "solid") then Some(Setting(settings, "backgroundColor")) else None
  }

  /** A solid background with a colour gets that colour twice, as the arbitrary-value
      class and as the inline style; without a colour it gets the default class.
      A gradient without a gradient value falls back to the default gradient. */
  lemma BackgroundCases(settings: map<string, Json>, colour: string)
    ensures IsStr(Setting(settings, "backgroundType"), "solid") && IsStr(Setting(settings, "backgroundColor"), colour) && colour != "" ==>
      BgClass(settings) == "bg-[" + colour + "]" && InlineBackground(settings) == Some(Some(JStr(colour)))
    ensures IsStr(Setting(settings, "backgroundType"), "solid") && !TruthyOpt(Setting(settings, "backgroundColor")) ==>
      BgClass(settings) == DefaultBackground
    ensures IsStr(Setting(settings, "backgroundType"), "gradient") && !TruthyOpt(Setting(settings, "gradientValue")) ==>
      BgClass(settings) == DefaultGradient && InlineBackground(settings).None?
  {
  }

  /** `getShadowStyle()`. */
  function ShadowClass(shadow: Option<Json>): (c: string)
    ensures c != "" <==> exists size :: size in ["sm", "md", "lg", "inner"] && IsStr(shadow, size)
    ensures c != "" ==> shadow.Some? && shadow.value.JStr? && c == "shadow-" + shadow.value.s
  {
    if IsStr(shadow, "sm") then "shadow-sm"
    else if IsStr(shadow, "md") then "shadow-md"
    else if IsStr(shadow, "lg") then "shadow-lg"
    else if IsStr(shadow, "inner") then "shadow-inner"
    else ""
  }

  /** The four shadow sizes map to `shadow-<size>`; every other value, `none`
      included, to no class. */
  lemma ShadowClassNames(shadow: Option<Json>)
    ensures forall s :: s in ["sm", "md", "lg", "inner"] && IsStr(shadow, s) ==> ShadowClass(shadow) == "shadow-" + s
    ensures (forall s :: s in ["sm", "md", "lg", "inner"] ==> !IsStr(shadow, s)) ==> ShadowClass(shadow) == ""
  {
  }

  /** `getAspectRatioStyle()`. */
  function AspectClass(ratio: Option<Json>): (c: string)
    ensures c != "aspect-video" ==> ratio.Some? && ratio.value.JStr? && ratio.value.s in AspectRatioValues
  {
    if IsStr(ratio, "4:3") then "aspect-[4/3]"
    else if IsStr(ratio, "1:1") then "aspect-square"
    else if IsStr(ratio, "3:4") then "aspect-[3/4]"
    else if IsStr(ratio, "9:16") then "aspect-[9/16]"
    else if IsStr(ratio, "2:1") then "aspect-[2/1]"
    else "aspect-video"
  }

  /** `getCardWidth()`, in pixels. */
  function CardWidth(ratio: Option<Json>): (w: nat)
    ensures w in {400, 500, 700, 800}
    ensures w < 700 <==> IsStr(ratio, "1:1") || IsStr(ratio, "3:4") || IsStr(ratio, "9:16")
  {
    if IsStr(ratio, "1:1") then 500
    else if IsStr(ratio, "3:4") || IsStr(ratio, "9:16") then 400
    else if IsStr(ratio, "2:1") then 800
    else 700
  }

  /** The ratios the picker offers get distinct aspect classes, `aspect-video` only
      for 16:9; portrait ratios are drawn 400 pixels wide, the square 500, 2:1 800,
      and the other landscape ratios 700; anything else is drawn as 16:9. */
  lemma OfferedRatioLayouts(ratio: Option<Json>)
    ensures forall i, j :: 0 <= i < j < |AspectRatioValues| ==>
      AspectClass(Some(JStr(AspectRatioValues[i]))) != AspectClass(Some(JStr(AspectRatioValues[j])))
    ensures CardWidth(Some(JStr("3:4"))) == 400 && CardWidth(Some(JStr("9:16"))) == 400
    ensures CardWidth(Some(JStr("1:1"))) == 500 && CardWidth(Some(JStr("2:1"))) == 800
    ensures CardWidth(Some(JStr("16:9"))) == 700 && CardWidth(Some(JStr("4:3"))) == 700
    ensures (forall r :: r in AspectRatioValues ==> !IsStr(ratio, r)) ==>
      AspectClass(ratio) == "aspect-video" && CardWidth(ratio) == 700
  {
  }

  /** The overlays `getFrameStyle()` draws; `clean` and any unknown frame draw
      none. */
  datatype Frame = Window | Retro | Minimal | Shadow | Rounded | Glassmorphic

  /** `getFrameStyle()`. */
  function FrameOverlay(frame: Option<Json>): (f: Option<Frame>)
    ensures f == Some(Window) <==> IsStr(frame, "window")
    ensures f.None? <==> forall v :: v in FrameValues[1..] ==> !IsStr(frame, v)
  {
    if IsStr(frame, "window") then Some(Window)
    else if IsStr(frame, "retro") then Some(Retro)
    else if IsStr(frame, "minimal") then Some(Minimal)
    else if IsStr(frame, "shadow") then Some(Shadow)
    else if IsStr(frame, "rounded") then Some(Rounded)
    else if IsStr(frame, "glassmorphic") then Some(Glassmorphic)
    else None
  }

  /** The class pushed for a text member when it is truthy, none otherwise. */
  function Present(v: Option<Json>): (r: seq<string>)
    ensures |r| <= 1
    ensures r != [] <==> TruthyOpt(v)
  {
    if TruthyOpt(v) then [Text(v.value)] else []
  }

  const TitleBase: string := "text-gray-900 dark:text-gray-100"
  const TaglineBase: string := "mt-1"
  const DefaultTaglineColour: string := "text-gray-600 dark:text-gray-300"

  /** The title's size class: the size when set, `text-2xl` otherwise. */
  function TitleSize(text: map<string, Json>): (size: string)
    ensures TruthyOpt(Member(JObj(text), "titleSize")) ==> size == Text(Member(JObj(text), "titleSize").value)
    ensures !TruthyOpt(Member(JObj(text), "titleSize")) ==> size == "text-2xl"
  {
    if TruthyOpt(Member(JObj(text), "titleSize")) then Text(Member(JObj(text), "titleSize").value) else "text-2xl"
  }

  /** The title's weight class. */
  function TitleWeight(text: map<string, Json>): string {
    if TruthyOpt(Member(JObj(text), "bold")) then "font-bold" else "font-semibold"
  }

  /** The classes pushed before the weight: base, size, colour and font. */
  function TitleLead(text: map<string, Json>): seq<string> {
    [TitleBase, TitleSize(text)] + Present(Member(JObj(text), "titleColor")) + Present(Member(JObj(text), "fontFamily"))
  }

  /** The slant class: `italic` when set. */
  function Slant(text: map<string, Json>): seq<string> {
    if TruthyOpt(Member(JObj(text), "italic")) then ["italic"] else []
  }

  /** The classes pushed after the weight: slant and alignment. */
  function TitleTail(text: map<string, Json>): seq<string> {
    Slant(text) + Present(Member(JObj(text), "align"))
  }

  /** The classes `getTitleClasses()` pushes, in order. */
  function TitleClassList(text: map<string, Json>): (classes: seq<string>)
    ensures |classes| >= 3 && classes[0] == TitleBase && classes[1] == TitleSize(text)
  {
    TitleLead(text) + [TitleWeight(text)] + Slant(text) + Present(Member(JObj(text), "align"))
  }

  /** `getTitleClasses()`: the classes pushed one by one, then joined by spaces. */
  method TitleClasses(text: map<string, Json>) returns (className: string)
    ensures className == Join(TitleClassList(text), ' ')
  {
    var t := JObj(text);
    var classes := [TitleBase];
    if TruthyOpt(Member(t, "titleSize")) {
      classes := classes + [Text(Member(t, "titleSize").value)];
    } else {
      classes := classes + ["text-2xl"];
    }
    assert classes == [TitleBase, TitleSize(text)];
    if TruthyOpt(Member(t, "titleColor")) {
      classes := classes + [Text(Member(t, "titleColor").value)];
    }
    assert classes == [TitleBase, TitleSize(text)] + Present(Member(t, "titleColor"));
    if TruthyOpt(Member(t, "fontFamily")) {
      classes := classes + [Text(Member(t, "fontFamily").value)];
    }
    assert classes == TitleLead(text);
    if TruthyOpt(Member(t, "bold")) {
      classes := classes + ["font-bold"];
    } else {
      classes := classes + ["font-semibold"];
    }
    assert classes == TitleLead(text) + [TitleWeight(text)];
    if TruthyOpt(Member(t, "italic")) {
      classes := classes + ["italic"];
    }
    assert classes == TitleLead(text) + [TitleWeight(text)] + Slant(text);
    if TruthyOpt(Member(t, "align")) {
      classes := classes + [Text(Member(t, "align").value)];
    }
    assert classes == TitleClassList(text);
    className := Join(classes, ' ');
  }

  /** The alignment classes the alignment buttons set. */
  const AlignValues: seq<string> := ["text-left", "text-center", "text-right"]

  /** Whether a member is unset, empty, or a value its control offers. */
  predicate OfferedOrUnset(v: Option<Json>, values: seq<string>) {
    v.None? || v == Some(JStr("")) || (v.value.JStr? && v.value.s in values)
  }

  /** Whether every text member the title reads holds a value its control offers
      (or is unset). */
  predicate PickerText(text: map<string, Json>) {
    var t := JObj(text);
    && OfferedOrUnset(Member(t, "titleSize"), SizeValues)
    && OfferedOrUnset(Member(t, "titleColor"), TextColorValues)
    && OfferedOrUnset(Member(t, "fontFamily"), FontValues)
    && OfferedOrUnset(Member(t, "align"), AlignValues)
  }

  /** No value a text control offers is a weight class. */
  lemma ControlValuesAreNotWeights()
    ensures forall v :: v in SizeValues ==> v != "font-bold" && v != "font-semibold"
    ensures forall v :: v in TextColorValues ==> v != "font-bold" && v != "font-semibold"
    ensures forall v :: v in FontValues ==> v != "font-bold" && v != "font-semibold"
    ensures forall v :: v in AlignValues ==> v != "font-bold" && v != "font-semibold"
    ensures "text-2xl" != "font-bold" && "text-2xl" != "font-semibold"
    ensures TitleBase != "font-bold" && TitleBase != "font-semibold"
    ensures "italic" != "font-bold" && "italic" != "font-semibold"
  {
  }

  /** The class pushed for a member that is unset, empty or offered is an offered
      value, if any. */
  lemma PresentOffered(v: Option<Json>, values: seq<string>)
    requires OfferedOrUnset(v, values)
    ensures forall c :: c in Present(v) ==> c in values
  {
  }

  /** A class list holds a class once around a given position exactly when that
      position holds it, if neither side does. */
  lemma OnlyAt(lead: seq<string>, c: string, tail: seq<string>, w: string)
    requires w !in lead && w !in tail
    ensures w in lead + [c] + tail <==> w == c
  {
  }

  /** With offered values, nothing before the weight is a weight class. */
  lemma TitleLeadNoWeight(text: map<string, Json>)
    requires PickerText(text)
    ensures "font-bold" !in TitleLead(text) && "font-semibold" !in TitleLead(text)
  {
    var t := JObj(text);
    ControlValuesAreNotWeights();
    PresentOffered(Member(t, "titleColor"), TextColorValues);
    PresentOffered(Member(t, "fontFamily"), FontValues);
    assert TitleSize(text) == "text-2xl" || TitleSize(text) in SizeValues by {
      PresentOffered(Member(t, "titleSize"), SizeValues);
    }
  }

  /** With offered values, nothing after the weight is a weight class. */
  lemma TitleTailNoWeight(text: map<string, Json>)
    requires PickerText(text)
    ensures "font-bold" !in TitleTail(text) && "font-semibold" !in TitleTail(text)
  {
    ControlValuesAreNotWeights();
    PresentOffered(Member(JObj(text), "align"), AlignValues);
  }

  /** With values from the controls, the title carries exactly one weight class:
      `font-bold` when bold is set, `font-semibold` otherwise. */
  lemma TitleWeightExactlyOne(text: map<string, Json>)
    requires PickerText(text)
    ensures ("font-bold" in TitleClassList(text)) <==> TruthyOpt(Member(JObj(text), "bold"))
    ensures ("font-semibold" in TitleClassList(text)) <==> !TruthyOpt(Member(JObj(text), "bold"))
  {
    TitleLeadNoWeight(text);
    TitleTailNoWeight(text);
    assert TitleClassList(text) == TitleLead(text) + [TitleWeight(text)] + TitleTail(text);
    OnlyAt(TitleLead(text), TitleWeight(text), TitleTail(text), "font-bold");
    OnlyAt(TitleLead(text), TitleWeight(text), TitleTail(text), "font-semibold");
    assert "font-bold" != "font-semibold";
  }

  /** The classes `getTaglineClasses()` pushes, in order. */
  function TaglineClassList(text: map<string, Json>): (classes: seq<string>)
    ensures |classes| >= 3 && classes[0] == TaglineBase
    ensures classes[1] == if TruthyOpt(Member(JObj(text), "taglineSize")) then Text(Member(JObj(text), "taglineSize").value) else "text-base"
    ensures classes[2] == if TruthyOpt(Member(JObj(text), "taglineColor")) then Text(Member(JObj(text), "taglineColor").value) else DefaultTaglineColour
    ensures |classes| == 3 + (if TruthyOpt(Member(JObj(text), "italic")) then 1 else 0) + (if TruthyOpt(Member(JObj(text), "align")) then 1 else 0)
    ensures TruthyOpt(Member(JObj(text), "italic")) ==> classes[3] == "italic"
    ensures TruthyOpt(Member(JObj(text), "align")) ==> classes[|classes| - 1] == Text(Member(JObj(text), "align").value)
  {
    var t := JObj(text);
    [TaglineBase]
    + (if TruthyOpt(Member(t, "taglineSize")) then [Text(Member(t, "taglineSize").value)] else ["text-base"])
    + (if TruthyOpt(Member(t, "taglineColor")) then [Text(Member(t, "taglineColor").value)] else [DefaultTaglineColour])
    + (if TruthyOpt(Member(t, "italic")) then ["italic"] else [])
    + Present(Member(t, "align"))
  }

  /** `getTaglineClasses()`: the classes pushed one by one, then joined by spaces. */
  method TaglineClasses(text: map<string, Json>) returns (className: string)
    ensures className == Join(TaglineClassList(text), ' ')
  {
    var t := JObj(text);
    var classes := [TaglineBase];
    if TruthyOpt(Member(t, "taglineSize")) {
      classes := classes + [Text(Member(t, "taglineSize").value)];
    } else {
      classes := classes + ["text-base"];
    }
    if TruthyOpt(Member(t, "taglineColor")) {
      classes := classes + [Text(Member(t, "taglineColor").value)];
    } else {
      classes := classes + [DefaultTaglineColour];
    }
    ghost var lead := classes;
    if TruthyOpt(Member(t, "italic")) {
      classes := classes + ["italic"];
    }
    if TruthyOpt(Member(t, "align")) {
      classes := classes + [Text(Member(t, "align").value)];
    }
    assert classes == lead + (if TruthyOpt(Member(t, "italic")) then ["italic"] else []) + Present(Member(t, "align"));
    className := Join(classes, ' ');
  }

  /** The tracking classes, tightest first. */
  const TrackingClasses: seq<string> := ["tracking-tighter", "tracking-tight", "tracking-normal", "tracking-wide", "tracking-wider"]

  /** `letterSpacingClass`: `tracking-normal` when the setting is undefined;
      otherwise the array indexed by it, which for anything but 0 to 4 (as a
      number or its numeral) is `undefined` and prints as such. */
  function LetterSpacingClass(spacing: Option<Json>): (c: string)
    ensures spacing.None? ==> c == "tracking-normal"
    ensures forall n :: 0 <= n < 5 && spacing == Some(JNum(n)) ==> c == TrackingClasses[n]
  {
    match spacing
    case None => "tracking-normal"
    case Some(JNum(n)) => if 0 <= n < 5 then TrackingClasses[n] else "undefined"
    case Some(JStr(s)) =>
      if s == "0" then TrackingClasses[0]
      else if s == "1" then TrackingClasses[1]
      else if s == "2" then TrackingClasses[2]
      else if s == "3" then TrackingClasses[3]
      else if s == "4" then TrackingClasses[4]
      else "undefined"
    case Some(_) => "undefined"
  }

  /** `getTitleStyle()` and `getTaglineStyle()`: the custom colour as an inline
      `color`, present exactly when it is truthy. */
  function ColourStyle(custom: Option<Json>): (style: Option<string>)
    ensures style.Some? <==> TruthyOpt(custom)
    ensures custom.Some? && custom.value.JStr? && custom.value.s != "" ==> style == Some(custom.value.s)
  {
    if TruthyOpt(custom) then Some(Text(custom.value)) else None
  }

  /** The vote and comment counts shown, each `count || 0`. */
  datatype Stats = Stats(votes: Option<string>, comments: Option<string>)

  /** What the card shows, as the settings decide it. */
  datatype Card = Card(
    shadow: string, aspect: string, width: nat,
    inlineBackground: Option<Option<Json>>, background: string, frame: Option<Frame>,
    windowPadding: bool, tracking: string,
    logo: Option<Json>, title: Option<Json>, titleClass: seq<string>, titleStyle: Option<string>,
    tagline: Option<Json>, taglineClass: seq<string>, taglineStyle: Option<string>,
    stats: Option<Stats>, media: Option<Json>, watermark: bool)

  /** A display flag whose destructuring default is `true`: only an undefined
      member takes the default. */
  function FlagDefaultTrue(v: Option<Json>): (on: bool)
    ensures v.None? ==> on
    ensures v.Some? ==> on == Truthy(v.value)
  {
    v.None? || Truthy(v.value)
  }

  /** `productData.media && productData.media.length > 0` then `media[0]`: the
      first item of a non-empty list (or the first character of a non-empty
      string). */
  function FirstMedia(media: Option<Json>): (first: Option<Json>)
    ensures media.Some? && media.value.JArr? ==>
      (first.Some? <==> media.value.items != []) && (first.Some? ==> first.value == media.value.items[0])
    ensures media.None? || !(media.value.JArr? || media.value.JStr?) ==> first.None?
  {
    match media
    case Some(JArr(items)) => if items != [] then Some(items[0]) else None
    case Some(JStr(s)) => if s != "" then Some(JStr([s[0]])) else None
    case _ => None
  }

  /** `{flag && productData[field] && ...}`: the product's member, shown when the
      setting `flag` and the member are both truthy.  The logo is gated by
      `showLogo` and `logoUrl`, the tagline by `showTagline` and `tagline`. */
  function Gated(productData: Json, settings: map<string, Json>, flag: string, field: string): (shown: Option<Json>)
    ensures shown.Some? <==> TruthyOpt(Setting(settings, flag)) && TruthyOpt(Member(productData, field))
    ensures shown.Some? ==> shown == Member(productData, field)
  {
    if TruthyOpt(Setting(settings, flag)) && TruthyOpt(Member(productData, field))
    then Member(productData, field) else None
  }

  /** The stats row: shown when votes or comments are on, each count `|| 0`. */
  function StatsRow(productData: Json, settings: map<string, Json>): (row: Option<Stats>)
    ensures row.Some? <==> FlagDefaultTrue(Setting(settings, "showVotes")) || FlagDefaultTrue(Setting(settings, "showComments"))
    ensures row.Some? ==> (row.value.votes.Some? <==> FlagDefaultTrue(Setting(settings, "showVotes")))
    ensures row.Some? ==> (row.value.comments.Some? <==> FlagDefaultTrue(Setting(settings, "showComments")))
    ensures row.Some? && row.value.votes.Some? && !TruthyOpt(Member(productData, "votesCount")) ==> row.value.votes == Some("0")
    ensures row.Some? && row.value.comments.Some? && !TruthyOpt(Member(productData, "commentsCount")) ==> row.value.comments == Some("0")
  {
    var showVotes := FlagDefaultTrue(Setting(settings, "showVotes"));
    var showComments := FlagDefaultTrue(Setting(settings, "showComments"));
    if showVotes || showComments then
      Some(Stats(
        if showVotes then Some(Text(OrElse(Member(productData, "votesCount"), JNum(0)))) else None,
        if showComments then Some(Text(OrElse(Member(productData, "commentsCount"), JNum(0)))) else None))
    else None
  }

  /** `ProductCard({productData, settings})`: nothing for a falsy product;
      otherwise the card.  The text settings default to `{}` when undefined. */
  function RenderCard(productData: Json, settings: map<string, Json>): (card: Option<Card>)
    ensures card.None? <==> !Truthy(productData)
    ensures card.Some? ==>
      && card.value.logo == Gated(productData, settings, "showLogo", "logoUrl")
      && card.value.tagline == Gated(productData, settings, "showTagline", "tagline")
      && card.value.stats == StatsRow(productData, settings)
      && card.value.media == FirstMedia(Member(productData, "media"))
      && (card.value.watermark <==> TruthyOpt(Setting(settings, "watermark")))
      && card.value.title == Member(productData, "name")
      && card.value.windowPadding == (card.value.frame == Some(Window))
      && card.value.tracking == LetterSpacingClass(TextMember(settings, "letterSpacing"))
      && card.value.shadow == ShadowClass(Setting(settings, "shadow"))
      && card.value.aspect == AspectClass(Setting(settings, "aspectRatio"))
      && card.value.width == CardWidth(Setting(settings, "aspectRatio"))
      && card.value.inlineBackground == InlineBackground(settings)
      && card.value.background == BgClass(settings)
      && card.value.frame == FrameOverlay(Setting(settings, "frameStyle"))
      && card.value.titleClass == TitleClassList(TextOf(settings))
      && card.value.titleStyle == ColourStyle(TextMember(settings, "customTitleColor"))
      && card.value.taglineClass == TaglineClassList(TextOf(settings))
      && card.value.taglineStyle == ColourStyle(TextMember(settings, "customTaglineColor"))
  {
    if !Truthy(productData) then None
    else
      var text := TextOf(settings);
      var frame := FrameOverlay(Setting(settings, "frameStyle"));
      Some(Card(
        ShadowClass(Setting(settings, "shadow")),
        AspectClass(Setting(settings, "aspectRatio")),
        CardWidth(Setting(settings, "aspectRatio")),
        InlineBackground(settings), BgClass(settings), frame,
        IsStr(Setting(settings, "frameStyle"), "window"),
        LetterSpacingClass(TextMember(settings, "letterSpacing")),
        Gated(productData, settings, "showLogo", "logoUrl"),
        Member(productData, "name"),
        TitleClassList(text), ColourStyle(Member(JObj(text), "customTitleColor")),
        Gated(productData, settings, "showTagline", "tagline"),
        TaglineClassList(text), ColourStyle(Member(JObj(text), "customTaglineColor")),
        StatsRow(productData, settings),
        FirstMedia(Member(productData, "media")),
        TruthyOpt(Setting(settings, "watermark"))))
  }

  /** A product without counts shows `0` for both when both are on. */
  lemma MissingCountsShowZero(productData: Json, settings: map<string, Json>)
    requires Truthy(productData)
    requires !TruthyOpt(Member(productData, "votesCount")) && !TruthyOpt(Member(productData, "commentsCount"))
    requires Setting(settings, "showVotes").None? && Setting(settings, "showComments").None?
    ensures RenderCard(productData, settings).value.stats == Some(Stats(Some("0"), Some("0")))
  {
  }

  /** After a custom title colour is picked, the title is drawn in that colour and
      carries no preset colour class; after a preset is clicked, it carries the
      preset class and no custom colour. */
  lemma CustomColourWins(settings: map<string, Json>, colour: string, preset: string)
    requires colour != "" && preset != ""
    ensures var text := TextOf(CustomChosen(settings, Title, colour));
      ColourStyle(Member(JObj(text), "customTitleColor")) == Some(colour) &&
      Present(Member(JObj(text), "titleColor")) == []
    ensures var text := TextOf(PresetChosen(settings, Title, preset));
      ColourStyle(Member(JObj(text), "customTitleColor")).None? &&
      Present(Member(JObj(text), "titleColor")) == [preset]
  {
    ColourChoicesExclusive(settings, Title, colour, preset);
  }

  /** The slider shows a stored 0 at position 2 while the card draws it with the
      tightest tracking: the slider and the card disagree. */
  lemma SliderZeroDisagrees(settings: map<string, Json>)
    requires TextMember(settings, "letterSpacing") == Some(JNum(0))
    ensures SliderValue(settings) == JNum(2)
    ensures LetterSpacingClass(TextMember(settings, "letterSpacing")) == TrackingClasses[0] != TrackingClasses[2]
  {
  }

  /** Read with `??`, the slider's position is the one the card draws, for every
      position the slider offers, and the default 2 is `tracking-normal`. */
  lemma SliderNullishAgrees(settings: map<string, Json>)
    requires TextMember(settings, "letterSpacing").None? ||
             exists n :: 0 <= n < 5 && TextMember(settings, "letterSpacing") == Some(JNum(n))
    ensures SliderValueNullish(settings).JNum? && 0 <= SliderValueNullish(settings).n < 5
    ensures LetterSpacingClass(TextMember(settings, "letterSpacing")) == TrackingClasses[SliderValueNullish(settings).n]
  {
  }
}
