/**
 * The card controls panel: the template presets and picker options as data, the
 * forwarding change handler, template application as a sequence of single-key
 * updates, and the black-or-white contrast colour for a hex background.
 *
 * The panel's own state (which section is open, whether the colour picker shows)
 * is presentation only and is not modelled.
 */
module CardControls {
  import opened Wrappers
  import opened JsValue
  import opened JsText
  import opened CardCreator

  /** The text settings a preset sets: it carries no letter spacing and no custom
      colours. */
  datatype TextPreset = TextPreset(titleColor: string, taglineColor: string, fontFamily: string, titleSize: string,
                                   taglineSize: string, bold: bool, italic: bool, align: string)

  /** A template preset: its names and icon, then the card settings it sets. */
  datatype Template = Template(name: string, nameEn: string, icon: string,
    theme: string, backgroundColor: string, backgroundType: string, gradientValue: string, frameStyle: string,
    showLogo: bool, showTagline: bool, shadow: string, aspectRatio: string, watermark: bool, showVotes: bool,
    showComments: bool, text: TextPreset)

  const MinimalTemplate: Template := Template("简约", "Minimal", "minimal",
    "light", "#ffffff", "solid", "bg-gradient-to-br from-white to-gray-100", "clean", true, true, "none", "16:9", true, true, true,
    TextPreset("text-gray-900", "text-gray-600", "font-sans", "text-2xl", "text-base", true, false, "text-left"))

  const ProfessionalTemplate: Template := Template("专业", "Professional", "professional",
    "light", "#f0f4f8", "gradient", "bg-gradient-to-br from-blue-50 to-gray-100", "minimal", true, true, "md", "16:9", true, true, true,
    TextPreset("text-blue-900", "text-blue-700", "font-serif", "text-2xl", "text-base", true, false, "text-left"))

  const CreativeTemplate: Template := Template("创意", "Creative", "creative",
    "light", "#ffffff", "gradient", "bg-gradient-to-r from-pink-100 to-orange-100", "rounded", true, true, "lg", "4:3", true, true, true,
    TextPreset("text-pink-800", "text-orange-700", "font-sans", "text-2xl", "text-base", true, false, "text-left"))

  const ModernTemplate: Template := Template("现代", "Modern", "modern",
    "light", "#ffffff", "gradient", "bg-gradient-to-br from-cyan-100 to-blue-100", "glassmorphic", true, true, "sm", "16:9", true, true, true,
    TextPreset("text-cyan-900", "text-blue-700", "font-sans", "text-2xl", "text-base", true, false, "text-left"))

  const RetroTemplate: Template := Template("复古", "Retro", "retro",
    "light", "#fff8e1", "solid", "bg-gradient-to-br from-amber-50 to-amber-100", "retro", true, true, "md", "4:3", true, true, true,
    TextPreset("text-amber-900", "text-amber-800", "font-serif", "text-2xl", "text-base", true, false, "text-left"))

  const DarkTemplate: Template := Template("暗黑", "Dark", "dark",
    "dark", "#1f2937", "gradient", "bg-gradient-to-br from-gray-800 to-gray-700", "minimal", true, true, "lg", "16:9", true, true, true,
    TextPreset("text-white", "text-white", "font-sans", "text-2xl", "text-base", true, false, "text-left"))

  const PinkMinimalTemplate: Template := Template("极简粉橙", "Pink Minimal", "minimal-gradient",
    "light", "#ffffff", "gradient", "bg-gradient-to-r from-pink-100 to-orange-100", "minimal", true, true, "lg", "16:9", true, true, true,
    TextPreset("text-pink-900", "text-orange-800", "font-sans", "text-2xl", "text-base", true, false, "text-left"))

  const TechBlueTemplate: Template := Template("科技蓝", "Tech Blue", "tech-blue",
    "light", "#f0f9ff", "gradient", "bg-gradient-to-r from-blue-200 to-cyan-300", "glassmorphic", true, true, "md", "16:9", true, true, true,
    TextPreset("text-blue-900", "text-blue-800", "font-sans", "text-2xl", "text-base", true, false, "text-left"))

  const NaturalGreenTemplate: Template := Template("自然绿", "Natural Green", "nature-green",
    "light", "#f0fdf4", "gradient", "bg-gradient-to-r from-green-200 to-teal-300", "minimal", true, true, "sm", "16:9", true, true, true,
    TextPreset("text-green-900", "text-green-800", "font-sans", "text-2xl", "text-base", true, false, "text-left"))

  const VioletTemplate: Template := Template("紫罗兰", "Violet", "violet",
    "light", "#faf5ff", "gradient", "bg-gradient-to-br from-purple-100 to-pink-200", "rounded", true, true, "md", "16:9", true, true, true,
    TextPreset("text-purple-900", "text-purple-700", "font-sans", "text-2xl", "text-base", true, false, "text-left"))

  const BusinessGrayTemplate: Template := Template("商务灰", "Business Gray", "business-gray",
    "light", "#f9fafb", "solid", "bg-gradient-to-br from-gray-50 to-gray-200", "shadow", true, true, "md", "16:9", true, true, true,
    TextPreset("text-gray-800", "text-gray-600", "font-serif", "text-2xl", "text-base", true, false, "text-left"))

  const SunsetOrangeTemplate: Template := Template("日落橙", "Sunset Orange", "sunset-orange",
    "light", "#fff7ed", "gradient", "bg-gradient-to-r from-yellow-200 to-orange-300", "clean", true, true, "lg", "16:9", true, true, true,
    TextPreset("text-orange-900", "text-orange-800", "font-sans", "text-2xl", "text-base", true, false, "text-left"))

  /** The presets, in the order they are offered. */
  const Templates: seq<Template> := [
    MinimalTemplate, ProfessionalTemplate, CreativeTemplate, ModernTemplate, RetroTemplate, DarkTemplate,
    PinkMinimalTemplate, TechBlueTemplate, NaturalGreenTemplate, VioletTemplate, BusinessGrayTemplate, SunsetOrangeTemplate
  ]

  /** The values offered by the frame, background, aspect-ratio and shadow pickers. */
  const FrameValues: seq<string> := ["clean", "window", "retro", "minimal", "shadow", "rounded", "glassmorphic"]
  const BackgroundValues: seq<string> := ["solid", "gradient", "dotted", "striped"]
  const AspectRatioValues: seq<string> := ["16:9", "4:3", "1:1", "3:4", "9:16", "2:1"]
  const ShadowValues: seq<string> := ["none", "sm", "md", "lg", "inner"]

  /** The background colour presets. */
  const ColorPresets: seq<string> := [
    "#ffffff", "#f5f5f5", "#f0e6d2", "#e0f5e9", "#e3f2fd", "#f3e5f5",
    "#fce4ec", "#fff8e1", "#e0f7fa", "#e8f5e9", "#fff3e0", "#e1f5fe"
  ]

  /** The first value listed for `key`, if any. */
  function Lookup(entries: seq<(string, Json)>, key: string): (r: Option<Json>)
    ensures r.Some? ==> exists i :: 0 <= i < |entries| && entries[i] == (key, r.value)
    ensures r.None? ==> forall i :: 0 <= i < |entries| ==> entries[i].0 != key
    decreases |entries|
  {
    if entries == [] then None
    else if entries[0].0 == key then
      assert entries[0] == (key, entries[0].1);
      Some(entries[0].1)
    else
      var r := Lookup(entries[1..], key);
      assert r.Some? ==> exists i :: 0 <= i < |entries| && entries[i] == (key, r.value) by {
        if r.Some? {
          var i :| 0 <= i < |entries[1..]| && entries[1..][i] == (key, r.value);
          assert entries[i + 1] == (key, r.value);
        }
      }
      r
  }

  /** The keys listed. */
  function KeysOf(entries: seq<(string, Json)>): set<string> {
    set i | 0 <= i < |entries| :: entries[i].0
  }

  /** Whether no key is listed twice, as in an object literal. */
  predicate DistinctKeys(entries: seq<(string, Json)>) {
    forall i, j :: 0 <= i < j < |entries| ==> entries[i].0 != entries[j].0
  }

  /** The settings after one update per entry, in order. */
  function Applied(settings: map<string, Json>, entries: seq<(string, Json)>): (r: map<string, Json>)
    ensures r.Keys == settings.Keys + KeysOf(entries)
    decreases |entries|
  {
    if entries == [] then settings
    else
      var last := entries[|entries| - 1];
      var r := SettingsWith(Applied(settings, entries[..|entries| - 1]), last.0, last.1);
      assert KeysOf(entries) == KeysOf(entries[..|entries| - 1]) + {last.0} by {
        forall k | k in KeysOf(entries) ensures k in KeysOf(entries[..|entries| - 1]) + {last.0} {
          var i :| 0 <= i < |entries| && entries[i].0 == k;
          if i < |entries| - 1 {
            assert entries[..|entries| - 1][i].0 == k;
          }
        }
      }
      r
  }

  /** With no key listed twice, every listed key ends with its listed value and
      every other key keeps its value. */
  lemma AppliedValues(settings: map<string, Json>, entries: seq<(string, Json)>)
    requires DistinctKeys(entries)
    ensures forall k :: k in KeysOf(entries) ==> Some(Applied(settings, entries)[k]) == Lookup(entries, k)
    ensures forall k :: k in settings && k !in KeysOf(entries) ==> Applied(settings, entries)[k] == settings[k]
  {
    AppliedListed(settings, entries);
    AppliedKeeps(settings, entries);
  }

  /** With no key listed twice, every listed key ends with its listed value. */
  lemma {:induction false} AppliedListed(settings: map<string, Json>, entries: seq<(string, Json)>)
    requires DistinctKeys(entries)
    ensures forall k :: k in KeysOf(entries) ==> Some(Applied(settings, entries)[k]) == Lookup(entries, k)
    decreases |entries|
  {
    if entries != [] {
      var front := entries[..|entries| - 1];
      var last := entries[|entries| - 1];
      var prev := Applied(settings, front);
      var after := Applied(settings, entries);
      assert after == SettingsWith(prev, last.0, last.1);
      assert DistinctKeys(front);
      AppliedListed(settings, front);
      forall k | k in KeysOf(entries)
        ensures Some(after[k]) == Lookup(entries, k)
      {
        var i :| 0 <= i < |entries| && entries[i].0 == k;
        LookupAt(entries, i);
        if i < |entries| - 1 {
          assert front[i] == entries[i];
          LookupAt(front, i);
          assert k in KeysOf(front);
          assert k != last.0;
        }
      }
    }
  }

  /** Every key not listed keeps its value. */
  lemma {:induction false} AppliedKeeps(settings: map<string, Json>, entries: seq<(string, Json)>)
    ensures forall k :: k in settings && k !in KeysOf(entries) ==> Applied(settings, entries)[k] == settings[k]
    decreases |entries|
  {
    if entries != [] {
      var front := entries[..|entries| - 1];
      var last := entries[|entries| - 1];
      var after := Applied(settings, entries);
      assert after == SettingsWith(Applied(settings, front), last.0, last.1);
      AppliedKeeps(settings, front);
      forall k | k in settings && k !in KeysOf(entries)
        ensures after[k] == settings[k]
      {
        assert k != last.0;
        assert k !in KeysOf(front) by {
          forall i | 0 <= i < |front| ensures front[i].0 != k {
            assert front[i].0 == entries[i].0;
          }
        }
      }
    }
  }

  /** Whether no key is listed twice. */
  predicate Distinct(keys: seq<string>) {
    forall i, j :: 0 <= i < j < |keys| ==> keys[i] != keys[j]
  }

  /** Keys paired with their values, in order. */
  function Zip(keys: seq<string>, values: seq<Json>): (entries: seq<(string, Json)>)
    requires |keys| == |values|
    ensures |entries| == |keys|
    ensures forall i :: 0 <= i < |entries| ==> entries[i] == (keys[i], values[i])
  {
    seq(|keys|, i requires 0 <= i < |keys| => (keys[i], values[i]))
  }

  /** Writing distinct keys in order sets each to its value and keeps every other
      key. */
  lemma AppliedZip(settings: map<string, Json>, keys: seq<string>, values: seq<Json>)
    requires |keys| == |values| && Distinct(keys)
    ensures Applied(settings, Zip(keys, values)).Keys == settings.Keys + set k | k in keys
    ensures forall i :: 0 <= i < |keys| ==> Applied(settings, Zip(keys, values))[keys[i]] == values[i]
    ensures forall k :: k in settings && k !in keys ==> Applied(settings, Zip(keys, values))[k] == settings[k]
  {
    var entries := Zip(keys, values);
    assert DistinctKeys(entries);
    AppliedValues(settings, entries);
    assert KeysOf(entries) == set k | k in keys by {
      forall k | k in keys ensures k in KeysOf(entries) {
        var i :| 0 <= i < |keys| && keys[i] == k;
        assert entries[i].0 == k;
      }
    }
    forall i | 0 <= i < |keys| ensures Applied(settings, entries)[keys[i]] == values[i] {
      assert entries[i].0 == keys[i];
      LookupAt(entries, i);
    }
  }

  /** `handleChange(name, value)`: forwarded to the editor as it is. */
  method HandleChange(editor: Editor, name: string, value: Json)
    modifies editor
    ensures editor.cardSettings == SettingsWith(old(editor.cardSettings), name, value)
    ensures editor.OnlyCardSettingsChanged()
  {
    editor.HandleSettingsChange(name, value);
  }

  /** The keys every template lists, in the order `Object.entries` visits them. */
  const TemplateKeys: seq<string> := [
    "theme", "backgroundColor", "backgroundType", "gradientValue", "frameStyle", "showLogo", "showTagline",
    "shadow", "aspectRatio", "watermark", "showVotes", "showComments", "textSettings"
  ]

  /** No key is listed twice. */
  lemma TemplateKeysDistinct()
    ensures Distinct(TemplateKeys)
  {
  }

  /** The keys of a preset's text settings, in the order they are written. */
  const TextKeys: seq<string> := [
    "titleColor", "taglineColor", "fontFamily", "titleSize", "taglineSize", "bold", "italic", "align"
  ]

  /** No text key is listed twice, and none is letter spacing or a custom colour. */
  lemma TextKeysDistinct()
    ensures Distinct(TextKeys)
  {
  }

  /** Letter spacing and the custom colours are not among the text keys. */
  lemma TextKeysExclude()
    ensures "letterSpacing" !in TextKeys && "customTitleColor" !in TextKeys && "customTaglineColor" !in TextKeys
  {
  }

  /** The values of a preset's text settings, in the order of `TextKeys`. */
  function TextValues(tp: TextPreset): (vs: seq<Json>)
    ensures |vs| == |TextKeys|
  {
    [JStr(tp.titleColor), JStr(tp.taglineColor), JStr(tp.fontFamily), JStr(tp.titleSize), JStr(tp.taglineSize),
     JBool(tp.bold), JBool(tp.italic), JStr(tp.align)]
  }

  /** The text settings object of a preset, built key by key as the object literal
      is. */
  function TextObject(tp: TextPreset): (v: Json)
    ensures v.JObj?
  {
    JObj(Applied(map[], Zip(TextKeys, TextValues(tp))))
  }

  /** A preset's text settings hold exactly the eight text keys, each with its
      value. */
  lemma TextObjectFields(tp: TextPreset)
    ensures TextObject(tp).fields.Keys == set k | k in TextKeys
    ensures forall i :: 0 <= i < |TextKeys| ==> TextObject(tp).fields[TextKeys[i]] == TextValues(tp)[i]
  {
    TextKeysDistinct();
    AppliedZip(map[], TextKeys, TextValues(tp));
  }

  /** A preset's text settings hold its boldness and slant, and neither letter
      spacing nor custom colours. */
  lemma TextObjectFacts(tp: TextPreset)
    ensures Member(TextObject(tp), "bold") == Some(JBool(tp.bold))
    ensures Member(TextObject(tp), "italic") == Some(JBool(tp.italic))
    ensures Member(TextObject(tp), "letterSpacing").None?
    ensures Member(TextObject(tp), "customTitleColor").None? && Member(TextObject(tp), "customTaglineColor").None?
  {
    TextObjectFields(tp);
    TextKeysExclude();
    assert TextKeys[5] == "bold" && TextKeys[6] == "italic";
  }

  /** The values a preset sets, in the order of `TemplateKeys`. */
  function Values(t: Template): (vs: seq<Json>)
    ensures |vs| == |TemplateKeys|
  {
    [JStr(t.theme), JStr(t.backgroundColor), JStr(t.backgroundType), JStr(t.gradientValue), JStr(t.frameStyle),
     JBool(t.showLogo), JBool(t.showTagline), JStr(t.shadow), JStr(t.aspectRatio), JBool(t.watermark),
     JBool(t.showVotes), JBool(t.showComments), TextObject(t.text)]
  }

  /** `Object.entries(template.settings)`. */
  function Entries(t: Template): (entries: seq<(string, Json)>)
    ensures |entries| == |TemplateKeys|
    ensures forall i :: 0 <= i < |entries| ==> entries[i] == (TemplateKeys[i], Values(t)[i])
  {
    Zip(TemplateKeys, Values(t))
  }

  /** The loop of `applyTemplate`: one settings update per entry, in order. */
  method ApplyEntries(editor: Editor, entries: seq<(string, Json)>)
    modifies editor
    ensures editor.cardSettings == Applied(old(editor.cardSettings), entries)
    ensures editor.OnlyCardSettingsChanged()
  {
    var i := 0;
    while i < |entries|
      invariant 0 <= i <= |entries|
      invariant editor.cardSettings == Applied(old(editor.cardSettings), entries[..i])
      invariant editor.OnlyCardSettingsChanged()
    {
      var (key, value) := entries[i];
      editor.HandleSettingsChange(key, value);
      assert entries[..i + 1][..i] == entries[..i];
      i := i + 1;
    }
    assert entries[..i] == entries;
  }

  /** `applyTemplate(template)`: one settings update per entry of the template. */
  method ApplyTemplate(editor: Editor, template: Template)
    modifies editor
    ensures editor.cardSettings == Applied(old(editor.cardSettings), Entries(template))
    ensures editor.OnlyCardSettingsChanged()
  {
    ApplyEntries(editor, Entries(template));
  }

  /** With no key listed twice, the value found for a listed key is the one listed
      with it. */
  lemma LookupAt(entries: seq<(string, Json)>, i: nat)
    requires DistinctKeys(entries) && i < |entries|
    ensures Lookup(entries, entries[i].0) == Some(entries[i].1)
  {
    var r := Lookup(entries, entries[i].0);
    if r.Some? {
      var j :| 0 <= j < |entries| && entries[j] == (entries[i].0, r.value);
      assert i == j;
    }
  }

  /** Applying a template sets each of its thirteen keys to the template's value and
      keeps every other key. */
  lemma AppliedTemplate(settings: map<string, Json>, t: Template)
    ensures Applied(settings, Entries(t)).Keys == settings.Keys + set k | k in TemplateKeys
    ensures forall i :: 0 <= i < |TemplateKeys| ==> Applied(settings, Entries(t))[TemplateKeys[i]] == Values(t)[i]
    ensures forall k :: k in settings && k !in TemplateKeys ==> Applied(settings, Entries(t))[k] == settings[k]
  {
    TemplateKeysDistinct();
    AppliedZip(settings, TemplateKeys, Values(t));
  }

  /** Whether a picker offers a value. */
  predicate Offered(v: string, values: seq<string>) {
    v in values
  }

  /** The presets as they are written: the background type, frame, shadow and aspect
      ratio are values the pickers offer; the logo, tagline, watermark, votes and
      comments are all shown; the text is bold and not italic. */
  predicate WellFormed(t: Template) {
    PickerValues(t) && ShowsAll(t)
  }

  /** The background type, frame, shadow and aspect ratio are values the pickers
      offer. */
  predicate PickerValues(t: Template) {
    && Offered(t.backgroundType, BackgroundValues) && Offered(t.frameStyle, FrameValues)
    && Offered(t.shadow, ShadowValues) && Offered(t.aspectRatio, AspectRatioValues)
  }

  /** The logo, tagline, watermark, votes and comments are shown, and the text is
      bold and not italic. */
  predicate ShowsAll(t: Template) {
    && t.showLogo && t.showTagline && t.watermark && t.showVotes && t.showComments
    && t.text.bold && !t.text.italic
  }

  /** Every preset is well formed. */
  lemma TemplatesAreWellFormed()
    ensures forall t :: t in Templates ==> WellFormed(t)
  {
    PresetsOfferPickerValues();
    PresetsShowAll();
  }

  /** Every preset uses values the pickers offer. */
  lemma PresetsOfferPickerValues()
    ensures forall t :: t in Templates ==> PickerValues(t)
  {
    assert PickerValues(MinimalTemplate) && PickerValues(ProfessionalTemplate) && PickerValues(CreativeTemplate);
    assert PickerValues(ModernTemplate) && PickerValues(RetroTemplate) && PickerValues(DarkTemplate);
    assert PickerValues(PinkMinimalTemplate) && PickerValues(TechBlueTemplate) && PickerValues(NaturalGreenTemplate);
    assert PickerValues(VioletTemplate) && PickerValues(BusinessGrayTemplate) && PickerValues(SunsetOrangeTemplate);
    forall t | t in Templates ensures PickerValues(t) {
      TemplateCases(t);
    }
  }

  /** A preset is one of the twelve named ones. */
  lemma TemplateCases(t: Template)
    requires t in Templates
    ensures || t == MinimalTemplate || t == ProfessionalTemplate || t == CreativeTemplate
            || t == ModernTemplate || t == RetroTemplate || t == DarkTemplate
            || t == PinkMinimalTemplate || t == TechBlueTemplate || t == NaturalGreenTemplate
            || t == VioletTemplate || t == BusinessGrayTemplate || t == SunsetOrangeTemplate
  {
  }

  /** Every preset shows every element, in bold upright text. */
  lemma PresetsShowAll()
    ensures forall t :: t in Templates ==> ShowsAll(t)
  {
  }

  /** Applying a well-formed preset to any settings leaves a picker value as the frame, shows the logo and the watermark,
      and replaces the text settings whole: letter spacing and the custom colours
      are gone afterwards and the text is bold and upright. */
  lemma ApplyingWellFormed(settings: map<string, Json>, t: Template)
    requires WellFormed(t)
    ensures var after := Applied(settings, Entries(t));
      && "frameStyle" in after && after["frameStyle"].JStr? && Offered(after["frameStyle"].s, FrameValues)
      && "showLogo" in after && after["showLogo"] == JBool(true)
      && "watermark" in after && after["watermark"] == JBool(true)
      && "textSettings" in after
      && Member(after["textSettings"], "letterSpacing").None?
      && Member(after["textSettings"], "customTitleColor").None?
      && Member(after["textSettings"], "customTaglineColor").None?
      && Member(after["textSettings"], "bold") == Some(JBool(true))
      && Member(after["textSettings"], "italic") == Some(JBool(false))
  {
    AppliedKeyAt(settings, t, 4);
    AppliedKeyAt(settings, t, 5);
    AppliedKeyAt(settings, t, 9);
    AppliedKeyAt(settings, t, 12);
    TemplateKeyNames();
    ValuesAt(t);
    TextObjectFacts(t.text);
  }

  /** The values the lemma above reads. */
  lemma ValuesAt(t: Template)
    ensures Values(t)[4] == JStr(t.frameStyle) && Values(t)[5] == JBool(t.showLogo)
    ensures Values(t)[9] == JBool(t.watermark) && Values(t)[12] == TextObject(t.text)
  {
  }

  /** The positions of the keys the lemma above reads. */
  lemma TemplateKeyNames()
    ensures TemplateKeys[4] == "frameStyle" && TemplateKeys[5] == "showLogo"
    ensures TemplateKeys[9] == "watermark" && TemplateKeys[12] == "textSettings"
  {
  }

  /** The value a template gives its `i`th key. */
  lemma AppliedKeyAt(settings: map<string, Json>, t: Template, i: nat)
    requires i < |TemplateKeys|
    ensures TemplateKeys[i] in Applied(settings, Entries(t))
    ensures Applied(settings, Entries(t))[TemplateKeys[i]] == Values(t)[i]
  {
    AppliedTemplate(settings, t);
  }

  /** Every preset is well formed, so applying any of them has those effects. */
  lemma ApplyingPresetReplacesTextSettings(settings: map<string, Json>, t: Template)
    requires t in Templates
    ensures WellFormed(t)
    ensures var after := Applied(settings, Entries(t));
      && "textSettings" in after
      && Member(after["textSettings"], "letterSpacing").None?
      && Member(after["textSettings"], "customTitleColor").None?
      && Member(after["textSettings"], "customTaglineColor").None?
  {
    TemplatesAreWellFormed();
    ApplyingWellFormed(settings, t);
  }

  const Black: string := "#000000"
  const White: string := "#ffffff"

  /** `parseInt(hex.slice(i, i + 2), 16)`; `None` is NaN. */
  function Channel(hex: string, i: nat): Option<int>
    requires i + 2 <= |hex|
  {
    ParseInt(hex[i..i + 2], 16)
  }

  /** A channel of two hex digits reads as the byte they spell. */
  lemma ChannelValue(hex: string, i: nat)
    requires i + 2 <= |hex| && DigitValue(hex[i]) < 16 && DigitValue(hex[i + 1]) < 16
    ensures Channel(hex, i) == Some(16 * DigitValue(hex[i]) + DigitValue(hex[i + 1]))
  {
    var pair := hex[i..i + 2];
    assert pair[0] == hex[i] && pair[1] == hex[i + 1];
    HexPairValue(pair);
  }

  /** `getContrastColor(hexColor)`: black for a missing or short colour; otherwise
      black exactly when every channel parses and the weighted brightness
      `(299 r + 587 g + 114 b) / 1000` exceeds 128, which is compared here in whole
      numbers. */
  function ContrastColor(hex: Option<string>): (c: string)
    ensures c == Black || c == White
    ensures hex.None? || |hex.value| < 7 ==> c == Black
    ensures hex.Some? && |hex.value| >= 7 ==>
      (c == Black <==> Channel(hex.value, 1).Some? && Channel(hex.value, 3).Some? && Channel(hex.value, 5).Some? &&
                       299 * Channel(hex.value, 1).value + 587 * Channel(hex.value, 3).value
                       + 114 * Channel(hex.value, 5).value > 128000)
  {
    if hex.None? || |hex.value| < 7 then Black
    else
      var r := Channel(hex.value, 1);
      var g := Channel(hex.value, 3);
      var b := Channel(hex.value, 5);
      if r.Some? && g.Some? && b.Some? && 299 * r.value + 587 * g.value + 114 * b.value > 128000 then Black
      else White
  }

  /** Characters after the seventh are ignored. */
  lemma ContrastIgnoresSuffix(hex: string, rest: string)
    requires |hex| >= 7
    ensures ContrastColor(Some(hex + rest)) == ContrastColor(Some(hex))
  {
    var s := hex + rest;
    assert s[1..3] == hex[1..3] && s[3..5] == hex[3..5] && s[5..7] == hex[5..7];
  }

  /** A channel without a leading hex digit makes the colour white. */
  lemma NaNChannelGivesWhite(hex: string)
    requires |hex| >= 7
    requires Channel(hex, 1).None? || Channel(hex, 3).None? || Channel(hex, 5).None?
    ensures ContrastColor(Some(hex)) == White
  {
  }

  /** The brightness weight of a colour written as `#rrggbb`. */
  function HexBrightness(hex: string): nat
    requires |hex| >= 7
  {
    299 * (16 * DigitValue(hex[1]) + DigitValue(hex[2])) + 587 * (16 * DigitValue(hex[3]) + DigitValue(hex[4]))
    + 114 * (16 * DigitValue(hex[5]) + DigitValue(hex[6]))
  }

  /** A colour written `#rrggbb` in hex digits is black exactly when its brightness
      weight exceeds 128000. */
  lemma HexColorContrast(hex: string)
    requires |hex| == 7
    requires forall k :: 1 <= k < 7 ==> DigitValue(hex[k]) < 16
    ensures ContrastColor(Some(hex)) == Black <==> HexBrightness(hex) > 128000
  {
    ChannelValue(hex, 1);
    ChannelValue(hex, 3);
    ChannelValue(hex, 5);
    assert Channel(hex, 1).Some? && Channel(hex, 3).Some? && Channel(hex, 5).Some?;
    assert HexBrightness(hex) == 299 * Channel(hex, 1).value + 587 * Channel(hex, 3).value + 114 * Channel(hex, 5).value;
  }

  /** Every background colour preset gets black text. */
  lemma ColorPresetsGetBlack()
    ensures forall c :: c in ColorPresets ==> ContrastColor(Some(c)) == Black
  {
    forall c | c in ColorPresets
      ensures ContrastColor(Some(c)) == Black
    {
      HexColorContrast(c);
    }
  }
}
