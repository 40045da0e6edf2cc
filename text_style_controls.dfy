/**
 * The text style panel: font, size, boldness, slant, alignment, letter spacing
 * and the title and tagline colours.  Every change goes through the editor's
 * text-settings updater; the panel keeps, as its own state, the last custom
 * colour picked for each line and whether each colour picker is open.
 *
 * The tab shown (`activeTab`) is presentation only and is not modelled.
 */
module TextStyleControls {
  import opened Wrappers
  import opened JsValue
  import opened JsText
  import opened CardCreator
  import opened CardControls

  /** The values offered by the font, size and colour buttons. */
  const FontValues: seq<string> := ["font-sans", "font-sans", "font-serif", "font-mono", "font-rounded", "font-modern"]
  const SizeValues: seq<string> := ["text-sm", "text-base", "text-lg", "text-xl", "text-2xl"]
  const TextColorValues: seq<string> := [
    "text-gray-900", "text-gray-700", "text-gray-500", "text-gray-300", "text-white",
    "text-ph-orange", "text-blue-600", "text-green-600", "text-red-600", "text-purple-600"
  ]

  /** The custom colours the panel starts with, before one is picked. */
  const InitialCustomTitleColor: string := "#000000"
  const InitialCustomTaglineColor: string := "#666666"

  /** The `textSettings` prop the panel reads: the members of the card's text
      settings object. */
  function TextOf(settings: map<string, Json>): map<string, Json> {
    Fields(Member(JObj(settings), "textSettings"))
  }

  /** Reading one member of the text settings. */
  function TextMember(settings: map<string, Json>, name: string): Option<Json> {
    Member(JObj(TextOf(settings)), name)
  }

  /** A text-settings update writes one member of the text settings and leaves every
      other card setting alone. */
  lemma TextUpdate(settings: map<string, Json>, name: string, value: Json)
    ensures TextOf(TextSettingsWith(settings, name, value)) == TextOf(settings)[name := value]
    ensures forall k :: k in settings && k != "textSettings" ==> TextSettingsWith(settings, name, value)[k] == settings[k]
  {
  }

  /** The two lines of text a colour applies to. */
  datatype Line = Title | Tagline

  /** The member holding a line's preset colour class. */
  function PresetKey(line: Line): string {
    if line == Title then "titleColor" else "taglineColor"
  }

  /** The member holding a line's custom colour. */
  function CustomKey(line: Line): string {
    if line == Title then "customTitleColor" else "customTaglineColor"
  }

  /** The four colour members are distinct. */
  lemma ColourKeysDistinct()
    ensures forall a: Line, b: Line :: PresetKey(a) != CustomKey(b)
    ensures PresetKey(Title) != PresetKey(Tagline) && CustomKey(Title) != CustomKey(Tagline)
  {
  }

  /** `toggleSetting(name)`: the member set to the negation of its truthiness; a
      missing member counts as false. */
  function Toggled(settings: map<string, Json>, name: string): (r: map<string, Json>)
    ensures TextMember(r, name) == Some(JBool(!TruthyOpt(TextMember(settings, name))))
    ensures forall k :: k != name ==> TextMember(r, k) == TextMember(settings, k)
    ensures r.Keys == settings.Keys + {"textSettings"}
    ensures forall k :: k in settings && k != "textSettings" ==> r[k] == settings[k]
  {
    var r := TextSettingsWith(settings, name, JBool(!TruthyOpt(TextMember(settings, name))));
    TextUpdate(settings, name, JBool(!TruthyOpt(TextMember(settings, name))));
    r
  }

  /** Toggling a boolean member twice gives back the settings it started from. */
  lemma ToggleTwiceRestores(settings: map<string, Json>, name: string)
    requires "textSettings" in settings && settings["textSettings"].JObj?
    requires name in settings["textSettings"].fields && settings["textSettings"].fields[name].JBool?
    ensures Toggled(Toggled(settings, name), name) == settings
  {
    var once := Toggled(settings, name);
    var twice := Toggled(once, name);
    var text := settings["textSettings"].fields;
    TextUpdate(settings, name, JBool(!text[name].b));
    TextUpdate(once, name, JBool(text[name].b));
    assert TextOf(twice) == text[name := JBool(!text[name].b)][name := JBool(text[name].b)];
    assert TextOf(twice) == text;
    assert twice.Keys == settings.Keys;
  }

  /** The card settings after a custom colour is picked for a line
      (`handleCustomTitleColorChange`, `handleCustomTaglineColorChange`): the
      custom member set to the colour, then the preset member cleared. */
  function CustomChosen(settings: map<string, Json>, line: Line, color: string): (r: map<string, Json>)
    ensures TextOf(r) == TextOf(settings)[CustomKey(line) := JStr(color)][PresetKey(line) := JStr("")]
    ensures r.Keys == settings.Keys + {"textSettings"}
    ensures forall k :: k in settings && k != "textSettings" ==> r[k] == settings[k]
  {
    var first := TextSettingsWith(settings, CustomKey(line), JStr(color));
    TextUpdate(settings, CustomKey(line), JStr(color));
    TextUpdate(first, PresetKey(line), JStr(""));
    TextSettingsWith(first, PresetKey(line), JStr(""))
  }

  /** The card settings after a preset colour is clicked for a line: the preset
      member set to its class, then the custom member cleared. */
  function PresetChosen(settings: map<string, Json>, line: Line, value: string): (r: map<string, Json>)
    ensures TextOf(r) == TextOf(settings)[PresetKey(line) := JStr(value)][CustomKey(line) := JStr("")]
    ensures r.Keys == settings.Keys + {"textSettings"}
    ensures forall k :: k in settings && k != "textSettings" ==> r[k] == settings[k]
  {
    var first := TextSettingsWith(settings, PresetKey(line), JStr(value));
    TextUpdate(settings, PresetKey(line), JStr(value));
    TextUpdate(first, CustomKey(line), JStr(""));
    TextSettingsWith(first, CustomKey(line), JStr(""))
  }

  /** At most one of a line's preset and custom colours is set (non-empty). */
  predicate AtMostOneColour(settings: map<string, Json>, line: Line) {
    !(TruthyOpt(TextMember(settings, PresetKey(line))) && TruthyOpt(TextMember(settings, CustomKey(line))))
  }

  /** Picking a custom colour sets it and clears the preset; picking a preset sets
      it and clears the custom colour.  Either way at most one of the pair is set
      afterwards, whatever held before, and no other text member changes. */
  lemma ColourChoicesExclusive(settings: map<string, Json>, line: Line, color: string, value: string)
    ensures TextMember(CustomChosen(settings, line, color), CustomKey(line)) == Some(JStr(color))
    ensures TextMember(CustomChosen(settings, line, color), PresetKey(line)) == Some(JStr(""))
    ensures TextMember(PresetChosen(settings, line, value), PresetKey(line)) == Some(JStr(value))
    ensures TextMember(PresetChosen(settings, line, value), CustomKey(line)) == Some(JStr(""))
    ensures AtMostOneColour(CustomChosen(settings, line, color), line)
    ensures AtMostOneColour(PresetChosen(settings, line, value), line)
    ensures forall k :: k != PresetKey(line) && k != CustomKey(line) ==>
      TextMember(CustomChosen(settings, line, color), k) == TextMember(settings, k) &&
      TextMember(PresetChosen(settings, line, value), k) == TextMember(settings, k)
  {
    ColourKeysDistinct();
  }

  /** A colour action on one line leaves the other line's pair as it was, so a pair
      that held at most one colour still does. */
  lemma ColourChoiceKeepsOtherLine(settings: map<string, Json>, line: Line, other: Line, color: string)
    requires other != line && AtMostOneColour(settings, other)
    ensures AtMostOneColour(CustomChosen(settings, line, color), other)
    ensures AtMostOneColour(PresetChosen(settings, line, color), other)
  {
    ColourKeysDistinct();
    ColourChoicesExclusive(settings, line, color, color);
  }

  /** The letter-spacing slider's position, `letterSpacing || 2`, as written. */
  function SliderValue(settings: map<string, Json>): (v: Json)
    ensures TruthyOpt(TextMember(settings, "letterSpacing")) ==> Some(v) == TextMember(settings, "letterSpacing")
    ensures !TruthyOpt(TextMember(settings, "letterSpacing")) ==> v == JNum(2)
  {
    OrElse(TextMember(settings, "letterSpacing"), JNum(2))
  }

  /** The slider's position as evidently intended, `letterSpacing ?? 2`: the default
      only for a missing value. */
  function SliderValueNullish(settings: map<string, Json>): (v: Json)
    ensures TextMember(settings, "letterSpacing").Some? && TextMember(settings, "letterSpacing") != Some(JNull) ==>
      Some(v) == TextMember(settings, "letterSpacing")
    ensures TextMember(settings, "letterSpacing").None? || TextMember(settings, "letterSpacing") == Some(JNull) ==>
      v == JNum(2)
  {
    var m := TextMember(settings, "letterSpacing");
    if m.None? || m == Some(JNull) then JNum(2) else m.value
  }

  /** The panel's own state, and the editor it sends changes to. */
  class Panel {
    /** The last custom colour picked for each line. */
    var customTitleColor: string
    var customTaglineColor: string
    /** Whether each colour picker is open. */
    var showTitleColorPicker: bool
    var showTaglineColorPicker: bool
    /** The card editor owning the settings (`onTextSettingsChange`). */
    const editor: Editor

    constructor(editor: Editor)
      ensures customTitleColor == InitialCustomTitleColor && customTaglineColor == InitialCustomTaglineColor
      ensures !showTitleColorPicker && !showTaglineColorPicker && this.editor == editor
    {
      customTitleColor := InitialCustomTitleColor;
      customTaglineColor := InitialCustomTaglineColor;
      showTitleColorPicker := false;
      showTaglineColorPicker := false;
      this.editor := editor;
    }

    /** The last custom colour picked for a line. */
    function LocalCustom(line: Line): string
      reads this
    {
      if line == Title then customTitleColor else customTaglineColor
    }

    /** The colour the custom swatch, the picker and the text box show:
        `textSettings.custom…Color || custom…Color`. */
    function DisplayedCustomColour(line: Line): (c: string)
      reads this, editor
      ensures TruthyOpt(TextMember(editor.cardSettings, CustomKey(line))) ==>
        c == Text(TextMember(editor.cardSettings, CustomKey(line)).value)
      ensures !TruthyOpt(TextMember(editor.cardSettings, CustomKey(line))) ==> c == LocalCustom(line)
    {
      var m := TextMember(editor.cardSettings, CustomKey(line));
      if TruthyOpt(m) then Text(m.value) else LocalCustom(line)
    }

    /** The colour of the letter on the custom swatch: black or white against the
        displayed custom colour. */
    function SwatchLetterColour(line: Line): (c: string)
      reads this, editor
      ensures c == Black || c == White
      ensures |DisplayedCustomColour(line)| < 7 ==> c == Black
    {
      ContrastColor(Some(DisplayedCustomColour(line)))
    }

    /** `handleChange(name, value)`: forwarded as it is. */
    method HandleChange(name: string, value: Json)
      modifies editor
      ensures editor.cardSettings == TextSettingsWith(old(editor.cardSettings), name, value)
      ensures editor.OnlyCardSettingsChanged()
    {
      editor.HandleTextSettingsChange(name, value);
    }

    /** `toggleSetting(name)`, as the bold and italic buttons use it. */
    method ToggleSetting(name: string)
      modifies editor
      ensures editor.cardSettings == Toggled(old(editor.cardSettings), name)
      ensures editor.OnlyCardSettingsChanged()
    {
      var current := TextMember(editor.cardSettings, name);
      editor.HandleTextSettingsChange(name, JBool(!TruthyOpt(current)));
    }

    /** The slider's `onChange`: the range input gives the numeral of its position,
        which `parseInt` reads back. */
    method SetLetterSpacing(position: nat)
      modifies editor
      ensures editor.cardSettings == TextSettingsWith(old(editor.cardSettings), "letterSpacing", JNum(position))
      ensures editor.OnlyCardSettingsChanged()
    {
      var parsed := ParseInt(NatToString(position), 10);
      ParseIntNatToString(position, 10);
      editor.HandleTextSettingsChange("letterSpacing", JNum(parsed.value));
    }

    /** `handleCustomTitleColorChange(color)` and its tagline twin: the panel
        remembers the colour, then the custom member is set and the preset member
        cleared. */
    method ChooseCustomColour(line: Line, color: string)
      modifies this, editor
      ensures LocalCustom(line) == color
      ensures line == Title ==> customTaglineColor == old(customTaglineColor)
      ensures line == Tagline ==> customTitleColor == old(customTitleColor)
      ensures showTitleColorPicker == old(showTitleColorPicker) && showTaglineColorPicker == old(showTaglineColorPicker)
      ensures editor.cardSettings == CustomChosen(old(editor.cardSettings), line, color)
      ensures editor.OnlyCardSettingsChanged()
      ensures color != "" ==> DisplayedCustomColour(line) == color
    {
      if line == Title {
        customTitleColor := color;
      } else {
        customTaglineColor := color;
      }
      editor.HandleTextSettingsChange(CustomKey(line), JStr(color));
      editor.HandleTextSettingsChange(PresetKey(line), JStr(""));
      ColourChoicesExclusive(old(editor.cardSettings), line, color, color);
    }

    /** A preset colour button: the preset member set, the custom member cleared.
        The panel's remembered custom colour is kept, so the custom swatch then
        shows the last colour picked. */
    method ChoosePresetColour(line: Line, value: string)
      modifies editor
      ensures editor.cardSettings == PresetChosen(old(editor.cardSettings), line, value)
      ensures editor.OnlyCardSettingsChanged()
      ensures DisplayedCustomColour(line) == LocalCustom(line)
    {
      editor.HandleTextSettingsChange(PresetKey(line), JStr(value));
      editor.HandleTextSettingsChange(CustomKey(line), JStr(""));
      ColourChoicesExclusive(old(editor.cardSettings), line, value, value);
    }

    /** The custom swatch's click: its picker opens or closes. */
    method TogglePicker(line: Line)
      modifies this
      ensures line == Title ==> showTitleColorPicker == !old(showTitleColorPicker) && showTaglineColorPicker == old(showTaglineColorPicker)
      ensures line == Tagline ==> showTaglineColorPicker == !old(showTaglineColorPicker) && showTitleColorPicker == old(showTitleColorPicker)
      ensures customTitleColor == old(customTitleColor) && customTaglineColor == old(customTaglineColor)
    {
      if line == Title {
        showTitleColorPicker := !showTitleColorPicker;
      } else {
        showTaglineColorPicker := !showTaglineColorPicker;
      }
    }

    /** The picker's close button. */
    method ClosePicker(line: Line)
      modifies this
      ensures line == Title ==> !showTitleColorPicker && showTaglineColorPicker == old(showTaglineColorPicker)
      ensures line == Tagline ==> !showTaglineColorPicker && showTitleColorPicker == old(showTitleColorPicker)
      ensures customTitleColor == old(customTitleColor) && customTaglineColor == old(customTaglineColor)
    {
      if line == Title {
        showTitleColorPicker := false;
      } else {
        showTaglineColorPicker := false;
      }
    }
  }
}
