/**
 * The content panel of the card editor: an edit buffer over the product record with
 * two states, idle and editing.  Starting an edit copies the record into the buffer,
 * input changes touch only the buffer, saving hands the buffer to the editor once,
 * and cancelling throws it away.  The media and count inputs coerce what is typed
 * before it reaches the buffer.
 */
module ContentControls {
  import opened Wrappers
  import opened JsValue
  import opened JsText
  import opened CardCreator

  /** `{...productData}`: the members of an object, none for anything else. */
  function Spread(productData: Json): (r: map<string, Json>)
    ensures productData.JObj? ==> r == productData.fields
    ensures !productData.JObj? ==> r == map[]
  {
    Fields(Some(productData))
  }

  /** What the media input stores for the typed text: a one-item list, or the empty
      list for empty text; any further items are dropped. */
  function MediaValue(typed: string): (v: Json)
    ensures v.JArr? && |v.items| <= 1
    ensures typed == "" <==> v.items == []
    ensures typed != "" ==> v.items[0] == JStr(typed)
  {
    JArr(if typed == "" then [] else [JStr(typed)])
  }

  /** `v[0]` on a defined value: the first item of a list, the first character of a
      string, member `"0"` of an object, `undefined` otherwise. */
  function First(v: Json): (r: Option<Json>)
    ensures v.JArr? ==> (r.Some? <==> v.items != [])
    ensures v.JArr? && v.items != [] ==> r == Some(v.items[0])
  {
    match v
    case JArr(items) => if items == [] then None else Some(items[0])
    case JStr(s) => if s == [] then None else Some(JStr([s[0]]))
    case JObj(fields) => Member(v, "0")
    case _ => None
  }

  /** The value the media input shows: `media && media[0] ? media[0] : ''`. */
  function ShownMedia(data: map<string, Json>): (v: Json)
    ensures "media" !in data ==> v == JStr("")
  {
    var media := Member(JObj(data), "media");
    if TruthyOpt(media) && TruthyOpt(First(media.value)) then First(media.value).value else JStr("")
  }

  /** Typing into the media input shows exactly what was typed, the empty text
      included. */
  lemma MediaInputShown(data: map<string, Json>, typed: string)
    ensures ShownMedia(data["media" := MediaValue(typed)]) == JStr(typed)
  {
    var d := data["media" := MediaValue(typed)];
    assert Member(JObj(d), "media") == Some(MediaValue(typed));
  }

  /** What a count input stores: `parseInt(typed) || 0`.  NaN and zero both give 0. */
  function CountValue(typed: string): (v: Json)
    ensures v.JNum?
    ensures ParseInt(typed, 0).None? ==> v == JNum(0)
    ensures ParseInt(typed, 0).Some? ==> v == JNum(ParseInt(typed, 0).value)
  {
    var parsed := ParseInt(typed, 0);
    OrElse(if parsed.None? then None else Some(JNum(parsed.value)), JNum(0))
  }

  /** The value a count input shows: `count || 0`. */
  function ShownCount(data: map<string, Json>, field: string): (v: Json)
    ensures !TruthyOpt(Member(JObj(data), field)) ==> v == JNum(0)
  {
    OrElse(Member(JObj(data), field), JNum(0))
  }

  /** A stored count shows as itself, zero included. */
  lemma StoredCountShown(data: map<string, Json>, field: string, v: Json)
    requires v.JNum?
    ensures ShownCount(data[field := v], field) == v
  {
    assert Member(JObj(data[field := v]), field) == Some(v);
  }

  /** Typing the numeral of a count stores that count and shows it back. */
  lemma CountInputRoundTrip(data: map<string, Json>, field: string, n: nat)
    ensures CountValue(NatToString(n)) == JNum(n)
    ensures ShownCount(data[field := CountValue(NatToString(n))], field) == JNum(n)
  {
    ParseIntNatToString(n, 0);
    StoredCountShown(data, field, JNum(n));
  }

  /** The panel's state.  `editor` is the card editor: its `productData` is the
      panel's `productData` prop and its `HandleProductDataChange` the
      `onProductDataChange` callback. */
  class Panel {
    /** The edit buffer. */
    var editedData: map<string, Json>
    var isEditing: bool
    /** Every value passed to `onProductDataChange`, in order. */
    var saved: seq<Json>
    const editor: Editor

    /** The buffer starts as a copy of the record the panel was mounted with. */
    constructor(editor: Editor)
      ensures editedData == Spread(editor.productData) && !isEditing && saved == []
      ensures this.editor == editor
    {
      editedData := Spread(editor.productData);
      isEditing := false;
      saved := [];
      this.editor := editor;
    }

    /** `handleStartEdit`: copy the current record into the buffer and start editing. */
    method StartEdit()
      modifies this
      ensures isEditing && editedData == Spread(editor.productData)
      ensures saved == old(saved)
    {
      editedData := Spread(editor.productData);
      isEditing := true;
    }

    /** `handleInputChange(field, value)`: only that member of the buffer changes; the
        record itself is untouched. */
    method InputChange(field: string, value: Json)
      modifies this
      ensures editedData == old(editedData)[field := value]
      ensures editedData.Keys == old(editedData).Keys + {field}
      ensures editedData[field] == value
      ensures forall k :: k in old(editedData) && k != field ==> editedData[k] == old(editedData)[k]
      ensures isEditing == old(isEditing) && saved == old(saved)
      ensures editor.productData == old(editor.productData)
    {
      editedData := editedData[field := value];
    }

    /** The media input's change handler. */
    method MediaInput(typed: string)
      modifies this
      ensures ShownMedia(editedData) == JStr(typed)
      ensures editedData == old(editedData)["media" := MediaValue(typed)]
      ensures isEditing == old(isEditing) && saved == old(saved)
    {
      MediaInputShown(editedData, typed);
      InputChange("media", MediaValue(typed));
    }

    /** The votes or comments input's change handler: the input then shows what was
        stored, since a stored 0 and the fallback 0 agree. */
    method CountInput(field: string, typed: string)
      modifies this
      ensures editedData == old(editedData)[field := CountValue(typed)]
      ensures ShownCount(editedData, field) == CountValue(typed)
      ensures isEditing == old(isEditing) && saved == old(saved)
    {
      var v := CountValue(typed);
      StoredCountShown(editedData, field, v);
      InputChange(field, v);
    }

    /** `handleSaveEdit`: the buffer goes to the editor exactly once, and editing
        stops.  The buffer keeps its contents. */
    method SaveEdit()
      modifies this, editor
      ensures saved == old(saved) + [JObj(old(editedData))]
      ensures editor.productData == JObj(old(editedData))
      ensures Spread(editor.productData) == editedData == old(editedData)
      ensures !isEditing
      ensures editor.cardSettings == old(editor.cardSettings) && editor.exportSettings == old(editor.exportSettings)
      ensures editor.downloads == old(editor.downloads)
      ensures editor.productUrl == old(editor.productUrl) && editor.loading == old(editor.loading)
      ensures editor.error == old(editor.error) && editor.showExportOptions == old(editor.showExportOptions)
    {
      var data := JObj(editedData);
      editor.HandleProductDataChange(data);
      saved := saved + [data];
      isEditing := false;
    }

    /** `handleCancelEdit`: the buffer is reset to the record, editing stops, and the
        editor is not called. */
    method CancelEdit()
      modifies this
      ensures editedData == Spread(editor.productData) && !isEditing
      ensures saved == old(saved) && editor.productData == old(editor.productData)
    {
      editedData := Spread(editor.productData);
      isEditing := false;
    }
  }
}
