/** The add-widget drawer: the colour helper that darkens or lightens a
    card's hex colour, and the JSON import that validates a pasted record
    before adding a widget of its type. */
module WidgetDrawer {
  import opened Text
  import opened Numerals
  import opened WidgetRecords
  import WidgetStore
  import Debounce

  // ---------------------------------------------------------------------
  // Colour adjustment

  /** One colour channel moved by `amount` and kept in [0, 255]. */
  function ClampByte(v: int): (r: int)
    ensures 0 <= r <= 255
    ensures 0 <= v <= 255 ==> r == v
    ensures v < 0 ==> r == 0
    ensures v > 255 ==> r == 255
  {
    if v < 0 then 0 else if v > 255 then 255 else v
  }

  datatype Rgb = Rgb(red: int, green: int, blue: int)

  predicate IsRgb(c: Rgb) {
    0 <= c.red <= 255 && 0 <= c.green <= 255 && 0 <= c.blue <= 255
  }

  /** `num >> 16`, `(num >> 8) & 0xff` and `num & 0xff` for a 24-bit value. */
  function Channels(num: nat): (c: Rgb)
    requires num < 0x100_0000
    ensures IsRgb(c)
  {
    Rgb(num / 0x1_0000, (num / 0x100) % 0x100, num % 0x100)
  }

  /** `(r << 16) | (g << 8) | b` for channels in [0, 255]: the bit fields do
      not overlap, so the or is a sum. */
  function Pack(c: Rgb): (num: nat)
    requires IsRgb(c)
    ensures num < 0x100_0000
  {
    c.red * 0x1_0000 + c.green * 0x100 + c.blue
  }

  lemma DivModUnique(q: int, rem: int, d: int)
    requires d > 0 && 0 <= rem < d
    ensures (q * d + rem) / d == q && (q * d + rem) % d == rem
  {
    var n := q * d + rem;
    var k := n / d - q;
    assert k * d == rem - n % d;
    MulSmall(k, d);
  }

  /** A multiple of `d` strictly between -d and d is 0. */
  lemma MulSmall(k: int, d: int)
    requires d > 0 && -d < k * d < d
    ensures k == 0
  {
    MulAwayFromZero(k, d);
  }

  lemma MulAwayFromZero(k: int, d: int)
    requires d > 0
    ensures k >= 1 ==> k * d >= d
    ensures k <= -1 ==> k * d <= -d
  {
    if k >= 1 {
      assert k * d == (k - 1) * d + d;
    } else if k <= -1 {
      assert k * d == (k + 1) * d - d;
    }
  }

  /** Unpacking what was packed gives back the channels. */
  lemma ChannelsPack(c: Rgb)
    requires IsRgb(c)
    ensures Channels(Pack(c)) == c
  {
    var n := Pack(c);
    DivModUnique(c.red, c.green * 0x100 + c.blue, 0x1_0000);
    DivModUnique(c.red * 0x100 + c.green, c.blue, 0x100);
    assert n == (c.red * 0x100 + c.green) * 0x100 + c.blue;
    DivModUnique(c.red, c.green, 0x100);
  }

  /** Packing what was unpacked gives back the number. */
  lemma PackChannels(num: nat)
    requires num < 0x100_0000
    ensures Pack(Channels(num)) == num
  {
    var hi := num / 0x100;
    assert num == hi * 0x100 + num % 0x100;
    assert hi == (hi / 0x100) * 0x100 + hi % 0x100;
    assert hi / 0x100 == num / 0x1_0000;
  }

  function Adjusted(c: Rgb, amount: int): (r: Rgb)
    ensures IsRgb(r)
  {
    Rgb(ClampByte(c.red + amount), ClampByte(c.green + amount), ClampByte(c.blue + amount))
  }

  /** The colour without one leading '#'. */
  function StripHash(color: string): (hex: string)
    ensures StartsWith(color, "#") ==> hex == color[1..]
    ensures !StartsWith(color, "#") ==> hex == color
  {
    if |color| > 0 && color[0] == '#' then color[1..] else color
  }

  /** What the helper is applied to: six hex digits, with or without '#'. */
  predicate IsHexColor(color: string) {
    var hex := StripHash(color);
    |hex| == 6 && AllDigits(hex, 16)
  }

  /** The channels a hex colour denotes. */
  function ColorOf(color: string): (c: Rgb)
    requires IsHexColor(color)
    ensures IsRgb(c)
  {
    var hex := StripHash(color);
    ValueOfBound(hex, 16);
    assert Pow(16, 6) == 0x100_0000;
    Channels(ValueOf(hex, 16))
  }

  /** `adjustColor(color, amount)`: the result is always '#' and six hex
      digits. */
  function AdjustColor(color: string, amount: int): (out: string)
    requires IsHexColor(color)
    ensures |out| == 7 && out[0] == '#'
    ensures IsHexColor(out)
  {
    var num := Pack(Adjusted(ColorOf(color), amount));
    var digits := ToBase(num, 16);
    assert Pow(16, 6) == 0x100_0000;
    ToBaseLength(num, 16, 6);
    ValueOfLeadingZeros(6 - |digits|, digits, 16);
    var out := "#" + PadStart(digits, 6, '0');
    assert StripHash(out) == PadStart(digits, 6, '0');
    out
  }

  /** Each channel of the result is the input channel plus `amount`,
      clamped to [0, 255]. */
  lemma AdjustColorChannels(color: string, amount: int)
    requires IsHexColor(color)
    ensures ColorOf(AdjustColor(color, amount)) == Adjusted(ColorOf(color), amount)
  {
    var c := Adjusted(ColorOf(color), amount);
    AdjustColorValue(color, amount);
    ChannelsPack(c);
  }

  /** The six digits of the result read back as the packed adjusted colour. */
  lemma AdjustColorValue(color: string, amount: int)
    requires IsHexColor(color)
    ensures ValueOf(StripHash(AdjustColor(color, amount)), 16) == Pack(Adjusted(ColorOf(color), amount))
  {
    var num := Pack(Adjusted(ColorOf(color), amount));
    assert StripHash(AdjustColor(color, amount)) == PadStart(ToBase(num, 16), 6, '0');
    PaddedHexValue(num);
  }

  /** Six zero-padded hex digits read back as the number. */
  lemma PaddedHexValue(num: nat)
    requires num < 0x100_0000
    ensures ValueOf(PadStart(ToBase(num, 16), 6, '0'), 16) == num
  {
    var digits := ToBase(num, 16);
    assert Pow(16, 6) == 0x100_0000;
    ToBaseLength(num, 16, 6);
    ValueOfLeadingZeros(|PadStart(digits, 6, '0')| - |digits|, digits, 16);
    ValueOfToBase(num, 16);
  }

  /** Adjusting by 0 keeps the colour. */
  lemma AdjustByZero(color: string)
    requires IsHexColor(color)
    ensures ColorOf(AdjustColor(color, 0)) == ColorOf(color)
  {
    AdjustColorChannels(color, 0);
  }

  /** Darkening never raises a channel, and lightening never lowers one. */
  lemma AdjustMonotone(color: string, amount: int)
    requires IsHexColor(color)
    ensures var before, after := ColorOf(color), ColorOf(AdjustColor(color, amount));
            amount <= 0 ==> after.red <= before.red && after.green <= before.green && after.blue <= before.blue
    ensures var before, after := ColorOf(color), ColorOf(AdjustColor(color, amount));
            amount >= 0 ==> after.red >= before.red && after.green >= before.green && after.blue >= before.blue
  {
    AdjustColorChannels(color, amount);
  }

  // ---------------------------------------------------------------------
  // JSON import

  /** A parsed JSON value. */
  datatype Json = JNull | JBool(b: bool) | JNumber(n: real) | JString(s: string)
                | JArray(items: seq<Json>) | JObject(fields: map<string, Json>)

  /** The string each widget type is stored as. */
  function TypeName(k: WidgetType): string {
    match k
    case Weather => "weather"
    case Bookmark => "bookmark"
    case Iframe => "iframe"
    case Datetime => "datetime"
    case Search => "search"
  }

  /** `Object.values(WidgetType).includes(s)`, with the type found. */
  function TypeOfName(s: string): (r: Option<WidgetType>)
    ensures r.Some? ==> TypeName(r.value) == s
    ensures forall k :: TypeName(k) == s ==> r == Some(k)
  {
    if s == "weather" then Some(Weather)
    else if s == "bookmark" then Some(Bookmark)
    else if s == "iframe" then Some(Iframe)
    else if s == "datetime" then Some(Datetime)
    else if s == "search" then Some(Search)
    else None
  }

  /** JavaScript falsiness of a property value; None is `undefined`. */
  predicate Falsy(v: Option<Json>) {
    match v
    case None => true
    case Some(j) => j == JNull || j == JBool(false) || j == JNumber(0.0) || j == JString("")
  }

  /** `value.type` for a value that is not null: only objects have the
      property. */
  function TypeProperty(v: Json): Option<Json>
    requires v != JNull
  {
    if v.JObject? && "type" in v.fields then Some(v.fields["type"]) else None
  }

  /** Why an import was refused: blank input; text that does not parse, or
      parses to null (reading `.type` of null throws into the same catch);
      no truthy `type`; a `type` that names no widget type. */
  datatype ImportError = EmptyInput | InvalidJson | MissingType | InvalidType(value: Json)

  /** The fixed text shown for an error (the parser's own message and the
      rejected value follow it where the handler appends them). */
  function ErrorText(e: ImportError): string {
    match e
    case EmptyInput => "Please enter valid JSON data"
    case InvalidJson => "Invalid JSON: "
    case MissingType => "JSON must include at least a 'type' field"
    case InvalidType(_) => "Invalid widget type: "
  }

  datatype ImportResult = Accepted(kind: WidgetType) | Rejected(error: ImportError)

  /** The checks of `handleJsonImport`, in order, each returning early;
      `parse` stands for `JSON.parse`, None for a syntax error. */
  function ValidateImport(input: string, parse: string -> Option<Json>): (r: ImportResult)
    ensures r.Accepted? ==> !AllWhitespace(input) && parse(input).Some?
  {
    if Trim(input) == [] then Rejected(EmptyInput)
    else match parse(input)
      case None => Rejected(InvalidJson)
      case Some(v) =>
        if v == JNull then Rejected(InvalidJson)
        else
          var t := TypeProperty(v);
          if Falsy(t) then Rejected(MissingType)
          else if t.value.JString? && TypeOfName(t.value.s).Some? then Accepted(TypeOfName(t.value.s).value)
          else Rejected(InvalidType(t.value))
  }

  /** The checks both ways: blank input is refused first; then text that
      does not parse (or parses to null); a value is accepted exactly when
      it is an object whose `type` is the name of a widget type, and the
      type accepted is the one named. */
  lemma ImportRules(input: string, parse: string -> Option<Json>)
    ensures var r := ValidateImport(input, parse);
            AllWhitespace(input) <==> r == Rejected(EmptyInput)
    ensures var r := ValidateImport(input, parse);
            r == Rejected(InvalidJson) <==>
              !AllWhitespace(input) && (parse(input).None? || parse(input) == Some(JNull))
    ensures var r := ValidateImport(input, parse);
            r.Accepted? <==>
              !AllWhitespace(input) && parse(input).Some? && parse(input).value.JObject? &&
              "type" in parse(input).value.fields &&
              parse(input).value.fields["type"].JString? &&
              TypeOfName(parse(input).value.fields["type"].s).Some?
    ensures var r := ValidateImport(input, parse);
            r.Accepted? ==> parse(input).value.fields["type"] == JString(TypeName(r.kind))
  {
  }

  /** The drawer's state and the store it adds to. */
  class ImportForm {
    /** `jsonInput` */
    var jsonInput: string
    /** `jsonError`; None is `null`. */
    var jsonError: Option<ImportError>
    /** `isOpen` */
    var isOpen: bool
    /** The shared edit-mode flag the drawer switches on. */
    var editMode: bool
    /** The `use-widget` store `addWidget` belongs to. */
    const store: WidgetStore.WidgetStore
    /** The default record of each widget type. */
    const registry: WidgetType -> Widget

    ghost predicate Valid()
      reads store
    {
      store.Valid()
    }

    constructor (s: WidgetStore.WidgetStore, defaults: WidgetType -> Widget)
      ensures store == s && registry == defaults
      ensures jsonInput == "" && jsonError.None? && !isOpen
    {
      store := s;
      registry := defaults;
      jsonInput := "";
      jsonError := None;
      isOpen := false;
      editMode := false;
    }

    method SetJsonInput(text: string)
      modifies this
      ensures jsonInput == text
      ensures jsonError == old(jsonError) && isOpen == old(isOpen) && editMode == old(editMode)
    {
      jsonInput := text;
    }

    /** `setJsonError` */
    method SetJsonError(e: Option<ImportError>)
      modifies this
      ensures jsonError == e
      ensures jsonInput == old(jsonInput) && isOpen == old(isOpen) && editMode == old(editMode)
    {
      jsonError := e;
    }

    /** `setIsOpen(false)` then `setEditMode(true)`. */
    method CloseForEditing()
      modifies this
      ensures !isOpen && editMode
      ensures jsonInput == old(jsonInput) && jsonError == old(jsonError)
    {
      isOpen := false;
      editMode := true;
    }

    /** The form is cleared (`setJsonInput("")`, `setJsonError(null)`) and
        the drawer closed for editing. */
    method ClearAndClose()
      modifies this
      ensures jsonInput == "" && jsonError.None? && !isOpen && editMode
    {
      SetJsonInput("");
      SetJsonError(None);
      CloseForEditing();
    }

    /** `handleAddWidget(type)`: one widget of that type is added, the drawer
        closes and edit mode is switched on. */
    method HandleAddWidget(kind: WidgetType)
      requires Valid()
      modifies this, store
      ensures Valid()
      ensures WidgetStore.AppendsFreshCopy(old(store.widgets), store.widgets, registry(kind))
      ensures store.nextId == old(store.nextId) + 1
      ensures store.saveSlot == Debounce.Pending(store.widgets) && store.lastWritten == old(store.lastWritten)
      ensures !isOpen && editMode
      ensures jsonInput == old(jsonInput) && jsonError == old(jsonError)
    {
      var _ := store.AddWidget(kind, registry);
      CloseForEditing();
    }

    /** A failed check of `handleJsonImport`: only the error is set. */
    method RejectImport(e: ImportError)
      requires Valid()
      modifies this
      ensures Valid()
      ensures jsonError == Some(e) && jsonInput == old(jsonInput)
      ensures isOpen == old(isOpen) && editMode == old(editMode)
      ensures store.widgets == old(store.widgets) && store.nextId == old(store.nextId)
      ensures store.saveSlot == old(store.saveSlot) && store.lastWritten == old(store.lastWritten)
    {
      SetJsonError(Some(e));
    }

    /** The success path of `handleJsonImport`: `addWidget(type)`, then the
        form is cleared and the drawer closed for editing. */
    method AcceptImport(kind: WidgetType)
      requires Valid()
      modifies this, store
      ensures Valid()
      ensures WidgetStore.AppendsFreshCopy(old(store.widgets), store.widgets, registry(kind))
      ensures store.nextId == old(store.nextId) + 1
      ensures store.saveSlot == Debounce.Pending(store.widgets) && store.lastWritten == old(store.lastWritten)
      ensures jsonInput == "" && jsonError.None? && !isOpen && editMode
    {
      var _ := store.AddWidget(kind, registry);
      ClearAndClose();
    }

    /** `handleJsonImport`: a rejected input only sets the error; nothing is
        added and the drawer stays as it was. An accepted one adds exactly
        one widget of the named type (the registry default: the other
        imported fields are not passed on), clears the input and the error,
        closes the drawer and switches edit mode on. */
    method HandleJsonImport(parse: string -> Option<Json>) returns (r: ImportResult)
      requires Valid()
      modifies this, store
      ensures Valid()
      ensures r == ValidateImport(old(jsonInput), parse)
      ensures r.Rejected? ==>
                jsonError == Some(r.error) && store.widgets == old(store.widgets) &&
                store.nextId == old(store.nextId) && store.saveSlot == old(store.saveSlot) &&
                store.lastWritten == old(store.lastWritten) && jsonInput == old(jsonInput) &&
                isOpen == old(isOpen) && editMode == old(editMode)
      ensures r.Accepted? ==>
                WidgetStore.AppendsFreshCopy(old(store.widgets), store.widgets, registry(r.kind)) &&
                store.nextId == old(store.nextId) + 1 && store.saveSlot == Debounce.Pending(store.widgets) && store.lastWritten == old(store.lastWritten) &&
                jsonInput == "" && jsonError.None? && !isOpen && editMode
    {
      r := ValidateImport(jsonInput, parse);
      if r.Rejected? {
        RejectImport(r.error);
      } else {
        AcceptImport(r.kind);
      }
    }
  }
}
