/** The LS-1000 text protocol: one message per line, `<type>:<comma separated fields>`. */
module Ls1000 {
  import opened Positions
  import opened Text
  import opened Numbers
  import opened Scanning

  datatype Event = Event(tagId: string, ts: int, x: Option<real>, y: Option<real>, z: Option<real>,
                         layer: Option<int>, area: Option<string>, status: Option<string>,
                         sourceType: string, raw: string, lng: Option<real>, lat: Option<real>)

  datatype Code =
    | EmptyMessage | InvalidFormat | UnsupportedType | UnknownType
    | InvalidPayload | InvalidTimestamp | InvalidCoordinates

  /** A message in JSON goes another way, which is not part of this model. */
  datatype Outcome = Parsed(event: Event) | Rejected(code: Code, raw: string, sourceType: string) | Json(raw: string)

  const UNKNOWN := "unknown"
  const BASE_TYPES: set<string> := {"display", "status1", "status2", "gpsposi"}
  const UNSUPPORTED_TYPES: set<string> := {"warning", "summary", "rawdata"}

  function SafeToken(tokens: seq<string>, index: nat): Option<string> {
    if index >= |tokens| then None
    else
      var token := Strip(tokens[index]);
      if token == "" then None else Some(token)
  }

  function OptionalInt(tokens: seq<string>, index: nat): Option<int> {
    if index < |tokens| then ParseInt(tokens[index]) else None
  }

  function OptionalFloat(tokens: seq<string>, index: nat): Option<real> {
    if index < |tokens| then ParseFloat(tokens[index]) else None
  }

  datatype Coordinates = Coordinates(x: Option<real>, y: Option<real>, z: Option<real>)

  const NOWHERE := Coordinates(None, None, None)

  /** Three numeric fields, or else three numbers packed into the first of them. */
  function ExtractXyz(tokens: seq<string>, start: nat): Coordinates {
    var plain :=
      if |tokens| >= start + 3
      then Coordinates(ParseFloat(tokens[start]), ParseFloat(tokens[start + 1]), ParseFloat(tokens[start + 2]))
      else NOWHERE;
    if plain.x.Some? && plain.y.Some? && plain.z.Some? then plain
    else if |tokens| > start then
      var found := FindAll(MatchLength, tokens[start]);
      if |found| >= 3 then Coordinates(ParseFloat(found[0]), ParseFloat(found[1]), ParseFloat(found[2])) else NOWHERE
    else NOWHERE
  }

  function ParseDisplay(raw: string, tokens: seq<string>): Outcome {
    if |tokens| < 5 then Rejected(InvalidPayload, raw, "display")
    else
      var ts := ParseInt(tokens[3]);
      if ts.None? then Rejected(InvalidTimestamp, raw, "display")
      else
        var c := ExtractXyz(tokens, 5);
        Parsed(Event(tokens[1], ts.value, c.x, c.y, c.z, ParseInt(tokens[4]),
                     if c.x.None? then SafeToken(tokens, 6) else None, None, "display", raw, None, None))
  }

  function ParseStatus1(raw: string, tokens: seq<string>): Outcome {
    if |tokens| < 6 then Rejected(InvalidPayload, raw, "status1")
    else
      var ts := ParseInt(tokens[3]);
      if ts.None? then Rejected(InvalidTimestamp, raw, "status1")
      else Parsed(Event(tokens[2], ts.value, None, None, None, ParseInt(tokens[5]), None, SafeToken(tokens, 7), "status1", raw, None, None))
  }

  function ParseStatus2(raw: string, tokens: seq<string>): Outcome {
    if |tokens| < 4 then Rejected(InvalidPayload, raw, "status2")
    else
      var ts := ParseInt(tokens[3]);
      if ts.None? then Rejected(InvalidTimestamp, raw, "status2")
      else Parsed(Event(tokens[1], ts.value, None, None, None, OptionalInt(tokens, 4), None, None, "status2", raw, None, None))
  }

  function ParseGpsPosi(raw: string, tokens: seq<string>): Outcome {
    if |tokens| < 7 then Rejected(InvalidPayload, raw, "gpsposi")
    else
      var ts := ParseInt(tokens[3]);
      if ts.None? then Rejected(InvalidTimestamp, raw, "gpsposi")
      else
        var lng, lat := ParseFloat(tokens[5]), ParseFloat(tokens[6]);
        if lng.None? || lat.None? then Rejected(InvalidCoordinates, raw, "gpsposi")
        else Parsed(Event(tokens[1], ts.value, None, None, OptionalFloat(tokens, 7), ParseInt(tokens[4]), None, None, "gpsposi", raw, lng, lat))
  }

  function StripAll(parts: seq<string>): seq<string> {
    seq(|parts|, i requires 0 <= i < |parts| => Strip(parts[i]))
  }

  function Tokens(payload: string): seq<string> {
    StripAll(Split(payload, ','))
  }

  predicate AllEmpty(tokens: seq<string>) {
    forall i :: 0 <= i < |tokens| ==> tokens[i] == ""
  }

  function ParseFields(raw: string, sourceType: string, tokens: seq<string>): Outcome {
    if AllEmpty(tokens) then Rejected(InvalidPayload, raw, sourceType)
    else if sourceType == "display" then ParseDisplay(raw, tokens)
    else if sourceType == "status1" then ParseStatus1(raw, tokens)
    else if sourceType == "status2" then ParseStatus2(raw, tokens)
    else ParseGpsPosi(raw, tokens)
  }

  function ParseMessage(rawMessage: string): Outcome {
    var raw := Strip(rawMessage);
    if raw == "" then Rejected(EmptyMessage, rawMessage, UNKNOWN)
    else if raw[0] == '{' then Json(rawMessage)
    else if ':' !in raw then Rejected(InvalidFormat, rawMessage, UNKNOWN)
    else
      var (typeName, payload) := Cut(raw, ':');
      var sourceType := Lower(Strip(typeName));
      if sourceType in UNSUPPORTED_TYPES then Rejected(UnsupportedType, rawMessage, sourceType)
      else if sourceType !in BASE_TYPES then Rejected(UnknownType, rawMessage, sourceType)
      else ParseFields(rawMessage, sourceType, Tokens(payload))
  }

  // Records and how they are written.

  /** A text that may stand in a field: without commas, without white space at its ends. */
  predicate Field(s: string) {
    Trimmed(s) && Free(s, ',')
  }

  predicate Fields(fs: seq<string>) {
    forall i :: 0 <= i < |fs| ==> Field(fs[i])
  }

  /** A layer field: a number, or a text that is read as no layer, usually empty. */
  datatype Layer = Level(n: int) | NoLevel(text: string)

  /** A number field that need not hold a number. */
  datatype Reading = Number(l: Literal) | NoNumber(text: string)

  /** Where a display record says the tag is: three numeric fields, one field that packs three
      numbers between other text, or fields that give no coordinates. */
  datatype Where =
    | Numeric(x: Literal, y: Literal, z: Literal, more: seq<string>)
    | InOneField(before: string, x: Literal, sep0: string, y: Literal, sep1: string, z: Literal, after: string, more: seq<string>)
    | Unlocated(fields: seq<string>)

  /** Whatever follows the fields a type demands is in `more`, possibly nothing. */
  datatype Record =
    | Display(len: string, devId: string, number: string, ts: int, layer: Layer, position: Where)
    | Status1(len: string, kind: string, devId: string, ts: int, vbat: string, layer: Layer, more: seq<string>)
    | Status2(len: string, devId: string, number: string, ts: int, level: Option<Layer>, more: seq<string>)
    | GpsPosi(len: string, devId: string, number: string, ts: int, layer: Layer, lng: Literal, lat: Literal,
              height: Option<Reading>, more: seq<string>)

  predicate ProperLayer(l: Layer) {
    l.NoLevel? ==> Field(l.text) && ParseInt(l.text).None?
  }

  predicate ProperReading(r: Reading) {
    match r
    case Number(l) => Proper(l)
    case NoNumber(text) => Field(text) && ParseFloat(text).None?
  }

  predicate ProperWhere(w: Where) {
    match w
    case Numeric(x, y, z, more) => Proper(x) && Proper(y) && Proper(z) && Fields(more)
    case InOneField(before, x, sep0, y, sep1, z, after, more) =>
      && Proper(x) && Proper(y) && Proper(z) && sep0 != "" && sep1 != ""
      && Plain(before) && Plain(sep0) && Plain(sep1) && EndsNumber(after)
      && Field(Packed(before, x, sep0, y, sep1, z, after)) && Fields(more)
    case Unlocated(fields) =>
      && Fields(fields)
      && !(|fields| >= 3 && ParseFloat(fields[0]).Some? && ParseFloat(fields[1]).Some? && ParseFloat(fields[2]).Some?)
      && (fields != [] ==> |FindAll(MatchLength, fields[0])| < 3)
  }

  predicate ProperRecord(r: Record) {
    match r
    case Display(len, devId, number, _, layer, position) =>
      Field(len) && Field(devId) && Field(number) && ProperLayer(layer) && ProperWhere(position)
    case Status1(len, kind, devId, _, vbat, layer, more) =>
      Field(len) && Field(kind) && Field(devId) && Field(vbat) && ProperLayer(layer) && Fields(more)
    case Status2(len, devId, number, _, level, more) =>
      && Field(len) && Field(devId) && Field(number) && Fields(more)
      && if level.Some? then ProperLayer(level.value) else more == []
    case GpsPosi(len, devId, number, _, layer, lng, lat, height, more) =>
      && Field(len) && Field(devId) && Field(number) && ProperLayer(layer) && Proper(lng) && Proper(lat) && Fields(more)
      && if height.Some? then ProperReading(height.value) else more == []
  }

  function PrintLayer(l: Layer): string {
    match l
    case Level(n) => PrintInt(n)
    case NoLevel(text) => text
  }

  function PrintReading(r: Reading): string {
    match r
    case Number(l) => Write(l)
    case NoNumber(text) => text
  }

  function WhereFields(w: Where): seq<string> {
    match w
    case Numeric(x, y, z, more) => [Write(x), Write(y), Write(z)] + more
    case InOneField(before, x, sep0, y, sep1, z, after, more) => [Packed(before, x, sep0, y, sep1, z, after)] + more
    case Unlocated(fields) => fields
  }

  function FieldsOf(r: Record): seq<string> {
    match r
    case Display(len, devId, number, ts, layer, position) => [len, devId, number, PrintInt(ts), PrintLayer(layer)] + WhereFields(position)
    case Status1(len, kind, devId, ts, vbat, layer, more) => [len, kind, devId, PrintInt(ts), vbat, PrintLayer(layer)] + more
    case Status2(len, devId, number, ts, level, more) =>
      [len, devId, number, PrintInt(ts)] + if level.Some? then [PrintLayer(level.value)] + more else []
    case GpsPosi(len, devId, number, ts, layer, lng, lat, height, more) =>
      [len, devId, number, PrintInt(ts), PrintLayer(layer), Write(lng), Write(lat)]
      + if height.Some? then [PrintReading(height.value)] + more else []
  }

  function TypeOf(r: Record): string {
    match r
    case Display(_, _, _, _, _, _) => "display"
    case Status1(_, _, _, _, _, _, _) => "status1"
    case Status2(_, _, _, _, _, _) => "status2"
    case GpsPosi(_, _, _, _, _, _, _, _, _) => "gpsposi"
  }

  function Render(r: Record): string {
    TypeOf(r) + [':'] + Join(FieldsOf(r), ',')
  }

  function LayerOf(l: Layer): Option<int> {
    if l.Level? then Some(l.n) else None
  }

  function ReadingOf(r: Reading): Option<real>
    requires ProperReading(r)
  {
    if r.Number? then Some(Value(r.l)) else None
  }

  /** An empty or missing field says nothing. */
  function Said(fields: seq<string>, i: nat): Option<string> {
    if i < |fields| && fields[i] != "" then Some(fields[i]) else None
  }

  /** The event a record stands for. */
  function Meaning(r: Record): Event
    requires ProperRecord(r)
  {
    var blank := Event(r.devId, r.ts, None, None, None, None, None, None, TypeOf(r), Render(r), None, None);
    match r
    case Display(_, _, _, _, layer, Unlocated(fields)) => blank.(layer := LayerOf(layer), area := Said(fields, 1))
    case Display(_, _, _, _, layer, position) =>
      blank.(layer := LayerOf(layer), x := Some(Value(position.x)), y := Some(Value(position.y)), z := Some(Value(position.z)))
    case Status1(_, _, _, _, _, layer, more) => blank.(layer := LayerOf(layer), status := Said(more, 1))
    case Status2(_, _, _, _, level, _) => blank.(layer := if level.Some? then LayerOf(level.value) else None)
    case GpsPosi(_, _, _, _, layer, lng, lat, height, _) =>
      blank.(layer := LayerOf(layer), lng := Some(Value(lng)), lat := Some(Value(lat)),
             z := if height.Some? then ReadingOf(height.value) else None)
  }
}
