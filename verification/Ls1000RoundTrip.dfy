/** Writing an LS-1000 record and parsing it gives back the event it stands for, and every message
    the parser accepts has such a record. */
module Ls1000RoundTrip {
  import opened Positions
  import opened Text
  import opened Numbers
  import opened Scanning
  import opened Ls1000

  // The tokens of a rendered record are its fields.

  lemma NumberIsField(l: Literal)
    requires Proper(l)
    ensures Field(Write(l))
  {
    WriteShape(l);
    WriteChars(l);
  }

  lemma IntIsField(n: int)
    ensures Field(PrintInt(n))
  {
    PrintIntShape(n);
  }

  lemma WhereFieldsAreFields(w: Where)
    requires ProperWhere(w)
    ensures Fields(WhereFields(w))
  {
    if w.Numeric? {
      NumberIsField(w.x);
      NumberIsField(w.y);
      NumberIsField(w.z);
    }
  }

  lemma LayerIsField(layer: Layer)
    requires ProperLayer(layer)
    ensures Field(PrintLayer(layer))
  {
    if layer.Level? { IntIsField(layer.n); }
  }

  lemma HeightFieldsAreFields(height: Option<Reading>, more: seq<string>)
    requires Fields(more) && (height.Some? ==> ProperReading(height.value))
    ensures Fields(if height.Some? then [PrintReading(height.value)] + more else [])
  {
    if height.Some? && height.value.Number? { NumberIsField(height.value.l); }
  }

  lemma GpsPosiFieldsAreFields(r: Record)
    requires ProperRecord(r) && r.GpsPosi?
    ensures Fields(FieldsOf(r))
  {
    IntIsField(r.ts);
    LayerIsField(r.layer);
    NumberIsField(r.lng);
    NumberIsField(r.lat);
    HeightFieldsAreFields(r.height, r.more);
  }

  lemma OtherFieldsAreFields(r: Record)
    requires ProperRecord(r) && (r.Status1? || r.Status2?)
    ensures Fields(FieldsOf(r))
  {
    IntIsField(r.ts);
    if r.Status1? {
      LayerIsField(r.layer);
    } else if r.level.Some? {
      LayerIsField(r.level.value);
    }
  }

  lemma FieldsOfAreFields(r: Record)
    requires ProperRecord(r)
    ensures Fields(FieldsOf(r))
  {
    match r
    case Display(_, _, _, ts, layer, position) =>
      IntIsField(ts);
      LayerIsField(layer);
      WhereFieldsAreFields(position);
    case GpsPosi(_, _, _, _, _, _, _, _, _) => GpsPosiFieldsAreFields(r);
    case _ => OtherFieldsAreFields(r);
  }

  /** Whatever the fields, empty ones included, each arrives as the token at its own place. */
  lemma TokensAreFields(fs: seq<string>)
    requires fs != [] && Fields(fs)
    ensures Tokens(Join(fs, ',')) == fs
  {
    SplitOfJoin(fs, ',');
    forall i | 0 <= i < |fs| ensures Strip(fs[i]) == fs[i] {
      StripKeepsTrimmed(fs[i]);
    }
  }

  lemma TypeIsPlain(name: string)
    requires name in BASE_TYPES
    ensures name != "" && Free(name, ':') && Trimmed(name) && Lower(name) == name && name[0] != '{' && name !in UNSUPPORTED_TYPES
  {
  }

  lemma PrintIntNotEmpty(n: int)
    ensures PrintInt(n) != ""
  {
    PrintIntShape(n);
  }

  /** The message is text of the form `<kind>:<tokens>`, whatever the case and spacing of its type and
      the spacing of its tokens. */
  ghost predicate Reads(message: string, kind: string, tokens: seq<string>) {
    var raw := Strip(message);
    raw != "" && raw[0] != '{' && ':' in raw && kind == Lower(Strip(Cut(raw, ':').0)) && tokens == Tokens(Cut(raw, ':').1)
  }

  /** For known types the rest is up to the type's parser. */
  lemma ReadsParses(message: string, kind: string, tokens: seq<string>)
    requires Reads(message, kind, tokens) && kind in BASE_TYPES
    ensures ParseMessage(message) == ParseFields(message, kind, tokens)
  {
    TypeIsPlain(kind);
  }

  /** A message made of a known type and of fields reads as these. */
  lemma MessageReads(name: string, fs: seq<string>)
    requires name in BASE_TYPES && |fs| >= 2 && Fields(fs)
    ensures Reads(name + [':'] + Join(fs, ','), name, fs)
  {
    var payload := Join(fs, ',');
    var raw := name + [':'] + payload;
    TypeIsPlain(name);
    JoinEnds(fs, ',');
    assert raw[0] == name[0] && raw[|raw| - 1] == payload[|payload| - 1];
    StripKeepsTrimmed(raw);
    CutAfter(name, ':', payload);
    StripKeepsTrimmed(name);
    TokensAreFields(fs);
  }

  lemma LayerRoundTrip(layer: Layer)
    requires ProperLayer(layer)
    ensures ParseInt(PrintLayer(layer)) == LayerOf(layer)
  {
    if layer.Level? {
      IntRoundTrip(layer.n);
    }
  }

  lemma ReadingRoundTrip(r: Reading)
    requires ProperReading(r)
    ensures ParseFloat(PrintReading(r)) == ReadingOf(r)
  {
    if r.Number? {
      FloatRoundTrip(r.l);
    }
  }

  lemma NumericRoundTrip(tokens: seq<string>, x: Literal, y: Literal, z: Literal)
    requires Proper(x) && Proper(y) && Proper(z)
    requires |tokens| >= 8 && tokens[5] == Write(x) && tokens[6] == Write(y) && tokens[7] == Write(z)
    ensures ExtractXyz(tokens, 5) == Coordinates(Some(Value(x)), Some(Value(y)), Some(Value(z)))
  {
    FloatRoundTrip(x);
    FloatRoundTrip(y);
    FloatRoundTrip(z);
  }

  /** A field that is no number itself but holds three: they are taken, however many fields follow. */
  lemma ExtractFromOne(tokens: seq<string>, x: string, y: string, z: string, rest: seq<string>)
    requires |tokens| >= 6 && ParseFloat(tokens[5]).None? && FindAll(MatchLength, tokens[5]) == [x, y, z] + rest
    ensures ExtractXyz(tokens, 5) == Coordinates(ParseFloat(x), ParseFloat(y), ParseFloat(z))
  {
    var found := FindAll(MatchLength, tokens[5]);
    assert found[0] == x && found[1] == y && found[2] == z;
  }

  lemma PackedRoundTrip(tokens: seq<string>, w: Where)
    requires w.InOneField? && ProperWhere(w)
    requires |tokens| >= 6 && tokens[5] == Packed(w.before, w.x, w.sep0, w.y, w.sep1, w.z, w.after)
    ensures ExtractXyz(tokens, 5) == Coordinates(Some(Value(w.x)), Some(Value(w.y)), Some(Value(w.z)))
  {
    PackedIsNoNumber(w.before, w.x, w.sep0, w.y, w.sep1, w.z, w.after);
    ThreeLiterals(w.before, w.x, w.sep0, w.y, w.sep1, w.z, w.after);
    ExtractFromOne(tokens, Write(w.x), Write(w.y), Write(w.z), FindAll(MatchLength, w.after));
    FloatRoundTrip(w.x);
    FloatRoundTrip(w.y);
    FloatRoundTrip(w.z);
  }

  /** What a display record's fields from the sixth on are read as. */
  lemma LocationRoundTrip(w: Where, tokens: seq<string>)
    requires ProperWhere(w) && |tokens| >= 5 && tokens[5..] == WhereFields(w)
    ensures ExtractXyz(tokens, 5)
            == if w.Unlocated? then NOWHERE else Coordinates(Some(Value(w.x)), Some(Value(w.y)), Some(Value(w.z)))
    ensures w.Unlocated? ==> SafeToken(tokens, 6) == Said(w.fields, 1)
  {
    assert |tokens| == 5 + |WhereFields(w)|;
    assert forall i :: 0 <= i < |WhereFields(w)| ==> tokens[5 + i] == WhereFields(w)[i];
    match w
    case Numeric(x, y, z, more) =>
      assert tokens[5] == tokens[5 + 0] && tokens[6] == tokens[5 + 1] && tokens[7] == tokens[5 + 2];
      NumericRoundTrip(tokens, x, y, z);
    case InOneField(_, _, _, _, _, _, _, _) =>
      assert tokens[5] == tokens[5 + 0];
      PackedRoundTrip(tokens, w);
    case Unlocated(fields) =>
      if |fields| >= 1 { assert tokens[5] == tokens[5 + 0]; }
      if |fields| >= 2 {
        assert tokens[6] == tokens[5 + 1];
        StripKeepsTrimmed(fields[1]);
      }
      if |fields| >= 3 { assert tokens[7] == tokens[5 + 2]; }
  }

  lemma DisplayRoundTrip(raw: string, r: Record)
    requires ProperRecord(r) && r.Display?
    ensures ParseFields(raw, "display", FieldsOf(r)) == Parsed(Meaning(r).(raw := raw))
  {
    PrintIntNotEmpty(r.ts);
    assert FieldsOf(r)[3] == PrintInt(r.ts) && FieldsOf(r)[4] == PrintLayer(r.layer) && FieldsOf(r)[1] == r.devId;
    IntRoundTrip(r.ts);
    LayerRoundTrip(r.layer);
    LocationRoundTrip(r.position, FieldsOf(r));
  }

  lemma Status1Tokens(r: Record)
    requires ProperRecord(r) && r.Status1?
    ensures var fs := FieldsOf(r);
            && |fs| >= 6 && fs[2] == r.devId && fs[3] != ""
            && ParseInt(fs[3]) == Some(r.ts) && ParseInt(fs[5]) == LayerOf(r.layer) && SafeToken(fs, 7) == Said(r.more, 1)
  {
    PrintIntNotEmpty(r.ts);
    assert FieldsOf(r)[3] == PrintInt(r.ts) && FieldsOf(r)[5] == PrintLayer(r.layer);
    IntRoundTrip(r.ts);
    LayerRoundTrip(r.layer);
    if |r.more| >= 2 {
      assert FieldsOf(r)[7] == r.more[1];
      StripKeepsTrimmed(r.more[1]);
    }
  }

  /** What the tag status parser makes of tokens with a readable timestamp. */
  lemma Status1Parses(raw: string, tokens: seq<string>, ts: int)
    requires |tokens| >= 6 && tokens[3] != "" && ParseInt(tokens[3]) == Some(ts)
    ensures ParseFields(raw, "status1", tokens)
            == Parsed(Event(tokens[2], ts, None, None, None, ParseInt(tokens[5]), None, SafeToken(tokens, 7), "status1", raw, None, None))
  {
  }

  lemma Status1RoundTrip(raw: string, r: Record)
    requires ProperRecord(r) && r.Status1?
    ensures ParseFields(raw, "status1", FieldsOf(r)) == Parsed(Meaning(r).(raw := raw))
  {
    Status1Tokens(r);
    Status1Parses(raw, FieldsOf(r), r.ts);
  }

  lemma Status2RoundTrip(raw: string, r: Record)
    requires ProperRecord(r) && r.Status2?
    ensures ParseFields(raw, "status2", FieldsOf(r)) == Parsed(Meaning(r).(raw := raw))
  {
    PrintIntNotEmpty(r.ts);
    assert FieldsOf(r)[3] == PrintInt(r.ts);
    IntRoundTrip(r.ts);
    if r.level.Some? {
      assert FieldsOf(r)[4] == PrintLayer(r.level.value);
      LayerRoundTrip(r.level.value);
    }
  }

  lemma GpsPosiTokens(r: Record)
    requires ProperRecord(r) && r.GpsPosi?
    ensures FieldsOf(r)[1] == r.devId && FieldsOf(r)[3] != ""
    ensures ParseInt(FieldsOf(r)[3]) == Some(r.ts) && ParseInt(FieldsOf(r)[4]) == LayerOf(r.layer)
  {
    PrintIntNotEmpty(r.ts);
    assert FieldsOf(r)[3] == PrintInt(r.ts) && FieldsOf(r)[4] == PrintLayer(r.layer);
    IntRoundTrip(r.ts);
    LayerRoundTrip(r.layer);
  }

  lemma GpsPosiFloats(r: Record)
    requires ProperRecord(r) && r.GpsPosi?
    ensures ParseFloat(FieldsOf(r)[5]) == Some(Value(r.lng)) && ParseFloat(FieldsOf(r)[6]) == Some(Value(r.lat))
    ensures OptionalFloat(FieldsOf(r), 7) == if r.height.Some? then ReadingOf(r.height.value) else None
  {
    FloatRoundTrip(r.lng);
    FloatRoundTrip(r.lat);
    if r.height.Some? {
      ReadingRoundTrip(r.height.value);
    }
  }

  /** What the position parser makes of tokens with readable numbers in their places. */
  lemma GpsPosiParses(raw: string, tokens: seq<string>, ts: int, lng: real, lat: real)
    requires |tokens| >= 7 && tokens[3] != ""
    requires ParseInt(tokens[3]) == Some(ts) && ParseFloat(tokens[5]) == Some(lng) && ParseFloat(tokens[6]) == Some(lat)
    ensures ParseFields(raw, "gpsposi", tokens)
            == Parsed(Event(tokens[1], ts, None, None, OptionalFloat(tokens, 7), ParseInt(tokens[4]), None, None,
                            "gpsposi", raw, Some(lng), Some(lat)))
  {
  }

  lemma GpsPosiRoundTrip(raw: string, r: Record)
    requires ProperRecord(r) && r.GpsPosi?
    ensures ParseFields(raw, "gpsposi", FieldsOf(r)) == Parsed(Meaning(r).(raw := raw))
  {
    GpsPosiTokens(r);
    GpsPosiFloats(r);
    GpsPosiParses(raw, FieldsOf(r), r.ts, Value(r.lng), Value(r.lat));
  }

  /** Every message that reads as a record's type and fields is parsed into the event the record
      stands for. */
  lemma ReadRoundTrip(message: string, r: Record)
    requires ProperRecord(r) && Reads(message, TypeOf(r), FieldsOf(r))
    ensures ParseMessage(message) == Parsed(Meaning(r).(raw := message))
  {
    ReadsParses(message, TypeOf(r), FieldsOf(r));
    match r
    case Display(_, _, _, _, _, _) => DisplayRoundTrip(message, r);
    case Status1(_, _, _, _, _, _, _) => Status1RoundTrip(message, r);
    case Status2(_, _, _, _, _, _) => Status2RoundTrip(message, r);
    case GpsPosi(_, _, _, _, _, _, _, _, _) => GpsPosiRoundTrip(message, r);
  }

  /** Every record of every type is parsed back into the event it stands for. */
  lemma RoundTrip(r: Record)
    requires ProperRecord(r)
    ensures ParseMessage(Render(r)) == Parsed(Meaning(r))
  {
    FieldsOfAreFields(r);
    MessageReads(TypeOf(r), FieldsOf(r));
    ReadRoundTrip(Render(r), r);
  }

  // Every accepted message stands for a record.

  lemma TokensAreAllFields(payload: string)
    ensures Fields(Tokens(payload))
  {
    JoinOfSplit(payload, ',');
    var parts := Split(payload, ',');
    forall i | 0 <= i < |parts| ensures Field(Strip(parts[i])) {
      StripTrims(parts[i]);
    }
  }

  lemma SafeTokenIsField(tokens: seq<string>, index: nat)
    requires Fields(tokens)
    ensures SafeToken(tokens, index).Some? ==> Field(SafeToken(tokens, index).value) && SafeToken(tokens, index).value != ""
  {
    if index < |tokens| {
      StripKeepsTrimmed(tokens[index]);
    }
  }

  lemma FoundIsNumber(s: string, k: nat)
    requires k < |FindAll(MatchLength, s)|
    ensures ParseFloat(FindAll(MatchLength, s)[k]).Some?
  {
    var rest := FoundIsTaken(MatchLength, s, k);
    var l := MatchIsLiteral(rest);
    FloatRoundTrip(l);
  }

  /** A location is read whole or not at all. */
  lemma LocationIsWhole(tokens: seq<string>, start: nat)
    ensures var c := ExtractXyz(tokens, start); (c.x.Some? <==> c.y.Some?) && (c.x.Some? <==> c.z.Some?)
    ensures ExtractXyz(tokens, start).x.Some? ==> exists x, y, z: string ::
              ExtractXyz(tokens, start) == Coordinates(ParseFloat(x), ParseFloat(y), ParseFloat(z))
  {
    if |tokens| > start && |FindAll(MatchLength, tokens[start])| >= 3 {
      FoundIsNumber(tokens[start], 0);
      FoundIsNumber(tokens[start], 1);
      FoundIsNumber(tokens[start], 2);
    }
  }

  /** The event without the text it came from. */
  function Content(e: Event): Event {
    e.(raw := "")
  }

  /** The canonical field for a layer. */
  function LayerFrom(layer: Option<int>): Layer {
    if layer.Some? then Level(layer.value) else NoLevel("")
  }

  lemma NothingInEmpty()
    ensures ParseFloat("").None? && FindAll(MatchLength, "") == []
  {
  }

  /** A place that says the same as the fields from the sixth on. */
  lemma PlaceFor(tokens: seq<string>) returns (w: Where)
    requires Fields(tokens)
    ensures ProperWhere(w)
    ensures ExtractXyz(tokens, 5)
            == if w.Unlocated? then NOWHERE else Coordinates(Some(Value(w.x)), Some(Value(w.y)), Some(Value(w.z)))
    ensures w.Unlocated? ==> Said(w.fields, 1) == SafeToken(tokens, 6)
  {
    LocationIsWhole(tokens, 5);
    if ExtractXyz(tokens, 5).x.Some? {
      var tx: string, ty: string, tz: string :| ExtractXyz(tokens, 5) == Coordinates(ParseFloat(tx), ParseFloat(ty), ParseFloat(tz));
      var x := FloatHasLiteral(tx);
      var y := FloatHasLiteral(ty);
      var z := FloatHasLiteral(tz);
      w := Numeric(x, y, z, []);
    } else {
      SafeTokenIsField(tokens, 6);
      NothingInEmpty();
      var zone := SafeToken(tokens, 6);
      w := Unlocated(["", if zone.Some? then zone.value else ""]);
    }
  }

  lemma DisplayHasRecord(raw: string, tokens: seq<string>) returns (r: Record)
    requires Fields(tokens) && ParseDisplay(raw, tokens).Parsed?
    ensures ProperRecord(r) && Content(Meaning(r)) == Content(ParseDisplay(raw, tokens).event)
  {
    var e := ParseDisplay(raw, tokens).event;
    var position := PlaceFor(tokens);
    r := Display("", e.tagId, "", e.ts, LayerFrom(e.layer), position);
  }

  lemma Status1HasRecord(raw: string, tokens: seq<string>) returns (r: Record)
    requires Fields(tokens) && ParseStatus1(raw, tokens).Parsed?
    ensures ProperRecord(r) && Content(Meaning(r)) == Content(ParseStatus1(raw, tokens).event)
  {
    var e := ParseStatus1(raw, tokens).event;
    SafeTokenIsField(tokens, 7);
    r := Status1("", "", e.tagId, e.ts, "", LayerFrom(e.layer), ["", if e.status.Some? then e.status.value else ""]);
  }

  lemma HeightFor(tokens: seq<string>) returns (height: Option<Reading>)
    ensures height.Some? ==> ProperReading(height.value)
    ensures OptionalFloat(tokens, 7) == if height.Some? then ReadingOf(height.value) else None
  {
    height := None;
    if OptionalFloat(tokens, 7).Some? {
      var l := FloatHasLiteral(tokens[7]);
      height := Some(Number(l));
    }
  }

  lemma LayerFromIsProper(layer: Option<int>)
    ensures ProperLayer(LayerFrom(layer)) && LayerOf(LayerFrom(layer)) == layer
  {
  }

  lemma GpsPosiHasRecord(raw: string, tokens: seq<string>) returns (r: Record)
    requires Fields(tokens) && ParseGpsPosi(raw, tokens).Parsed?
    ensures ProperRecord(r) && Content(Meaning(r)) == Content(ParseGpsPosi(raw, tokens).event)
  {
    var e := ParseGpsPosi(raw, tokens).event;
    var lng := FloatHasLiteral(tokens[5]);
    var lat := FloatHasLiteral(tokens[6]);
    var height := HeightFor(tokens);
    LayerFromIsProper(e.layer);
    r := GpsPosi("", e.tagId, "", e.ts, LayerFrom(e.layer), lng, lat, height, []);
  }

  /** The converse: every message the parser accepts says the same as some record, and parsing that
      record's canonical text gives the same event again. */
  lemma AcceptedHasRecord(message: string) returns (r: Record)
    requires ParseMessage(message).Parsed?
    ensures ProperRecord(r) && Content(Meaning(r)) == Content(ParseMessage(message).event)
    ensures ParseMessage(Render(r)).Parsed? && Content(ParseMessage(Render(r)).event) == Content(ParseMessage(message).event)
  {
    var raw := Strip(message);
    var (typeName, payload) := Cut(raw, ':');
    var sourceType, tokens := Lower(Strip(typeName)), Tokens(payload);
    TokensAreAllFields(payload);
    if sourceType == "display" {
      r := DisplayHasRecord(message, tokens);
    } else if sourceType == "status1" {
      r := Status1HasRecord(message, tokens);
    } else if sourceType == "status2" {
      var e := ParseStatus2(message, tokens).event;
      r := Status2("", e.tagId, "", e.ts, Some(LayerFrom(e.layer)), []);
    } else {
      r := GpsPosiHasRecord(message, tokens);
    }
    RoundTrip(r);
  }

  // What a rejection means.

  /** Fields with a readable timestamp can only lack coordinates, if they are enough. */
  lemma TimestampReads(raw: string, raw': string, kind: string, tokens: seq<string>, text: string, n: int)
    requires kind in BASE_TYPES && text != "" && ParseInt(text) == Some(n)
    requires ParseFields(raw, kind, tokens).Rejected? && ParseFields(raw, kind, tokens).code == InvalidTimestamp
    ensures |tokens| > 3
    ensures var o := ParseFields(raw', kind, tokens[3 := text]);
            if o.Parsed? then o.event.ts == n else o.Rejected? && o.code == InvalidCoordinates
  {
    assert tokens[3 := text][3] != "";
  }

  lemma TimestampRepaired(raw: string, raw': string, kind: string, tokens: seq<string>, n: int)
    requires kind in BASE_TYPES
    requires ParseFields(raw, kind, tokens).Rejected? && ParseFields(raw, kind, tokens).code == InvalidTimestamp
    ensures |tokens| > 3
    ensures var o := ParseFields(raw', kind, tokens[3 := PrintInt(n)]);
            if o.Parsed? then o.event.ts == n else o.Rejected? && o.code == InvalidCoordinates
  {
    IntRoundTrip(n);
    PrintIntNotEmpty(n);
    TimestampReads(raw, raw', kind, tokens, PrintInt(n), n);
  }

  lemma CoordinatesRead(raw: string, raw': string, kind: string, tokens: seq<string>, tx: string, ty: string, x: real, y: real)
    requires kind in BASE_TYPES && tx != "" && ParseFloat(tx) == Some(x) && ParseFloat(ty) == Some(y)
    requires ParseFields(raw, kind, tokens).Rejected? && ParseFields(raw, kind, tokens).code == InvalidCoordinates
    ensures |tokens| > 6
    ensures var o := ParseFields(raw', kind, tokens[5 := tx][6 := ty]);
            o.Parsed? && o.event.lng == Some(x) && o.event.lat == Some(y)
  {
    assert tokens[5 := tx][6 := ty][5] == tx;
  }

  lemma CoordinatesRepaired(raw: string, raw': string, kind: string, tokens: seq<string>, x: Literal, y: Literal)
    requires kind in BASE_TYPES && Proper(x) && Proper(y)
    requires ParseFields(raw, kind, tokens).Rejected? && ParseFields(raw, kind, tokens).code == InvalidCoordinates
    ensures |tokens| > 6
    ensures var o := ParseFields(raw', kind, tokens[5 := Write(x)][6 := Write(y)]);
            o.Parsed? && o.event.lng == Some(Value(x)) && o.event.lat == Some(Value(y))
  {
    FloatRoundTrip(x);
    FloatRoundTrip(y);
    WriteShape(x);
    CoordinatesRead(raw, raw', kind, tokens, Write(x), Write(y), Value(x), Value(y));
  }

  lemma TooShortToRepair(raw: string, raw': string, kind: string, tokens: seq<string>, tokens': seq<string>)
    requires kind in BASE_TYPES && |tokens'| == |tokens|
    requires ParseFields(raw, kind, tokens).Rejected? && ParseFields(raw, kind, tokens).code == InvalidPayload
    ensures ParseFields(raw', kind, tokens').Rejected? || AllEmpty(tokens)
  {
  }

  /** What the outcome `o` of `tokens` says of the outcome `o'` of `tokens'`. */
  ghost predicate NamesFault(o: Outcome, o': Outcome, tokens: seq<string>, tokens': seq<string>, n: int, x: Literal, y: Literal)
    requires o.Rejected? && Proper(x) && Proper(y)
  {
    match o.code
    case InvalidTimestamp =>
      |tokens| > 3 && tokens' == tokens[3 := PrintInt(n)] ==>
        if o'.Parsed? then o'.event.ts == n else o'.Rejected? && o'.code == InvalidCoordinates
    case InvalidCoordinates =>
      |tokens| > 6 && tokens' == tokens[5 := Write(x)][6 := Write(y)] ==>
        o'.Parsed? && o'.event.lng == Some(Value(x)) && o'.event.lat == Some(Value(y))
    case InvalidPayload => o'.Rejected? || AllEmpty(tokens)
    case code => o'.Rejected? && o'.code == code
  }

  lemma PayloadFault(raw: string, raw': string, kind: string, tokens: seq<string>, tokens': seq<string>, n: int, x: Literal, y: Literal)
    requires kind in BASE_TYPES && |tokens'| == |tokens| && Proper(x) && Proper(y) && ParseFields(raw, kind, tokens).Rejected?
    ensures NamesFault(ParseFields(raw, kind, tokens), ParseFields(raw', kind, tokens'), tokens, tokens', n, x, y)
  {
    match ParseFields(raw, kind, tokens).code
    case InvalidTimestamp => TimestampRepaired(raw, raw', kind, tokens, n);
    case InvalidCoordinates => CoordinatesRepaired(raw, raw', kind, tokens, x, y);
    case InvalidPayload => TooShortToRepair(raw, raw', kind, tokens, tokens');
    case _ =>
  }

  lemma TypeFault(message: string, kind: string, tokens: seq<string>)
    requires Reads(message, kind, tokens) && kind !in BASE_TYPES
    ensures kind != "display" && kind != "status1" && kind != "status2" && kind != "gpsposi"
    ensures var known := kind == "warning" || kind == "summary" || kind == "rawdata";
            ParseMessage(message) == Rejected(if known then UnsupportedType else UnknownType, message, kind)
  {
  }

  lemma RejectedAsReceived(raw: string, kind: string, tokens: seq<string>)
    requires kind in BASE_TYPES && ParseFields(raw, kind, tokens).Rejected?
    ensures ParseFields(raw, kind, tokens).raw == raw && ParseFields(raw, kind, tokens).sourceType == kind
  {
  }

  /** An error names what to repair, and carries the text as received. With an invalid timestamp any
      number in its place gives an accepted message, or one with coordinates to repair; with invalid
      coordinates any two numbers in their place give an accepted message; with an invalid payload no
      fields of that number do, unless all were empty; and a bad type is not repaired by any fields. */
  lemma FaultIsNamed(message: string, message': string, kind: string, tokens: seq<string>, tokens': seq<string>,
                     n: int, x: Literal, y: Literal)
    requires Reads(message, kind, tokens) && Reads(message', kind, tokens') && |tokens'| == |tokens| && Proper(x) && Proper(y)
    requires ParseMessage(message).Rejected?
    ensures ParseMessage(message).raw == message && ParseMessage(message).sourceType == kind
    ensures NamesFault(ParseMessage(message), ParseMessage(message'), tokens, tokens', n, x, y)
  {
    if kind in BASE_TYPES {
      ReadsParses(message, kind, tokens);
      ReadsParses(message', kind, tokens');
      RejectedAsReceived(message, kind, tokens);
      PayloadFault(message, message', kind, tokens, tokens', n, x, y);
    } else {
      TypeFault(message, kind, tokens);
      TypeFault(message', kind, tokens');
    }
  }

  /** White space alone is no message; other text that is not JSON needs a colon. */
  lemma NoTypeFault(a: string, s: string, b: string)
    requires Blank(a) && Blank(b) && Tight(s)
    ensures var message := a + s + b;
            && (s == "" ==> ParseMessage(message) == Rejected(EmptyMessage, message, "unknown"))
            && (s != "" && s[0] == '{' ==> ParseMessage(message) == Json(message))
            && (s != "" && s[0] != '{' && ':' !in s ==> ParseMessage(message) == Rejected(InvalidFormat, message, "unknown"))
  {
    StripOfPadded(a, s, b);
  }

  // White space and capitals.

  /** A field with white space around it. */
  datatype Padded = Padded(left: string, field: string, right: string)

  predicate ProperPadding(p: Padded) {
    Blank(p.left) && Blank(p.right) && Field(p.field)
  }

  function PaddedText(p: Padded): string {
    p.left + p.field + p.right
  }

  function PaddedTexts(ps: seq<Padded>): seq<string> {
    seq(|ps|, i requires 0 <= i < |ps| => PaddedText(ps[i]))
  }

  function Unpadded(ps: seq<Padded>): seq<string> {
    seq(|ps|, i requires 0 <= i < |ps| => ps[i].field)
  }

  lemma TrimmedIsTight(s: string)
    ensures Trimmed(s) <==> Tight(s)
  {
    if s != "" {
      SpaceIsBlank(s[0]);
      SpaceIsBlank(s[|s| - 1]);
    }
  }

  lemma BlankIsFree(s: string, sep: char)
    requires Blank(s) && (sep == ',' || sep == ':')
    ensures Free(s, sep)
  {
  }

  lemma PaddedField(p: Padded)
    requires ProperPadding(p)
    ensures Free(PaddedText(p), ',') && Strip(PaddedText(p)) == p.field
  {
    TrimmedIsTight(p.field);
    BlankIsFree(p.left, ',');
    BlankIsFree(p.right, ',');
    StripOfPadded(p.left, p.field, p.right);
  }

  lemma TokensOfPadded(ps: seq<Padded>)
    requires ps != [] && forall i :: 0 <= i < |ps| ==> ProperPadding(ps[i])
    ensures Tokens(Join(PaddedTexts(ps), ',')) == Unpadded(ps)
  {
    forall i | 0 <= i < |ps| ensures Free(PaddedTexts(ps)[i], ',') && Strip(PaddedTexts(ps)[i]) == ps[i].field {
      PaddedField(ps[i]);
    }
    SplitOfJoin(PaddedTexts(ps), ',');
  }

  /** White space behind the payload belongs to the last field, where it does not matter. */
  lemma TokensIgnoreMore(payload: string, more: string)
    requires Blank(more)
    ensures Tokens(payload + more) == Tokens(payload)
  {
    BlankIsFree(more, ',');
    SplitMore(payload, ',', more);
    var parts := Split(payload, ',');
    StripIgnoresMore(parts[|parts| - 1], more);
  }

  lemma FourTexts(a: string, head: string, rest: string, b: string)
    ensures a + (head + rest) + b == a + (head + (rest + b))
  {
  }

  lemma MessageIsTight(head: string, rest: string)
    requires head != "" && head[0] !in BLANKS && (rest == "" || rest[|rest| - 1] !in BLANKS)
    ensures Tight(head + [':'] + rest)
  {
    var s := head + [':'] + rest;
    assert s[|s| - 1] == if rest == "" then ':' else rest[|rest| - 1];
  }

  /** What stripping leaves of a message whose type is followed by any payload. */
  lemma StripOfMessage(a: string, head: string, payload: string)
    requires Blank(a) && head != "" && head[0] !in BLANKS
    ensures Strip(a + (head + [':'] + payload)) == head + [':'] + StripRight(payload)
  {
    var b := RightPadding(payload);
    var rest := StripRight(payload);
    MessageIsTight(head, rest);
    StripOfPadded(a, head + [':'] + rest, b);
    FourTexts(a, head + [':'], rest, b);
  }

  lemma SpelledType(name: string, word: string)
    requires word in BASE_TYPES && Spells(name, word)
    ensures name != "" && Tight(name) && name[0] != '{' && Free(name, ':') && Lower(name) == word
  {
    LowerOfSpelling(name, word);
  }

  lemma HeadReads(name: string, q: string, word: string)
    requires word in BASE_TYPES && Spells(name, word) && Blank(q)
    ensures var head := name + q;
            && head != "" && head[0] !in BLANKS && head[0] != '{' && Free(head, ':') && Lower(Strip(head)) == word
  {
    SpelledType(name, word);
    BlankIsFree(q, ':');
    StripOfPadded("", name, q);
    assert "" + name + q == name + q;
  }

  lemma PayloadReads(ps: seq<Padded>)
    requires ps != [] && forall i :: 0 <= i < |ps| ==> ProperPadding(ps[i])
    ensures Tokens(StripRight(Join(PaddedTexts(ps), ','))) == Unpadded(ps)
  {
    var payload := Join(PaddedTexts(ps), ',');
    var b := RightPadding(payload);
    TokensIgnoreMore(StripRight(payload), b);
    TokensOfPadded(ps);
  }

  lemma HeadAndPayloadRead(a: string, head: string, payload: string, word: string, tokens: seq<string>)
    requires Blank(a) && head != "" && head[0] !in BLANKS && head[0] != '{' && Free(head, ':') && Lower(Strip(head)) == word
    requires Tokens(StripRight(payload)) == tokens
    ensures Reads(a + (head + [':'] + payload), word, tokens)
  {
    StripOfMessage(a, head, payload);
    CutAfter(head, ':', StripRight(payload));
  }

  /** A message that spells a known type in letters of either case and puts white space around the
      whole, around the type and around every field, reads as the type and the fields. */
  lemma PaddedReads(a: string, name: string, q: string, word: string, ps: seq<Padded>)
    requires word in BASE_TYPES && Spells(name, word) && Blank(a) && Blank(q)
    requires ps != [] && forall i :: 0 <= i < |ps| ==> ProperPadding(ps[i])
    ensures Reads(a + ((name + q) + [':'] + Join(PaddedTexts(ps), ',')), word, Unpadded(ps))
  {
    HeadReads(name, q, word);
    PayloadReads(ps);
    HeadAndPayloadRead(a, name + q, Join(PaddedTexts(ps), ','), word, Unpadded(ps));
  }

  /** The round trip, white space and capitals included. */
  lemma PaddedRoundTrip(a: string, name: string, q: string, ps: seq<Padded>, r: Record)
    requires ProperRecord(r) && Spells(name, TypeOf(r)) && Blank(a) && Blank(q)
    requires (forall i :: 0 <= i < |ps| ==> ProperPadding(ps[i])) && Unpadded(ps) == FieldsOf(r)
    ensures var message := a + ((name + q) + [':'] + Join(PaddedTexts(ps), ','));
            ParseMessage(message) == Parsed(Meaning(r).(raw := message))
  {
    PaddedReads(a, name, q, TypeOf(r), ps);
    ReadRoundTrip(a + ((name + q) + [':'] + Join(PaddedTexts(ps), ',')), r);
  }

  // The layout of each type, field by field.

  lemma DisplayLayout(message: string, len: string, devId: string, number: string, ts: int, layer: int,
                      x: Literal, y: Literal, z: Literal, zone: string)
    requires Field(len) && Field(devId) && Field(number) && Field(zone) && Proper(x) && Proper(y) && Proper(z)
    requires Reads(message, "display", [len, devId, number, PrintInt(ts), PrintInt(layer), Write(x), Write(y), Write(z), zone])
    ensures ParseMessage(message)
            == Parsed(Event(devId, ts, Some(Value(x)), Some(Value(y)), Some(Value(z)), Some(layer), None, None, "display", message, None, None))
  {
    var r := Display(len, devId, number, ts, Level(layer), Numeric(x, y, z, [zone]));
    assert FieldsOf(r) == [len, devId, number, PrintInt(ts), PrintInt(layer), Write(x), Write(y), Write(z), zone];
    ReadRoundTrip(message, r);
  }

  lemma Status1Layout(message: string, len: string, kind: string, devId: string, ts: int, vbat: string, layer: int,
                      velocity: string, status: string)
    requires Field(len) && Field(kind) && Field(devId) && Field(vbat) && Field(velocity) && Field(status) && status != ""
    requires Reads(message, "status1", [len, kind, devId, PrintInt(ts), vbat, PrintInt(layer), velocity, status])
    ensures ParseMessage(message)
            == Parsed(Event(devId, ts, None, None, None, Some(layer), None, Some(status), "status1", message, None, None))
  {
    var r := Status1(len, kind, devId, ts, vbat, Level(layer), [velocity, status]);
    assert FieldsOf(r) == [len, kind, devId, PrintInt(ts), vbat, PrintInt(layer), velocity, status];
    ReadRoundTrip(message, r);
  }

  lemma Status2Layout(message: string, len: string, devId: string, number: string, ts: int, layer: int)
    requires Field(len) && Field(devId) && Field(number)
    requires Reads(message, "status2", [len, devId, number, PrintInt(ts), PrintInt(layer)])
    ensures ParseMessage(message)
            == Parsed(Event(devId, ts, None, None, None, Some(layer), None, None, "status2", message, None, None))
  {
    var r := Status2(len, devId, number, ts, Some(Level(layer)), []);
    assert FieldsOf(r) == [len, devId, number, PrintInt(ts), PrintInt(layer)];
    ReadRoundTrip(message, r);
  }

  lemma GpsPosiLayout(message: string, len: string, devId: string, number: string, ts: int, layer: int,
                      lng: Literal, lat: Literal, z: Literal)
    requires Field(len) && Field(devId) && Field(number) && Proper(lng) && Proper(lat) && Proper(z)
    requires Reads(message, "gpsposi", [len, devId, number, PrintInt(ts), PrintInt(layer), Write(lng), Write(lat), Write(z)])
    ensures ParseMessage(message)
            == Parsed(Event(devId, ts, None, None, Some(Value(z)), Some(layer), None, None, "gpsposi", message,
                            Some(Value(lng)), Some(Value(lat))))
  {
    var r := GpsPosi(len, devId, number, ts, Level(layer), lng, lat, Some(Number(z)), []);
    assert FieldsOf(r) == [len, devId, number, PrintInt(ts), PrintInt(layer), Write(lng), Write(lat), Write(z)];
    ReadRoundTrip(message, r);
  }

  /** Without coordinates the seventh field is the area. */
  lemma AreaLayout(message: string, len: string, devId: string, number: string, ts: int, zone: string)
    requires Field(len) && Field(devId) && Field(number) && Field(zone) && zone != ""
    requires Reads(message, "display", [len, devId, number, PrintInt(ts), "", "", zone])
    ensures ParseMessage(message)
            == Parsed(Event(devId, ts, None, None, None, None, Some(zone), None, "display", message, None, None))
  {
    NothingInEmpty();
    var r := Display(len, devId, number, ts, NoLevel(""), Unlocated(["", zone]));
    assert FieldsOf(r) == [len, devId, number, PrintInt(ts), "", "", zone];
    ReadRoundTrip(message, r);
  }
}
