/** The opaque pagination cursor: the creation time and id of a row as URL-safe text. */
module Cursor {
  import opened Support
  import opened Base64Url
  import opened JsonStrings
  import opened Timestamps

  /** A row id is a UUID or some other string. */
  datatype ItemId = UuidId(uuid: Uuid) | TextId(text: Text)

  /** What the encoder finds on a row or a dictionary. */
  datatype Item = Item(createdAt: Option<DateTime>, id: Option<ItemId>)

  datatype Position = Position(createdAt: DateTime, id: ItemId)

  datatype Error = MissingField | DateOutOfRange | EmptyCursor | InvalidCursor

  /** Printing and parsing of UUIDs. */
  datatype UuidLibrary = UuidLibrary(format: Uuid -> Text, parse: Text -> Option<Uuid>)

  ghost predicate Lawful(lib: UuidLibrary) {
    forall u :: lib.parse(lib.format(u)) == Some(u) && NoPairs(lib.format(u))
  }

  function Ascii(s: string): seq<byte>
    requires forall i :: 0 <= i < |s| ==> s[i] as int < 128
  {
    seq(|s|, i requires 0 <= i < |s| => s[i] as int)
  }

  function BeforeTs(): seq<byte> {
    Ascii("{\"ts\":\"")
  }

  function BetweenTsAndId(): seq<byte> {
    Ascii(",\"id\":\"")
  }

  function Closing(): seq<byte> {
    Ascii("}")
  }

  // ---- Encoding ------------------------------------------------------------- //

  function IdText(id: ItemId, lib: UuidLibrary): Text {
    match id
    case UuidId(u) => lib.format(u)
    case TextId(t) => t
  }

  /** The JSON object, without blanks. */
  function Payload(ts: Text, id: Text): seq<byte> {
    BeforeTs() + Written(ts, BetweenTsAndId() + Written(id, Closing()))
  }

  function EncodeCursor(item: Item, lib: UuidLibrary): Result<Text, Error>
    requires item.createdAt.Some? ==> Valid(item.createdAt.value)
  {
    if item.createdAt.None? || item.id.None? then Failure(MissingField)
    else
      var utc := Normalize(item.createdAt.value);
      if utc.None? then Failure(DateOutOfRange)
      else
        NormalizeKeepsTheInstant(item.createdAt.value);
        Success(Strip(Encode(Payload(Iso(utc.value), IdText(item.id.value, lib)))))
  }

  // ---- Decoding --------------------------------------------------------------- //

  function Expect(raw: seq<byte>, literal: seq<byte>): Option<seq<byte>> {
    if |literal| <= |raw| && raw[..|literal|] == literal then Some(raw[|literal|..]) else None
  }

  /** The two members of the object, ts first. */
  function ReadPayload(raw: seq<byte>): Option<(Text, Text)> {
    var afterOpen := Expect(raw, BeforeTs());
    if afterOpen.None? then None
    else
      var ts := ReadBody(afterOpen.value);
      if ts.None? then None
      else
        var afterTs := Expect(ts.value.1, BetweenTsAndId());
        if afterTs.None? then None
        else
          var id := ReadBody(afterTs.value);
          if id.None? || id.value.1 != Closing() then None else Some((ts.value.0, id.value.0))
  }

  function ReadId(t: Text, lib: UuidLibrary): ItemId {
    match lib.parse(t)
    case Some(u) => UuidId(u)
    case None => TextId(t)
  }

  function DecodeCursor(token: Text, lib: UuidLibrary): Result<Position, Error> {
    if token == [] then Failure(EmptyCursor)
    else
      var raw := Decode(Restore(token));
      if raw.None? then Failure(InvalidCursor)
      else
        var payload := ReadPayload(raw.value);
        if payload.None? then Failure(InvalidCursor)
        else
          var ts := ReadIso(payload.value.0);
          if ts.None? then Failure(InvalidCursor)
          else
            var createdAt := if ts.value.offset.None? then ts.value.(offset := Some(0)) else ts.value;
            Success(Position(createdAt, ReadId(payload.value.1, lib)))
  }

  // ---- The text inside ------------------------------------------------------------- //

  /** The payload is {"ts":"...","id":"..."}. */
  lemma PayloadIsJson(ts: Text, id: Text)
    ensures Payload(ts, id)
            == [123, 34, 116, 115, 34, 58, 34] + Body(ts)
               + [34, 44, 34, 105, 100, 34, 58, 34] + Body(id) + [34, 125]
  {
    assert BeforeTs() == [123, 34, 116, 115, 34, 58, 34];
    assert BetweenTsAndId() == [44, 34, 105, 100, 34, 58, 34];
    assert Closing() == [125];
    assert [34] + BetweenTsAndId() == [34, 44, 34, 105, 100, 34, 58, 34] && [34] + Closing() == [34, 125];
  }

  /** Whatever token decodes, its time has an offset: a reading without one is taken as UTC. */
  lemma DecodedIsAware(token: Text, lib: UuidLibrary)
    ensures token == [] ==> DecodeCursor(token, lib) == Failure(EmptyCursor)
    ensures DecodeCursor(token, lib).Success? ==>
              && Valid(DecodeCursor(token, lib).value.createdAt)
              && var payload := ReadPayload(Decode(Restore(token)).value).value;
                 var (read, at) := (ReadIso(payload.0).value, DecodeCursor(token, lib).value.createdAt);
                 && at.date == read.date && at.clock == read.clock
                 && at.offset == if read.offset.None? then Some(0) else read.offset
  {
  }

  // ---- Round trip ------------------------------------------------------------------ //

  lemma ExpectReads(literal: seq<byte>, rest: seq<byte>)
    ensures Expect(literal + rest, literal) == Some(rest)
  {
  }

  lemma PayloadReads(ts: Text, id: Text)
    ensures ReadPayload(Payload(ts, id)) == Some((Fuse(ts), Fuse(id)))
  {
    var inner := BetweenTsAndId() + Written(id, Closing());
    ExpectReads(BeforeTs(), Written(ts, inner));
    ReadInvertsWrite(ts, inner);
    ExpectReads(BetweenTsAndId(), Written(id, Closing()));
    ReadInvertsWrite(id, Closing());
  }

  /** The id a cursor comes back with. */
  function ReadBack(id: ItemId, lib: UuidLibrary): ItemId {
    match id
    case UuidId(u) => UuidId(u)
    case TextId(t) => ReadId(Fuse(t), lib)
  }

  /**
   For every row that can be encoded, the cursor is non-empty URL-safe text,
   and decoding it succeeds with the same instant, read in UTC, and the id.
  */
  lemma CursorRoundTrip(item: Item, lib: UuidLibrary)
    requires Lawful(lib) && (item.createdAt.Some? ==> Valid(item.createdAt.value))
    requires EncodeCursor(item, lib).Success?
    ensures var token := EncodeCursor(item, lib).value;
            var back := DecodeCursor(token, lib);
            && token != [] && UrlSafe(token)
            && back.Success? && Valid(back.value.createdAt)
            && back.value.createdAt.offset == Some(0)
            && Instant(back.value.createdAt) == Instant(item.createdAt.value)
            && back.value.id == ReadBack(item.id.value, lib)
  {
    var at := item.createdAt.value;
    NormalizeKeepsTheInstant(at);
    var utc := Normalize(at).value;
    var ts, id := Iso(utc), IdText(item.id.value, lib);
    RoundTrip(Payload(ts, id));
    PayloadReads(ts, id);
    IsoPrintable(utc);
    FuseIsIdentity(ts);
    IsoReads(utc);
    if item.id.value.UuidId? {
      FuseIsIdentity(id);
    }
    TokenNotEmpty(ts, id);
  }

  lemma TokenNotEmpty(ts: Text, id: Text)
    ensures Strip(Encode(Payload(ts, id))) != []
  {
    assert |Payload(ts, id)| >= |BeforeTs()| > 2;
    PaddingIsRestored(Payload(ts, id));
  }

  /** Encoding fails exactly on a missing field or a reading that leaves the calendar on the way to UTC. */
  lemma EncodingFailsWhen(item: Item, lib: UuidLibrary)
    requires item.createdAt.Some? ==> Valid(item.createdAt.value)
    ensures EncodeCursor(item, lib).Failure? <==>
              || item.createdAt.None? || item.id.None?
              || (var t := item.createdAt.value;
                  (t.date == Date(1, 1, 1) && UtcClock(t) < 0) || (t.date == Date(9999, 12, 31) && UtcClock(t) >= DAY))
  {
    if item.createdAt.Some? {
      NormalizeFailsAtTheEnds(item.createdAt.value);
    }
  }

  /**
   A UUID always comes back.  A string comes back as it was exactly when it
   does not itself read as a UUID and spells no surrogate pair in two halves.
  */
  lemma IdComesBack(id: ItemId, lib: UuidLibrary)
    ensures ReadBack(id, lib) == id <==>
              id.UuidId? || (NoPairs(id.text) && lib.parse(id.text).None?)
  {
    if id.TextId? {
      FuseIsIdentity(id.text);
    }
  }
}
