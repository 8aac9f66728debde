/**
 JSON string bodies as Python writes them (every character outside printable
 ASCII escaped) and reads them.  Text is a sequence of code points, lone
 surrogates included, as a Python string is.
*/
module JsonStrings {
  import opened Support
  import opened Base64Url

  const QUOTE: byte := 34
  const BACKSLASH: byte := 92

  // ---- Writing --------------------------------------------------------------- //

  function HexDigit(v: nat): byte
    requires v < 16
  {
    if v < 10 then 48 + v else 97 + v - 10
  }

  function HexValue(b: byte): Option<nat> {
    if 48 <= b <= 57 then Some(b - 48)
    else if 97 <= b <= 102 then Some(b - 97 + 10)
    else if 65 <= b <= 70 then Some(b - 65 + 10)
    else None
  }

  type Unit = n: int | 0 <= n < 0x1_0000

  /** \uXXXX. */
  function UnitEscape(n: Unit): (r: seq<byte>)
    ensures |r| == 6
  {
    [BACKSLASH, 117, HexDigit(n / 16 / 16 / 16), HexDigit(n / 16 / 16 % 16), HexDigit(n / 16 % 16), HexDigit(n % 16)]
  }

  predicate High(c: int) {
    0xD800 <= c < 0xDC00
  }

  predicate Low(c: int) {
    0xDC00 <= c < 0xE000
  }

  function HighOf(c: CodePoint): (h: Unit)
    requires c >= 0x1_0000
    ensures High(h)
  {
    0xD800 + (c - 0x1_0000) / 1024
  }

  function LowOf(c: CodePoint): (l: Unit)
    requires c >= 0x1_0000
    ensures Low(l)
  {
    0xDC00 + (c - 0x1_0000) % 1024
  }

  function Combine(h: int, l: int): CodePoint
    requires High(h) && Low(l)
  {
    0x1_0000 + (h - 0xD800) * 1024 + (l - 0xDC00)
  }

  /** The letter of a two-character escape. */
  function ShortEscape(c: CodePoint): Option<byte> {
    match c
    case 34 => Some(34)
    case 92 => Some(92)
    case 8 => Some(98)
    case 9 => Some(116)
    case 10 => Some(110)
    case 12 => Some(102)
    case 13 => Some(114)
    case _ => None
  }

  function Escape(c: CodePoint): (r: seq<byte>)
    ensures r != []
  {
    if ShortEscape(c).Some? then [BACKSLASH, ShortEscape(c).value]
    else if 32 <= c <= 126 then [c]
    else if c < 0x1_0000 then UnitEscape(c)
    else UnitEscape(HighOf(c)) + UnitEscape(LowOf(c))
  }

  /** The body of a JSON string, quotes not included. */
  function Body(t: Text): seq<byte> {
    if t == [] then [] else Escape(t[0]) + Body(t[1..])
  }

  /** A quote, a line feed, an accented letter and an emoji as Python writes them. */
  lemma KnownBodies()
    ensures Body([34]) == [92, 34] && Body([10]) == [92, 110] && Body([65]) == [65]
    ensures Body([233]) == [92, 117, 48, 48, 101, 57]
    ensures Body([0x1_F600]) == [92, 117, 100, 56, 51, 100, 92, 117, 100, 101, 48, 48]
  {
    assert Escape(34) == [92, 34] && Escape(10) == [92, 110] && Escape(65) == [65];
    assert UnitEscape(233) == [92, 117, 48, 48, 101, 57];
    assert UnitEscape(0xD83D) == [92, 117, 100, 56, 51, 100] && UnitEscape(0xDE00) == [92, 117, 100, 101, 48, 48];
    assert HighOf(0x1_F600) == 0xD83D && LowOf(0x1_F600) == 0xDE00;
    OneBody(34);
    OneBody(10);
    OneBody(65);
    OneBody(233);
    OneBody(0x1_F600);
  }

  lemma OneBody(c: CodePoint)
    ensures Body([c]) == Escape(c)
  {
    assert [c][1..] == [];
  }

  // ---- Reading ---------------------------------------------------------------------- //

  /** Four hexadecimal digits from position i. */
  function Hex4(raw: seq<byte>, i: nat): Option<Unit> {
    if i + 4 > |raw| then None
    else
      var (a, b, c, d) := (HexValue(raw[i]), HexValue(raw[i + 1]), HexValue(raw[i + 2]), HexValue(raw[i + 3]));
      if a.None? || b.None? || c.None? || d.None? then None
      else Some(a.value * 4096 + b.value * 256 + c.value * 16 + d.value)
  }

  /** One code point and the number of bytes it took. */
  datatype Unescaped = Unescaped(c: CodePoint, taken: nat)

  /** An escape at the front; a high surrogate takes a low one that follows along with it. */
  function ReadEscape(raw: seq<byte>): (r: Option<Unescaped>)
    ensures r.Some? ==> 1 < r.value.taken <= |raw|
  {
    if |raw| < 2 then None
    else
      match raw[1]
      case 34 => Some(Unescaped(34, 2))
      case 92 => Some(Unescaped(92, 2))
      case 47 => Some(Unescaped(47, 2))
      case 98 => Some(Unescaped(8, 2))
      case 102 => Some(Unescaped(12, 2))
      case 110 => Some(Unescaped(10, 2))
      case 114 => Some(Unescaped(13, 2))
      case 116 => Some(Unescaped(9, 2))
      case 117 => ReadUnit(raw)
      case _ => None
  }

  function ReadUnit(raw: seq<byte>): (r: Option<Unescaped>)
    ensures r.Some? ==> 1 < r.value.taken <= |raw|
  {
    var u := Hex4(raw, 2);
    if u.None? then None
    else if !High(u.value) || |raw| < 8 || raw[6] != BACKSLASH || raw[7] != 117 then Some(Unescaped(u.value, 6))
    else
      var v := Hex4(raw, 8);
      if v.None? then None
      else if Low(v.value) then Some(Unescaped(Combine(u.value, v.value), 12))
      else Some(Unescaped(u.value, 6))
  }

  /** The text up to the closing quote and the bytes after it. */
  function ReadBody(raw: seq<byte>): Option<(Text, seq<byte>)>
    decreases |raw|
  {
    if raw == [] then None
    else if raw[0] == QUOTE then Some(([], raw[1..]))
    else if raw[0] == BACKSLASH then
      var e := ReadEscape(raw);
      if e.None? then None else Before(e.value.c, ReadBody(raw[e.value.taken..]))
    else if 32 <= raw[0] < 128 then Before(raw[0], ReadBody(raw[1..]))
    else None
  }

  function Before(c: CodePoint, r: Option<(Text, seq<byte>)>): Option<(Text, seq<byte>)> {
    if r.None? then None else Some(([c] + r.value.0, r.value.1))
  }

  /** Reading takes what Python's decoder takes: an escaped slash, and hexadecimal digits of either case. */
  lemma KnownReads(rest: seq<byte>)
    ensures ReadBody([92, 47, 34] + rest) == Some(([47], rest))
    ensures ReadBody([92, 117, 48, 48, 69, 57, 34] + rest) == Some(([233], rest))
    ensures ReadBody([92, 117, 48, 48, 101, 57, 34] + rest) == Some(([233], rest))
  {
    EndsAtQuote(rest);
    assert [47] + [] == [47];
    var slash := [92, 47, 34] + rest;
    assert slash[0] == 92 && slash[1] == 47 && slash[2..] == [34] + rest;
    assert ReadEscape(slash) == Some(Unescaped(47, 2));
    KnownUnit([92, 117, 48, 48, 69, 57, 34] + rest, rest);
    KnownUnit([92, 117, 48, 48, 101, 57, 34] + rest, rest);
  }

  lemma EndsAtQuote(rest: seq<byte>)
    ensures ReadBody([34] + rest) == Some(([], rest))
  {
    assert ([34] + rest)[1..] == rest;
  }

  lemma KnownUnit(raw: seq<byte>, rest: seq<byte>)
    requires raw == [92, 117, 48, 48, 69, 57, 34] + rest || raw == [92, 117, 48, 48, 101, 57, 34] + rest
    ensures ReadBody(raw) == Some(([233], rest))
  {
    EndsAtQuote(rest);
    assert raw[0] == 92 && raw[1] == 117 && raw[2] == 48 && raw[3] == 48 && raw[4] in {69, 101} && raw[5] == 57;
    assert Hex4(raw, 2) == Some(233);
    assert [233] + [] == [233];
    assert ReadEscape(raw) == Some(Unescaped(233, 6));
    assert raw[6..] == [34] + rest;
  }

  // ---- Round trip --------------------------------------------------------------------- //

  /** A surrogate pair spelt as two code points. */
  predicate PairAt(t: Text, i: nat) {
    i + 1 < |t| && High(t[i]) && Low(t[i + 1])
  }

  predicate NoPairs(t: Text) {
    forall i :: 0 <= i < |t| ==> !PairAt(t, i)
  }

  /** The text with each such pair fused into the character it stands for. */
  function Fuse(t: Text): Text {
    if t == [] then []
    else if PairAt(t, 0) then [Combine(t[0], t[1])] + Fuse(t[2..])
    else [t[0]] + Fuse(t[1..])
  }

  lemma {:induction false} FuseShrinks(t: Text)
    ensures |Fuse(t)| <= |t|
    ensures |Fuse(t)| == |t| <==> NoPairs(t)
    ensures NoPairs(t) ==> Fuse(t) == t
  {
    if t != [] {
      if PairAt(t, 0) {
        FuseShrinks(t[2..]);
      } else {
        FuseShrinks(t[1..]);
        assert forall i :: 0 <= i < |t| - 1 ==> (PairAt(t[1..], i) <==> PairAt(t, i + 1));
        if !NoPairs(t) {
          var i :| 0 <= i < |t| && PairAt(t, i);
          assert PairAt(t[1..], i - 1);
        }
      }
    }
  }

  /** Writing and reading back changes a string exactly when it spells a pair as two code points. */
  lemma FuseIsIdentity(t: Text)
    ensures Fuse(t) == t <==> NoPairs(t)
  {
    FuseShrinks(t);
  }

  lemma HexDigitReads(v: nat)
    requires v < 16
    ensures HexValue(HexDigit(v)) == Some(v)
  {
  }

  lemma FourDigits(n: Unit)
    ensures n / 16 / 16 / 16 < 16
    ensures n / 16 / 16 / 16 * 4096 + n / 16 / 16 % 16 * 256 + n / 16 % 16 * 16 + n % 16 == n
  {
    var q1 := n / 16;
    var q2 := q1 / 16;
    assert n == 16 * q1 + n % 16 && q1 == 16 * q2 + q1 % 16 && q2 == 16 * (q2 / 16) + q2 % 16;
  }

  /** The hexadecimal digits of an escape standing at position i. */
  lemma UnitReads(n: Unit, raw: seq<byte>, i: nat)
    requires i + 6 <= |raw| && raw[i..i + 6] == UnitEscape(n)
    ensures raw[i] == BACKSLASH && raw[i + 1] == 117 && Hex4(raw, i + 2) == Some(n)
  {
    var e := raw[i..i + 6];
    assert forall k :: 0 <= k < 6 ==> raw[i + k] == e[k];
    FourDigits(n);
    HexDigitReads(n / 16 / 16 / 16);
    HexDigitReads(n / 16 / 16 % 16);
    HexDigitReads(n / 16 % 16);
    HexDigitReads(n % 16);
    assert raw[i + 2] == e[2] && raw[i + 3] == e[3] && raw[i + 4] == e[4] && raw[i + 5] == e[5];
  }

  lemma CombineSplits(c: CodePoint)
    requires c >= 0x1_0000
    ensures Combine(HighOf(c), LowOf(c)) == c
  {
  }

  /** A written body, its closing quote, and whatever follows. */
  function Written(t: Text, rest: seq<byte>): seq<byte> {
    Body(t) + [QUOTE] + rest
  }

  lemma WrittenSplits(t: Text, rest: seq<byte>)
    requires t != []
    ensures Written(t, rest) == Escape(t[0]) + Written(t[1..], rest)
  {
  }

  /** An escape \uXXXX at the front that is not a low surrogate's. */
  predicate NoLowEscape(raw: seq<byte>) {
    |raw| >= 2 && raw[0] == BACKSLASH && raw[1] == 117 ==> Hex4(raw, 2).Some? && !Low(Hex4(raw, 2).value)
  }

  lemma UnitInFront(n: Unit, tail: seq<byte>)
    requires !Low(n)
    ensures NoLowEscape(UnitEscape(n) + tail)
  {
    var raw := UnitEscape(n) + tail;
    assert raw[0..6] == UnitEscape(n);
    UnitReads(n, raw, 0);
  }

  lemma EscapeInFront(c: CodePoint, tail: seq<byte>)
    requires !Low(c)
    ensures NoLowEscape(Escape(c) + tail)
  {
    var raw := Escape(c) + tail;
    if ShortEscape(c).Some? {
      assert raw[1] == ShortEscape(c).value;
    } else if 32 <= c <= 126 {
      assert raw[0] == c;
    } else if c < 0x1_0000 {
      UnitInFront(c, tail);
    } else {
      assert raw == UnitEscape(HighOf(c)) + (UnitEscape(LowOf(c)) + tail);
      UnitInFront(HighOf(c), UnitEscape(LowOf(c)) + tail);
    }
  }

  /** What follows a lone high surrogate is no low escape unless the next code point is a low surrogate. */
  lemma NextEscape(t: Text, rest: seq<byte>)
    requires t == [] || !Low(t[0])
    ensures NoLowEscape(Written(t, rest))
  {
    if t == [] {
      assert Written(t, rest)[0] == QUOTE;
    } else {
      WrittenSplits(t, rest);
      EscapeInFront(t[0], Written(t[1..], rest));
    }
  }

  /** Position 2 of a string is position 8 of the string with six bytes before it. */
  lemma Hex4Shifts(front: seq<byte>, raw: seq<byte>)
    requires |front| == 6
    ensures Hex4(front + raw, 8) == Hex4(raw, 2)
  {
  }

  lemma ReadShort(c: CodePoint, tail: seq<byte>)
    requires ShortEscape(c).Some?
    ensures ReadBody(Escape(c) + tail) == Before(c, ReadBody(tail))
  {
    var raw := Escape(c) + tail;
    assert raw[0] == BACKSLASH && raw[1] == ShortEscape(c).value;
    assert raw[2..] == tail;
  }

  lemma ReadOneUnit(n: Unit, tail: seq<byte>)
    requires !High(n)
    ensures ReadBody(UnitEscape(n) + tail) == Before(n, ReadBody(tail))
  {
    var raw := UnitEscape(n) + tail;
    assert raw[0..6] == UnitEscape(n);
    UnitReads(n, raw, 0);
    assert raw[6..] == tail;
  }

  lemma TwoUnits(h: Unit, l: Unit, tail: seq<byte>)
    requires High(h) && Low(l)
    ensures ReadEscape(UnitEscape(h) + (UnitEscape(l) + tail)) == Some(Unescaped(Combine(h, l), 12))
  {
    var raw := UnitEscape(h) + (UnitEscape(l) + tail);
    assert raw[0..6] == UnitEscape(h);
    assert raw[6..12] == UnitEscape(l);
    UnitReads(h, raw, 0);
    UnitReads(l, raw, 6);
  }

  lemma ReadTwoUnits(h: Unit, l: Unit, raw: seq<byte>, tail: seq<byte>)
    requires High(h) && Low(l) && raw == UnitEscape(h) + (UnitEscape(l) + tail)
    ensures ReadBody(raw) == Before(Combine(h, l), ReadBody(tail))
  {
    TwoUnits(h, l, tail);
    assert raw[0] == BACKSLASH;
    assert raw[12..] == tail;
  }

  lemma ReadPlain(t: Text, rest: seq<byte>)
    requires t != [] && !High(t[0]) && t[0] < 0x1_0000
    ensures ReadBody(Written(t, rest)) == Before(t[0], ReadBody(Written(t[1..], rest)))
  {
    var c, tail := t[0], Written(t[1..], rest);
    WrittenSplits(t, rest);
    if ShortEscape(c).Some? {
      ReadShort(c, tail);
    } else if 32 <= c <= 126 {
      assert ([c] + tail)[0] == c && ([c] + tail)[1..] == tail;
    } else {
      ReadOneUnit(c, tail);
    }
  }

  lemma AstralIsWritten(t: Text, rest: seq<byte>)
    requires t != [] && t[0] >= 0x1_0000
    ensures Written(t, rest) == UnitEscape(HighOf(t[0])) + (UnitEscape(LowOf(t[0])) + Written(t[1..], rest))
  {
    WrittenSplits(t, rest);
  }

  lemma ReadAstral(t: Text, rest: seq<byte>)
    requires t != [] && t[0] >= 0x1_0000
    ensures ReadBody(Written(t, rest)) == Before(t[0], ReadBody(Written(t[1..], rest)))
  {
    AstralIsWritten(t, rest);
    ReadTwoUnits(HighOf(t[0]), LowOf(t[0]), Written(t, rest), Written(t[1..], rest));
    CombineSplits(t[0]);
  }

  lemma PairIsWritten(t: Text, rest: seq<byte>)
    requires PairAt(t, 0)
    ensures Written(t, rest) == UnitEscape(t[0]) + (UnitEscape(t[1]) + Written(t[2..], rest))
  {
    WrittenSplits(t, rest);
    WrittenSplits(t[1..], rest);
    assert t[1..][1..] == t[2..];
  }

  lemma ReadPair(t: Text, rest: seq<byte>)
    requires PairAt(t, 0)
    ensures ReadBody(Written(t, rest)) == Before(Combine(t[0], t[1]), ReadBody(Written(t[2..], rest)))
  {
    PairIsWritten(t, rest);
    ReadTwoUnits(t[0], t[1], Written(t, rest), Written(t[2..], rest));
  }

  lemma LoneUnit(h: Unit, tail: seq<byte>)
    requires High(h) && NoLowEscape(tail)
    ensures ReadEscape(UnitEscape(h) + tail) == Some(Unescaped(h, 6))
  {
    var raw := UnitEscape(h) + tail;
    assert raw[0..6] == UnitEscape(h);
    UnitReads(h, raw, 0);
    Hex4Shifts(UnitEscape(h), tail);
    if |tail| >= 2 {
      assert raw[6] == tail[0] && raw[7] == tail[1];
    }
  }

  lemma ReadLoneHigh(t: Text, rest: seq<byte>)
    requires t != [] && High(t[0]) && !PairAt(t, 0)
    ensures ReadBody(Written(t, rest)) == Before(t[0], ReadBody(Written(t[1..], rest)))
  {
    var tail := Written(t[1..], rest);
    var raw := UnitEscape(t[0]) + tail;
    WrittenSplits(t, rest);
    NextEscape(t[1..], rest);
    LoneUnit(t[0], tail);
    assert raw[0] == BACKSLASH && raw[6..] == tail;
  }

  /** Reading a written string gives it back with its split pairs fused, and stops right after the quote. */
  lemma {:induction false} ReadInvertsWrite(t: Text, rest: seq<byte>)
    ensures ReadBody(Written(t, rest)) == Some((Fuse(t), rest))
  {
    if t == [] {
      assert Written(t, rest)[1..] == rest;
    } else if PairAt(t, 0) {
      ReadPair(t, rest);
      ReadInvertsWrite(t[2..], rest);
    } else {
      if High(t[0]) {
        ReadLoneHigh(t, rest);
      } else if t[0] >= 0x1_0000 {
        ReadAstral(t, rest);
      } else {
        ReadPlain(t, rest);
      }
      ReadInvertsWrite(t[1..], rest);
    }
  }

  /** What is written is ASCII. */
  lemma {:induction false} BodyIsAscii(t: Text)
    ensures forall i :: 0 <= i < |Body(t)| ==> Body(t)[i] < 128
  {
    if t != [] {
      BodyIsAscii(t[1..]);
    }
  }
}
