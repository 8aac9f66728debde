/**
 Base64 with the URL-safe alphabet (section 5 of RFC 4648) and its padding
 left off (section 3.2), over code points, together with the lenient decoder
 that skips characters outside the alphabet.
*/
module Base64Url {
  import opened Support

  type CodePoint = x: int | 0 <= x < 0x11_0000

  type Text = seq<CodePoint>

  type Sextet = x: int | 0 <= x < 64

  const PAD: CodePoint := 61

  // ---- The alphabet ----------------------------------------------------------- //

  predicate UrlSafeChar(c: CodePoint) {
    65 <= c <= 90 || 97 <= c <= 122 || 48 <= c <= 57 || c == 45 || c == 95
  }

  function Symbol(v: Sextet): (c: CodePoint)
    ensures UrlSafeChar(c) && Value(c) == Some(v)
  {
    if v < 26 then 65 + v
    else if v < 52 then 97 + (v - 26)
    else if v < 62 then 48 + (v - 52)
    else if v == 62 then 45
    else 95
  }

  /** What a character stands for; the decoder also takes the standard alphabet's + and /. */
  function Value(c: CodePoint): Option<Sextet> {
    if 65 <= c <= 90 then Some(c - 65)
    else if 97 <= c <= 122 then Some(c - 97 + 26)
    else if 48 <= c <= 57 then Some(c - 48 + 52)
    else if c == 45 || c == 43 then Some(62)
    else if c == 95 || c == 47 then Some(63)
    else None
  }

  // ---- Encoding ------------------------------------------------------------------ //

  /** The four groups of six bits in three bytes, and what is left when a byte is missing. */
  function First(a: byte): Sextet {
    a / 4
  }

  function Second(a: byte, b: byte): Sextet {
    a % 4 * 16 + b / 16
  }

  function Third(b: byte, c: byte): Sextet {
    b % 16 * 4 + c / 64
  }

  function Fourth(c: byte): Sextet {
    c % 64
  }

  function Quad(a: byte, b: byte, c: byte): (t: Text)
    ensures |t| == 4
  {
    [Symbol(First(a)), Symbol(Second(a, b)), Symbol(Third(b, c)), Symbol(Fourth(c))]
  }

  /** The characters before any padding. */
  function Bare(bytes: seq<byte>): Text {
    match |bytes|
    case 0 => []
    case 1 => Quad(bytes[0], 0, 0)[..2]
    case 2 => Quad(bytes[0], bytes[1], 0)[..3]
    case _ => Quad(bytes[0], bytes[1], bytes[2]) + Bare(bytes[3..])
  }

  /** How many signs fill up the last group. */
  function PadCount(n: nat): nat {
    match n
    case 0 => 0
    case 1 => 2
    case 2 => 1
    case _ => PadCount(n - 3)
  }

  function Pads(n: nat): Text {
    seq(n, _ => PAD)
  }

  /** urlsafe_b64encode. */
  function Encode(bytes: seq<byte>): Text {
    Bare(bytes) + Pads(PadCount(|bytes|))
  }

  /** rstrip("="). */
  function Strip(t: Text): Text
    decreases |t|
  {
    if t != [] && t[|t| - 1] == PAD then Strip(t[..|t| - 1]) else t
  }

  /** Padding put back: as many signs as the length is short of a multiple of four. */
  function Restore(t: Text): Text {
    t + Pads((-|t|) % 4)
  }

  // ---- Decoding --------------------------------------------------------------------- //

  /** The decoder's place inside a group of four: characters seen, the bits carried over, the signs counted. */
  predicate Place(quad: nat, left: nat) {
    quad < 4 && left < (match quad case 0 => 1 case 1 => 64 case 2 => 16 case _ => 4)
  }

  function Scan(t: Text, quad: nat, left: nat, pads: nat): Option<seq<byte>>
    requires Place(quad, left)
    decreases |t|
  {
    if t == [] then if quad == 0 then Some([]) else None
    else if t[0] == PAD then
      if quad >= 2 && quad + pads + 1 >= 4 then Some([])
      else Scan(t[1..], quad, left, if quad >= 2 then pads + 1 else pads)
    else
      match Value(t[0])
      case None => Scan(t[1..], quad, left, pads)
      case Some(v) =>
        match quad
        case 0 => Scan(t[1..], 1, v, 0)
        case 1 => Prepend(left * 4 + v / 16, Scan(t[1..], 2, v % 16, 0))
        case 2 => Prepend(left * 16 + v / 4, Scan(t[1..], 3, v % 4, 0))
        case _ => Prepend(left * 64 + v, Scan(t[1..], 0, 0, 0))
  }

  function Prepend(b: byte, rest: Option<seq<byte>>): Option<seq<byte>> {
    if rest.None? then None else Some([b] + rest.value)
  }

  /** urlsafe_b64decode of ASCII text. */
  function Decode(t: Text): Option<seq<byte>> {
    if exists i :: 0 <= i < |t| && t[i] >= 128 then None else Scan(t, 0, 0, 0)
  }

  // ---- Round trip ----------------------------------------------------------------------- //

  predicate UrlSafe(t: Text) {
    forall i :: 0 <= i < |t| ==> UrlSafeChar(t[i])
  }

  lemma {:induction false} BareIsUrlSafe(bytes: seq<byte>)
    ensures UrlSafe(Bare(bytes))
  {
    if |bytes| >= 3 {
      BareIsUrlSafe(bytes[3..]);
    }
  }

  /** Whole groups of four, counted. */
  function Groups(n: nat): nat {
    if n == 0 then 0 else if n <= 3 then 1 else 1 + Groups(n - 3)
  }

  lemma {:induction false} FullGroups(bytes: seq<byte>)
    ensures |Bare(bytes)| + PadCount(|bytes|) == 4 * Groups(|bytes|)
    ensures PadCount(|bytes|) <= 2
  {
    if |bytes| >= 3 {
      FullGroups(bytes[3..]);
      assert |Bare(bytes)| == 4 + |Bare(bytes[3..])|;
      assert PadCount(|bytes|) == PadCount(|bytes[3..]|);
      assert Groups(|bytes|) == 1 + Groups(|bytes[3..]|);
    } else {
      assert |Bare(bytes)| == match |bytes| case 0 => 0 case 1 => 2 case _ => 3;
    }
  }

  lemma ShortOfAMultiple(length: int, pads: int, groups: int)
    requires length + pads == 4 * groups && 0 <= pads < 4
    ensures (-length) % 4 == pads
  {
    assert -length == 4 * -groups + pads;
  }

  lemma {:induction false} StripDropsPads(t: Text, n: nat)
    requires UrlSafe(t)
    ensures Strip(t + Pads(n)) == t
  {
    var s := t + Pads(n);
    if n == 0 {
      assert s == t;
    } else {
      assert s[..|s| - 1] == t + Pads(n - 1);
      StripDropsPads(t, n - 1);
    }
  }

  /** Stripping and restoring the padding is the identity on every encoding. */
  lemma PaddingIsRestored(bytes: seq<byte>)
    ensures Strip(Encode(bytes)) == Bare(bytes)
    ensures Restore(Strip(Encode(bytes))) == Encode(bytes)
  {
    BareIsUrlSafe(bytes);
    StripDropsPads(Bare(bytes), PadCount(|bytes|));
    FullGroups(bytes);
    ShortOfAMultiple(|Bare(bytes)|, PadCount(|bytes|), Groups(|bytes|));
  }

  lemma ScanPads(quad: nat, left: nat)
    requires Place(quad, left) && quad >= 2
    ensures Scan(Pads(4 - quad), quad, left, 0) == Some([])
  {
    if quad == 2 {
      assert Pads(2)[1..] == Pads(1);
    }
  }

  /** One character of the alphabet read from the front. */
  lemma ScanSymbol(v: Sextet, rest: Text, quad: nat, left: nat)
    requires Place(quad, left)
    ensures Scan([Symbol(v)] + rest, quad, left, 0) ==
            match quad
            case 0 => Scan(rest, 1, v, 0)
            case 1 => Prepend(left * 4 + v / 16, Scan(rest, 2, v % 16, 0))
            case 2 => Prepend(left * 16 + v / 4, Scan(rest, 3, v % 4, 0))
            case _ => Prepend(left * 64 + v, Scan(rest, 0, 0, 0))
  {
    assert ([Symbol(v)] + rest)[1..] == rest;
  }

  /** The bits of three bytes, cut into sixes and put together again. */
  lemma Regroup(a: byte, b: byte, c: byte)
    ensures First(a) * 4 + Second(a, b) / 16 == a
    ensures Second(a, b) % 16 == b / 16 && b / 16 * 16 + Third(b, c) / 4 == b
    ensures Third(b, c) % 4 == c / 64 && c / 64 * 64 + Fourth(c) == c
  {
  }

  lemma FirstTwo(a: byte, b: byte, rest: Text)
    ensures Quad(a, b, 0)[..2] + rest == [Symbol(First(a))] + ([Symbol(Second(a, b))] + rest)
  {
  }

  lemma ScanTwo(a: byte, b: byte, rest: Text)
    ensures Scan(Quad(a, b, 0)[..2] + rest, 0, 0, 0) == Prepend(a, Scan(rest, 2, b / 16, 0))
  {
    FirstTwo(a, b, rest);
    ScanSymbol(First(a), [Symbol(Second(a, b))] + rest, 0, 0);
    ScanSymbol(Second(a, b), rest, 1, First(a));
    Regroup(a, b, 0);
  }

  lemma ScanThree(a: byte, b: byte, c: byte, rest: Text)
    ensures Scan(Quad(a, b, c)[..3] + rest, 0, 0, 0) == Prepend(a, Prepend(b, Scan(rest, 3, c / 64, 0)))
  {
    Regroup(a, b, c);
    var s3 := Symbol(Third(b, c));
    assert Quad(a, b, c)[..3] + rest == Quad(a, b, 0)[..2] + ([s3] + rest);
    ScanTwo(a, b, [s3] + rest);
    ScanSymbol(Third(b, c), rest, 2, b / 16);
  }

  lemma ScanFour(a: byte, b: byte, c: byte, rest: Text)
    ensures Scan(Quad(a, b, c) + rest, 0, 0, 0) == Prepend(a, Prepend(b, Prepend(c, Scan(rest, 0, 0, 0))))
  {
    Regroup(a, b, c);
    var s4 := Symbol(Fourth(c));
    assert Quad(a, b, c) + rest == Quad(a, b, c)[..3] + ([s4] + rest);
    ScanThree(a, b, c, [s4] + rest);
    ScanSymbol(Fourth(c), rest, 3, c / 64);
  }

  lemma ShortEndings(bytes: seq<byte>)
    requires |bytes| == 1 || |bytes| == 2
    ensures Scan(Encode(bytes), 0, 0, 0) == Some(bytes)
  {
    if |bytes| == 1 {
      ScanTwo(bytes[0], 0, Pads(2));
      ScanPads(2, 0);
      assert bytes == [bytes[0]] + [];
    } else {
      ScanThree(bytes[0], bytes[1], 0, Pads(1));
      ScanPads(3, 0);
      assert bytes == [bytes[0]] + ([bytes[1]] + []);
    }
  }

  lemma EncodeGroup(bytes: seq<byte>)
    requires |bytes| >= 3
    ensures Encode(bytes) == Quad(bytes[0], bytes[1], bytes[2]) + Encode(bytes[3..])
  {
    assert PadCount(|bytes|) == PadCount(|bytes[3..]|);
  }

  lemma {:induction false} ScanInverts(bytes: seq<byte>)
    ensures Scan(Encode(bytes), 0, 0, 0) == Some(bytes)
  {
    if |bytes| == 0 {
      assert Encode(bytes) == [] && bytes == [];
    } else if |bytes| < 3 {
      ShortEndings(bytes);
    } else {
      EncodeGroup(bytes);
      ScanFour(bytes[0], bytes[1], bytes[2], Encode(bytes[3..]));
      ScanInverts(bytes[3..]);
      PrependThree(bytes);
    }
  }

  lemma PrependThree(bytes: seq<byte>)
    requires |bytes| >= 3
    ensures Prepend(bytes[0], Prepend(bytes[1], Prepend(bytes[2], Some(bytes[3..])))) == Some(bytes)
  {
    assert bytes == [bytes[0]] + ([bytes[1]] + ([bytes[2]] + bytes[3..]));
  }

  lemma DecodeInverts(bytes: seq<byte>)
    ensures Decode(Encode(bytes)) == Some(bytes)
  {
    BareIsUrlSafe(bytes);
    var t, n := Encode(bytes), |Bare(bytes)|;
    forall i | 0 <= i < |t| ensures t[i] < 128 {
      assert t[i] == if i < n then Bare(bytes)[i] else PAD;
    }
    ScanInverts(bytes);
  }

  /** Every byte string survives encoding, stripping, restoring and decoding. */
  lemma RoundTrip(bytes: seq<byte>)
    ensures UrlSafe(Strip(Encode(bytes)))
    ensures Decode(Restore(Strip(Encode(bytes)))) == Some(bytes)
  {
    PaddingIsRestored(bytes);
    BareIsUrlSafe(bytes);
    DecodeInverts(bytes);
  }

  /** Published vectors (section 10 of RFC 4648), and the two characters of the URL-safe alphabet. */
  lemma KnownEncodings()
    ensures Encode([102]) == [90, 103, PAD, PAD]
    ensures Encode([102, 111]) == [90, 109, 56, PAD]
    ensures Encode([102, 111, 111]) == [90, 109, 57, 118]
    ensures Encode([251, 255]) == [45, 95, 56, PAD]
    ensures PAD == 61 && Value(43) == Some(62) && Value(47) == Some(63)
  {
    assert [102, 111, 111][3..] == [];
    assert Bare([102, 111, 111]) == Quad(102, 111, 111) + [];
  }

  /** A character outside both alphabets, wherever it stands before the end of the data, is skipped. */
  lemma {:induction false} ForeignIsSkipped(a: Text, c: CodePoint, b: Text, quad: nat, left: nat, pads: nat)
    requires Place(quad, left) && c != PAD && Value(c).None?
    ensures Scan(a + [c] + b, quad, left, pads) == Scan(a + b, quad, left, pads)
    decreases |a|
  {
    if a == [] {
      assert a + [c] + b == [c] + b && a + b == b;
      assert ([c] + b)[1..] == b;
    } else {
      var t, u := a + [c] + b, a + b;
      assert t[0] == u[0] == a[0] && t[1..] == a[1..] + [c] + b && u[1..] == a[1..] + b;
      if a[0] == PAD {
        if !(quad >= 2 && quad + pads + 1 >= 4) {
          ForeignIsSkipped(a[1..], c, b, quad, left, if quad >= 2 then pads + 1 else pads);
        }
      } else if Value(a[0]).None? {
        ForeignIsSkipped(a[1..], c, b, quad, left, pads);
      } else {
        var v := Value(a[0]).value;
        match quad
        case 0 => ForeignIsSkipped(a[1..], c, b, 1, v, 0);
        case 1 => ForeignIsSkipped(a[1..], c, b, 2, v % 16, 0);
        case 2 => ForeignIsSkipped(a[1..], c, b, 3, v % 4, 0);
        case _ => ForeignIsSkipped(a[1..], c, b, 0, 0, 0);
      }
    }
  }

  // ---- What a cut token decodes to ------------------------------------------------------- //

  predicate AllSymbols(t: Text) {
    forall i :: 0 <= i < |t| ==> t[i] < 128 && t[i] != PAD && Value(t[i]).Some?
  }

  /** Signs close a group of four after two characters or three, given enough of them. */
  predicate Closes(quad: nat, pads: nat) {
    quad == 0 || (quad == 2 && pads >= 2) || (quad == 3 && pads >= 1)
  }

  lemma {:induction false} PadsClose(n: nat, quad: nat, left: nat, pads: nat)
    requires Place(quad, left) && pads <= 1 && (quad < 2 || quad == 3 ==> pads == 0)
    ensures Scan(Pads(n), quad, left, pads).Some? <==> Closes(quad, n + pads)
  {
    if n > 0 {
      assert Pads(n)[1..] == Pads(n - 1);
      if quad < 2 || (quad == 2 && pads == 0) {
        PadsClose(n - 1, quad, left, if quad == 2 then 1 else 0);
      }
    }
  }

  lemma {:induction false} SymbolsAdvance(t: Text, n: nat, quad: nat, left: nat)
    requires AllSymbols(t) && Place(quad, left)
    ensures Scan(t + Pads(n), quad, left, 0).Some? <==> Closes((quad + |t|) % 4, n)
    decreases |t|
  {
    if t == [] {
      assert t + Pads(n) == Pads(n);
      PadsClose(n, quad, left, 0);
    } else {
      var v := Value(t[0]).value;
      assert (t + Pads(n))[1..] == t[1..] + Pads(n);
      match quad
      case 0 => SymbolsAdvance(t[1..], n, 1, v);
      case 1 => SymbolsAdvance(t[1..], n, 2, v % 16);
      case 2 => SymbolsAdvance(t[1..], n, 3, v % 4);
      case _ => SymbolsAdvance(t[1..], n, 0, 0);
    }
  }

  /** Text over the alphabet decodes after its padding is restored unless its length is one over a multiple of four. */
  lemma RestoredTextDecodes(t: Text)
    requires AllSymbols(t)
    ensures Decode(Restore(t)).Some? <==> |t| % 4 != 1
  {
    SymbolsAdvance(t, (-|t|) % 4, 0, 0);
  }
}
