/**
 Request ids: a prefix, ten base-32 characters of millisecond time, and
 sixteen random ones, so that sorting ids as text sorts them by time.
*/
module RequestIds {

  type Digit = x: int | 0 <= x < 32

  /** Crockford's alphabet, which rises with the digit. */
  function Symbol(v: Digit): char {
    if v < 10 then '0' + v as char
    else if v < 18 then 'A' + (v - 10) as char
    else if v < 20 then 'J' + (v - 18) as char
    else if v < 22 then 'M' + (v - 20) as char
    else if v < 27 then 'P' + (v - 22) as char
    else 'V' + (v - 27) as char
  }

  function Value(c: char): Digit {
    if c <= '9' then (c as int - '0' as int) % 32
    else if c <= 'H' then (c as int - 'A' as int + 10) % 32
    else if c <= 'K' then (c as int - 'J' as int + 18) % 32
    else if c <= 'N' then (c as int - 'M' as int + 20) % 32
    else if c <= 'T' then (c as int - 'P' as int + 22) % 32
    else (c as int - 'V' as int + 27) % 32
  }

  lemma SymbolsRise(v: Digit, w: Digit)
    ensures Value(Symbol(v)) == v
    ensures v < w <==> Symbol(v) < Symbol(w)
  {
  }

  const CROCKFORD: string := "0123456789ABCDEFGHJKMNPQRSTVWXYZ"

  /** The digits are those of Crockford's table, which leaves out I, L, O and U. */
  lemma SymbolsAreCrockfords(v: Digit)
    ensures |CROCKFORD| == 32 && Symbol(v) == CROCKFORD[v]
  {
  }

  function Pow32(n: nat): (p: int)
    ensures p > 0
  {
    if n == 0 then 1 else 32 * Pow32(n - 1)
  }

  /** The n-th digit from the right: the number shifted right by 5(n - 1) bits, masked. */
  function Top(ts: int, n: nat): Digit
    requires n > 0
  {
    ts / Pow32(n - 1) % 32
  }

  /** The lowest n digits of a number, the highest of them first. */
  function TimePart(ts: int, n: nat): (s: string)
    ensures |s| == n
  {
    if n == 0 then "" else [Symbol(Top(ts, n))] + TimePart(ts, n - 1)
  }

  function RandomPart(random: seq<Digit>): string {
    seq(|random|, i requires 0 <= i < |random| => Symbol(random[i]))
  }

  function Generate(ts: int, random: seq<Digit>): string {
    "req_" + TimePart(ts, 10) + RandomPart(random)
  }

  // ---- Reading the time back ------------------------------------------------------ //

  function TimeOf(s: string): int {
    if s == "" then 0 else Value(s[0]) * Pow32(|s| - 1) + TimeOf(s[1..])
  }

  lemma TopDigit(ts: int, n: nat)
    requires n > 0
    ensures ts % Pow32(n) == Top(ts, n) * Pow32(n - 1) + ts % Pow32(n - 1)
    ensures 0 <= ts % Pow32(n - 1) < Pow32(n - 1)
  {
    var p := Pow32(n - 1);
    var (q, r) := (ts / p, ts % p);
    Regroup(ts, p, q, r, q / 32, q % 32);
    Remainder(ts, 32 * p, q / 32, q % 32 * p + r);
  }

  lemma Regroup(x: int, p: int, q: int, r: int, hi: int, lo: int)
    requires x == p * q + r && 0 <= r < p && q == 32 * hi + lo && 0 <= lo < 32
    ensures x == 32 * p * hi + (lo * p + r) && 0 <= lo * p + r < 32 * p
  {
    assert p * q == p * (32 * hi) + p * lo;
    assert p * (32 * hi) == 32 * p * hi;
    assert lo * p >= 0;
    Distribute(31, lo, p);
    assert (31 - lo) * p >= 0;
  }

  lemma Multiple(k: int, p: int)
    requires k >= 1 && p > 0
    ensures k * p >= p
  {
    assert k * p == (k - 1) * p + p;
  }

  lemma Distribute(a: int, b: int, p: int)
    ensures (a - b) * p == a * p - b * p
  {
  }

  lemma Remainder(x: int, m: int, q: int, r: int)
    requires m > 0 && x == m * q + r && 0 <= r < m
    ensures x % m == r
  {
    var q' := x / m;
    Distribute(q, q', m);
    if q > q' {
      Multiple(q - q', m);
    } else if q < q' {
      Distribute(q', q, m);
      Multiple(q' - q, m);
    }
  }

  /** The digits are the timestamp modulo 2^(5n). */
  lemma {:induction false} DigitsAreTheTime(ts: int, n: nat)
    ensures TimeOf(TimePart(ts, n)) == ts % Pow32(n)
  {
    if n > 0 {
      DigitsAreTheTime(ts, n - 1);
      TopDigit(ts, n);
      SymbolsRise(Top(ts, n), 0);
      assert TimePart(ts, n)[1..] == TimePart(ts, n - 1);
    }
  }

  lemma FiftyBits()
    ensures Pow32(10) == 0x4_0000_0000_0000
  {
    assert Pow32(2) == 1024;
    assert Pow32(4) == 1024 * Pow32(2);
    assert Pow32(6) == 1024 * Pow32(4);
    assert Pow32(8) == 1024 * Pow32(6);
  }

  /** The ten characters give the time back exactly when it is from 1970 on and below 2^50 milliseconds. */
  lemma TimeIsReadBack(ts: int, random: seq<Digit>)
    ensures TimeOf(Generate(ts, random)[4..14]) == ts <==> 0 <= ts < 0x4_0000_0000_0000
  {
    FiftyBits();
    DigitsAreTheTime(ts, 10);
    assert Generate(ts, random)[4..14] == TimePart(ts, 10);
  }

  // ---- Order ----------------------------------------------------------------------------- //

  /** Strings compare by their first difference; a proper prefix comes first. */
  predicate Less(a: string, b: string) {
    b != "" && (a == "" || a[0] < b[0] || (a[0] == b[0] && Less(a[1..], b[1..])))
  }

  lemma {:induction false} CommonPrefix(prefix: string, a: string, b: string)
    ensures Less(prefix + a, prefix + b) <==> Less(a, b)
  {
    if prefix == "" {
      assert prefix + a == a && prefix + b == b;
    } else {
      assert (prefix + a)[1..] == prefix[1..] + a;
      assert (prefix + b)[1..] == prefix[1..] + b;
      CommonPrefix(prefix[1..], a, b);
    }
  }

  lemma {:induction false} DigitsOrder(t1: int, t2: int, n: nat, r1: string, r2: string)
    ensures Less(TimePart(t1, n) + r1, TimePart(t2, n) + r2) <==>
              t1 % Pow32(n) < t2 % Pow32(n) || (t1 % Pow32(n) == t2 % Pow32(n) && Less(r1, r2))
  {
    if n == 0 {
      assert TimePart(t1, 0) + r1 == r1 && TimePart(t2, 0) + r2 == r2;
    } else {
      DigitsOrder(t1, t2, n - 1, r1, r2);
      FirstCharacters(t1, t2, n, r1, r2);
      HigherTime(t1, t2, n);
    }
  }

  lemma FirstCharacters(t1: int, t2: int, n: nat, r1: string, r2: string)
    requires n > 0
    ensures Less(TimePart(t1, n) + r1, TimePart(t2, n) + r2) <==>
              Top(t1, n) < Top(t2, n)
              || (Top(t1, n) == Top(t2, n) && Less(TimePart(t1, n - 1) + r1, TimePart(t2, n - 1) + r2))
  {
    var (a, b) := (TimePart(t1, n) + r1, TimePart(t2, n) + r2);
    assert a[0] == Symbol(Top(t1, n)) && b[0] == Symbol(Top(t2, n));
    assert a[1..] == TimePart(t1, n - 1) + r1 && b[1..] == TimePart(t2, n - 1) + r2;
    SymbolsRise(Top(t1, n), Top(t2, n));
    SymbolsRise(Top(t2, n), Top(t1, n));
  }

  lemma HigherTime(t1: int, t2: int, n: nat)
    requires n > 0
    ensures t1 % Pow32(n) < t2 % Pow32(n) <==>
              Top(t1, n) < Top(t2, n)
              || (Top(t1, n) == Top(t2, n) && t1 % Pow32(n - 1) < t2 % Pow32(n - 1))
    ensures t1 % Pow32(n) == t2 % Pow32(n) <==>
              Top(t1, n) == Top(t2, n) && t1 % Pow32(n - 1) == t2 % Pow32(n - 1)
  {
    TopDigit(t1, n);
    TopDigit(t2, n);
    HigherDigitWins(Top(t1, n), Top(t2, n), t1 % Pow32(n - 1), t2 % Pow32(n - 1), Pow32(n - 1));
  }

  lemma HigherDigitWins(d1: Digit, d2: Digit, x1: int, x2: int, p: int)
    requires 0 <= x1 < p && 0 <= x2 < p
    ensures d1 * p + x1 < d2 * p + x2 <==> d1 < d2 || (d1 == d2 && x1 < x2)
    ensures d1 * p + x1 == d2 * p + x2 <==> d1 == d2 && x1 == x2
  {
    Distribute(d2, d1, p);
    Distribute(d1, d2, p);
    if d1 < d2 {
      Multiple(d2 - d1, p);
    } else if d1 > d2 {
      Multiple(d1 - d2, p);
    }
  }

  /** Ids sort as their times modulo 2^50 do, and by their random parts at the same time; so earlier ids sort first. */
  lemma IdsSortByTime(t1: int, t2: int, random1: seq<Digit>, random2: seq<Digit>)
    ensures var w := 0x4_0000_0000_0000;
            Less(Generate(t1, random1), Generate(t2, random2)) <==>
              t1 % w < t2 % w || (t1 % w == t2 % w && Less(RandomPart(random1), RandomPart(random2)))
    ensures 0 <= t1 < t2 < 0x4_0000_0000_0000 ==> Less(Generate(t1, random1), Generate(t2, random2))
  {
    FiftyBits();
    var (r1, r2) := (RandomPart(random1), RandomPart(random2));
    Parts(t1, random1);
    Parts(t2, random2);
    CommonPrefix("req_", TimePart(t1, 10) + r1, TimePart(t2, 10) + r2);
    DigitsOrder(t1, t2, 10, r1, r2);
  }

  lemma Parts(ts: int, random: seq<Digit>)
    ensures Generate(ts, random) == "req_" + (TimePart(ts, 10) + RandomPart(random))
  {
  }

  // ---- Choosing the id of a request ---------------------------------------------------------- //

  predicate Permitted(c: char) {
    'A' <= c <= 'Z' || 'a' <= c <= 'z' || '0' <= c <= '9' || c == '_' || c == '-'
  }

  predicate PlainId(s: string) {
    8 <= |s| <= 64 && forall i :: 0 <= i < |s| ==> Permitted(s[i])
  }

  /** The pattern's end anchor also matches before one final newline. */
  predicate Accepts(s: string) {
    PlainId(s) || (s != "" && s[|s| - 1] == '\n' && PlainId(s[..|s| - 1]))
  }

  /** Which ids of clients are kept: eight to sixty-four letters, digits, '_' and '-', perhaps with a final newline. */
  lemma AcceptsWhen(s: string)
    ensures Accepts(s) <==>
              exists n :: 0 <= n <= |s| && 8 <= n <= 64
                          && (s[n..] == "" || s[n..] == "\n")
                          && forall c :: c in s[..n] ==>
                               'A' <= c <= 'Z' || 'a' <= c <= 'z' || '0' <= c <= '9' || c in {'_', '-'}
  {
    if PlainId(s) {
      assert s[|s|..] == "" && s[..|s|] == s;
    } else if Accepts(s) {
      assert s[|s| - 1..] == "\n";
    }
    if n :| 0 <= n <= |s| && 8 <= n <= 64 && (s[n..] == "" || s[n..] == "\n")
            && forall c :: c in s[..n] ==>
                 'A' <= c <= 'Z' || 'a' <= c <= 'z' || '0' <= c <= '9' || c in {'_', '-'} {
      var front := s[..n];
      assert forall i :: 0 <= i < n ==> front[i] in front;
      assert PlainId(front);
      if s[n..] == "" {
        assert front == s;
      } else {
        assert n == |s| - 1 && s[n] == s[n..][0];
      }
    }
  }

  /** A generated id: the prefix, ten digits of time, one digit for each random one. */
  lemma GeneratedShape(ts: int, random: seq<Digit>, i: nat)
    ensures |Generate(ts, random)| == 14 + |random| && Generate(ts, random)[..4] == "req_"
    ensures i < 10 ==> Generate(ts, random)[4 + i] == CROCKFORD[ts / Pow32(9 - i) % 32]
    ensures i < |random| ==> Generate(ts, random)[14 + i] == CROCKFORD[random[i]]
  {
    if i < 10 {
      TimePartAt(ts, 10, i);
      assert Generate(ts, random)[4 + i] == TimePart(ts, 10)[i];
      SymbolsAreCrockfords(Top(ts, 10 - i));
    }
    if i < |random| {
      SymbolsAreCrockfords(random[i]);
    }
  }

  lemma {:induction false} TimePartAt(ts: int, n: nat, i: nat)
    requires i < n
    ensures TimePart(ts, n)[i] == Symbol(Top(ts, n - i))
  {
    if i > 0 {
      TimePartAt(ts, n - 1, i - 1);
    }
  }

  function IdFor(incoming: string, ts: int, random: seq<Digit>): string {
    if incoming != "" && Accepts(incoming) then incoming else Generate(ts, random)
  }

  lemma {:induction false} TimePartPermitted(ts: int, n: nat)
    ensures forall i :: 0 <= i < n ==> Permitted(TimePart(ts, n)[i])
  {
    if n > 0 {
      TimePartPermitted(ts, n - 1);
    }
  }

  /** A request passed on with its id keeps it through every further service, whatever their clocks and randomness. */
  lemma IdSurvivesForwarding(incoming: string, ts: int, random: seq<Digit>, ts': int, random': seq<Digit>)
    requires |random| == 16
    ensures IdFor(IdFor(incoming, ts, random), ts', random') == IdFor(incoming, ts, random)
    ensures IdFor(incoming, ts, random) == incoming <==>
              Accepts(incoming) || incoming == Generate(ts, random)
  {
    TimePartPermitted(ts, 10);
    var id := Generate(ts, random);
    assert forall i :: 0 <= i < |id| ==> Permitted(id[i]);
  }
}
