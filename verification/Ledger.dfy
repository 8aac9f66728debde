/** The append-only payment ledger and its daily seal. */
module Ledger {
  import opened Support

  /** Textual UUIDs, all of one width. */
  type EntryId = s: string | |s| == 36 witness seq(36, _ => '0')

  datatype Entry = Entry(id: EntryId, createdAt: Time, cents: nat)

  function Day(t: Time): int {
    t / DAY
  }

  // ---- Sorted ids ----------------------------------------------------------- //

  /** Lexicographic order of strings by code point. */
  predicate LexLe(a: string, b: string) {
    a == [] || (b != [] && (a[0] < b[0] || (a[0] == b[0] && LexLe(a[1..], b[1..]))))
  }

  lemma {:induction false} LexTotal(a: string, b: string)
    ensures LexLe(a, b) || LexLe(b, a)
  {
    if a != [] && b != [] && a[0] == b[0] {
      LexTotal(a[1..], b[1..]);
    }
  }

  lemma {:induction false} LexAntisymmetric(a: string, b: string)
    requires LexLe(a, b) && LexLe(b, a)
    ensures a == b
  {
    if a != [] && b != [] {
      LexAntisymmetric(a[1..], b[1..]);
      assert a == [a[0]] + a[1..] && b == [b[0]] + b[1..];
    }
  }

  lemma {:induction false} LexTransitive(a: string, b: string, c: string)
    requires LexLe(a, b) && LexLe(b, c)
    ensures LexLe(a, c)
  {
    if a != [] && a[0] == b[0] && b[0] == c[0] {
      LexTransitive(a[1..], b[1..], c[1..]);
    }
  }

  /** The order is decided at the first difference, by code point; a prefix comes first. */
  lemma {:induction false} LexIsFirstDifference(a: string, b: string)
    ensures LexLe(a, b) <==> a <= b || exists k :: 0 <= k < |a| && k < |b| && a[..k] == b[..k] && a[k] < b[k]
  {
    if a != [] && b != [] && a[0] == b[0] {
      LexIsFirstDifference(a[1..], b[1..]);
      assert a == [a[0]] + a[1..] && b == [b[0]] + b[1..];
      if k :| 0 <= k < |a[1..]| && k < |b[1..]| && a[1..][..k] == b[1..][..k] && a[1..][k] < b[1..][k] {
        assert a[..k + 1] == [a[0]] + a[1..][..k] && b[..k + 1] == [b[0]] + b[1..][..k];
        assert a[k + 1] < b[k + 1];
      }
      if k :| 0 <= k < |a| && k < |b| && a[..k] == b[..k] && a[k] < b[k] {
        assert a[..k][1..] == a[1..][..k - 1] && b[..k][1..] == b[1..][..k - 1];
        assert a[1..][k - 1] < b[1..][k - 1];
      }
    } else if a != [] && b != [] && a[0] < b[0] {
      assert a[..0] == b[..0];
    }
  }

  ghost predicate Sorted(xs: seq<EntryId>) {
    forall i, j :: 0 <= i < j < |xs| ==> LexLe(xs[i], xs[j])
  }

  function InsertSorted(x: EntryId, xs: seq<EntryId>): (r: seq<EntryId>)
    ensures multiset(r) == multiset(xs) + multiset{x}
  {
    if xs == [] || LexLe(x, xs[0]) then [x] + xs
    else
      assert xs == [xs[0]] + xs[1..];
      [xs[0]] + InsertSorted(x, xs[1..])
  }

  function Sort(xs: seq<EntryId>): (r: seq<EntryId>)
    ensures multiset(r) == multiset(xs)
  {
    if xs == [] then []
    else
      assert xs == [xs[0]] + xs[1..];
      InsertSorted(xs[0], Sort(xs[1..]))
  }

  lemma {:induction false} InsertKeepsSorted(x: EntryId, xs: seq<EntryId>)
    requires Sorted(xs)
    ensures Sorted(InsertSorted(x, xs))
  {
    if xs != [] {
      LexTotal(x, xs[0]);
      if LexLe(x, xs[0]) {
        forall k | 0 <= k < |xs| ensures LexLe(x, xs[k]) {
          if k > 0 {
            LexTransitive(x, xs[0], xs[k]);
          }
        }
      } else {
        var rest := InsertSorted(x, xs[1..]);
        InsertKeepsSorted(x, xs[1..]);
        forall k | 0 <= k < |rest| ensures LexLe(xs[0], rest[k]) {
          assert rest[k] in multiset(rest);
          assert rest[k] == x || rest[k] in multiset(xs[1..]);
          if rest[k] in xs[1..] {
            var m :| 0 <= m < |xs[1..]| && xs[1..][m] == rest[k];
            assert xs[m + 1] == rest[k];
          }
        }
      }
    }
  }

  lemma {:induction false} SortSorts(xs: seq<EntryId>)
    ensures Sorted(Sort(xs))
  {
    if xs != [] {
      SortSorts(xs[1..]);
      InsertKeepsSorted(xs[0], Sort(xs[1..]));
    }
  }

  lemma HeadIsLeast(xs: seq<EntryId>, y: EntryId)
    requires Sorted(xs) && y in multiset(xs)
    ensures LexLe(xs[0], y)
  {
    var k :| 0 <= k < |xs| && xs[k] == y;
    LexTotal(y, y);
  }

  lemma TailMultiset(xs: seq<EntryId>)
    requires xs != []
    ensures multiset(xs[1..]) == multiset(xs) - multiset{xs[0]} && xs[0] in multiset(xs)
  {
    assert xs == [xs[0]] + xs[1..];
  }

  /** Only one sorted arrangement of given ids exists. */
  lemma {:induction false} SortedIsUnique(xs: seq<EntryId>, ys: seq<EntryId>)
    requires Sorted(xs) && Sorted(ys) && multiset(xs) == multiset(ys)
    ensures xs == ys
  {
    if xs == [] || ys == [] {
      assert |multiset(xs)| == |xs| && |multiset(ys)| == |ys|;
    } else {
      TailMultiset(xs);
      TailMultiset(ys);
      HeadIsLeast(xs, ys[0]);
      HeadIsLeast(ys, xs[0]);
      LexAntisymmetric(xs[0], ys[0]);
      SortedIsUnique(xs[1..], ys[1..]);
      assert xs == [xs[0]] + xs[1..] && ys == [ys[0]] + ys[1..];
    }
  }

  // ---- The hash input ---------------------------------------------------------- //

  function Join(xs: seq<EntryId>): (s: string)
    ensures |s| == 36 * |xs|
  {
    if xs == [] then "" else xs[0] + Join(xs[1..])
  }

  lemma {:induction false} JoinInjective(xs: seq<EntryId>, ys: seq<EntryId>)
    requires Join(xs) == Join(ys)
    ensures xs == ys
  {
    if xs != [] && ys != [] {
      assert Join(xs)[..36] == xs[0] && Join(ys)[..36] == ys[0];
      assert Join(xs)[36..] == Join(xs[1..]) && Join(ys)[36..] == Join(ys[1..]);
      JoinInjective(xs[1..], ys[1..]);
      assert xs == [xs[0]] + xs[1..] && ys == [ys[0]] + ys[1..];
    }
  }

  function Ids(entries: seq<Entry>): (ids: seq<EntryId>)
    ensures |ids| == |entries| && forall i :: 0 <= i < |entries| ==> ids[i] == entries[i].id
  {
    seq(|entries|, i requires 0 <= i < |entries| => entries[i].id)
  }

  /** What SHA-256 is applied to. */
  function HashInput(entries: seq<Entry>): string {
    Join(Sort(Ids(entries)))
  }

  lemma {:induction false} JoinAppend(xs: seq<EntryId>, ys: seq<EntryId>)
    ensures Join(xs + ys) == Join(xs) + Join(ys) && forall x: EntryId :: Join([x]) == x
  {
    if xs == [] {
      assert xs + ys == ys;
    } else {
      assert (xs + ys)[1..] == xs[1..] + ys;
      JoinAppend(xs[1..], ys);
    }
  }

  /** What is hashed are the day's ids in order, one after the other with nothing between. */
  lemma HashInputIsInOrder(entries: seq<Entry>, ids: seq<EntryId>)
    requires Sorted(ids) && multiset(ids) == multiset(Ids(entries))
    ensures HashInput(entries) == Join(ids)
  {
    SortSorts(Ids(entries));
    SortedIsUnique(ids, Sort(Ids(entries)));
  }

  /** Two days hash the same text exactly when they hold the same ids, in whatever order they were read. */
  lemma HashInputIsTheIds(a: seq<Entry>, b: seq<Entry>)
    ensures HashInput(a) == HashInput(b) <==> multiset(Ids(a)) == multiset(Ids(b))
  {
    if HashInput(a) == HashInput(b) {
      JoinInjective(Sort(Ids(a)), Sort(Ids(b)));
    }
    if multiset(Ids(a)) == multiset(Ids(b)) {
      SortSorts(Ids(a));
      SortSorts(Ids(b));
      SortedIsUnique(Sort(Ids(a)), Sort(Ids(b)));
    }
  }

  // ---- Seals --------------------------------------------------------------------- //

  function Total(entries: seq<Entry>): nat {
    if entries == [] then 0 else Total(entries[..|entries| - 1]) + entries[|entries| - 1].cents
  }

  datatype Seal = Seal(date: int, count: nat, total: nat, digest: string)

  function SealOf(sha: string -> string, date: int, entries: seq<Entry>): Seal {
    Seal(date, |entries|, Total(entries), sha(HashInput(entries)))
  }

  /** As far as the hash has no collision on the two, equal digests mean equal ids. */
  lemma DigestPinsTheIds(sha: string -> string, a: seq<Entry>, b: seq<Entry>)
    requires sha(HashInput(a)) == sha(HashInput(b)) ==> HashInput(a) == HashInput(b)
    ensures sha(HashInput(a)) == sha(HashInput(b)) <==> multiset(Ids(a)) == multiset(Ids(b))
  {
    HashInputIsTheIds(a, b);
  }

  lemma {:induction false} TotalAppend(a: seq<Entry>, b: seq<Entry>)
    ensures Total(a + b) == Total(a) + Total(b)
  {
    if b == [] {
      assert a + b == a;
    } else {
      assert (a + b)[..|a + b| - 1] == a + b[..|b| - 1];
      TotalAppend(a, b[..|b| - 1]);
    }
  }

  lemma TotalMiddle(b: seq<Entry>, x: seq<Entry>, e: Entry, y: seq<Entry>)
    requires b == x + [e] + y
    ensures Total(b) == Total(x + y) + e.cents
  {
    TotalAppend(x + [e], y);
    TotalAppend(x, y);
    TotalSnoc(x, e);
  }

  lemma WithoutTotal(b: seq<Entry>, i: nat)
    requires i < |b|
    ensures Total(b) == Total(Without(b, i)) + b[i].cents
  {
    WithoutSplits(b, i);
    TotalMiddle(b, b[..i], b[i], b[i + 1..]);
  }

  lemma TotalSnoc(a: seq<Entry>, e: Entry)
    ensures Total(a + [e]) == Total(a) + e.cents
  {
    assert (a + [e])[..|a|] == a;
  }

  lemma WithoutIds(b: seq<Entry>, i: nat)
    requires i < |b|
    ensures multiset(Ids(b)) == multiset(Ids(Without(b, i))) + multiset{b[i].id}
  {
    var x, y := Ids(b[..i]), Ids(b[i + 1..]);
    assert Ids(b) == x + [b[i].id] + y;
    assert Ids(Without(b, i)) == x + y;
  }

  lemma SameSize(a: seq<Entry>, b: seq<Entry>)
    requires multiset(a) == multiset(b)
    ensures |a| == |b|
  {
    assert |multiset(a)| == |a| && |multiset(b)| == |b|;
  }

  /** Where the first entry of one arrangement sits in the other. */
  lemma Matching(a: seq<Entry>, b: seq<Entry>) returns (i: nat)
    requires multiset(a) == multiset(b) && a != []
    ensures i < |b| && b[i] == a[0]
    ensures multiset(Without(a, 0)) == multiset(Without(b, i))
  {
    assert a[0] in multiset(b);
    i :| 0 <= i < |b| && b[i] == a[0];
    WithoutMultiset(a, 0);
    WithoutMultiset(b, i);
    assert multiset(Without(a, 0)) == multiset(a) - multiset{a[0]};
    assert multiset(Without(b, i)) == multiset(b) - multiset{a[0]};
  }

  lemma {:induction false} TotalPermutes(a: seq<Entry>, b: seq<Entry>)
    requires multiset(a) == multiset(b)
    ensures Total(a) == Total(b)
    decreases |a|
  {
    SameSize(a, b);
    if a == [] {
      assert b == [];
    } else {
      var i := Matching(a, b);
      TotalPermutes(Without(a, 0), Without(b, i));
      WithoutTotal(a, 0);
      WithoutTotal(b, i);
    }
  }

  lemma {:induction false} IdsPermute(a: seq<Entry>, b: seq<Entry>)
    requires multiset(a) == multiset(b)
    ensures multiset(Ids(a)) == multiset(Ids(b))
    decreases |a|
  {
    SameSize(a, b);
    if a == [] {
      assert b == [];
    } else {
      var i := Matching(a, b);
      IdsPermute(Without(a, 0), Without(b, i));
      WithoutIds(a, 0);
      WithoutIds(b, i);
    }
  }

  /** A seal does not depend on the order the query returns the day in. */
  lemma SealIgnoresOrder(sha: string -> string, date: int, a: seq<Entry>, b: seq<Entry>)
    requires multiset(a) == multiset(b)
    ensures SealOf(sha, date, a) == SealOf(sha, date, b)
  {
    SameSize(a, b);
    TotalPermutes(a, b);
    IdsPermute(a, b);
    HashInputIsTheIds(a, b);
  }

  // ---- The machine ------------------------------------------------------------------ //

  /** Rows committed so far in order, rows inserted by open transactions, seals and the clock. */
  datatype State = State(entries: seq<Entry>, pending: map<EntryId, Entry>, seals: seq<Seal>, now: Time)

  datatype Action =
    | Insert(id: EntryId, cents: nat)
    | Commit(id: EntryId)
    | Rollback(id: EntryId)
    | SealYesterday
    | Tick(elapsed: nat)

  function OnDay(entries: seq<Entry>, date: int): seq<Entry> {
    if entries == [] then []
    else
      var rest := OnDay(entries[..|entries| - 1], date);
      if Day(entries[|entries| - 1].createdAt) == date then rest + [entries[|entries| - 1]] else rest
  }

  predicate SealExists(seals: seq<Seal>, date: int) {
    exists i :: 0 <= i < |seals| && seals[i].date == date
  }

  function Step(sha: string -> string, s: State, a: Action): State {
    match a
    case Insert(id, cents) =>
      if id in s.pending || id in Ids(s.entries) then s
      else s.(pending := s.pending[id := Entry(id, s.now, cents)])
    case Commit(id) =>
      if id in s.pending then s.(entries := s.entries + [s.pending[id]], pending := s.pending - {id}) else s
    case Rollback(id) => s.(pending := s.pending - {id})
    case SealYesterday =>
      var date := Day(s.now) - 1;
      var day := OnDay(s.entries, date);
      if SealExists(s.seals, date) || day == [] then s
      else s.(seals := s.seals + [SealOf(sha, date, day)])
    case Tick(elapsed) => s.(now := s.now + elapsed)
  }

  function Run(sha: string -> string, s: State, actions: seq<Action>): State
    decreases |actions|
  {
    if actions == [] then s else Run(sha, Step(sha, s, actions[0]), actions[1..])
  }

  /** Recomputing the day gives the seal. */
  predicate Accurate(sha: string -> string, s: State, seal: Seal) {
    seal == SealOf(sha, seal.date, OnDay(s.entries, seal.date))
  }

  predicate PendingOn(s: State, date: int) {
    exists id :: id in s.pending && Day(s.pending[id].createdAt) == date
  }

  lemma OnDaySnoc(entries: seq<Entry>, e: Entry, date: int)
    ensures OnDay(entries + [e], date) ==
            if Day(e.createdAt) == date then OnDay(entries, date) + [e] else OnDay(entries, date)
  {
    assert (entries + [e])[..|entries + [e]| - 1] == entries;
  }

  /** The entries of a date are those stamped within its twenty-four hours, each as often as it is on file. */
  lemma {:induction false} OnDayIsExact(entries: seq<Entry>, date: int, e: Entry)
    ensures multiset(OnDay(entries, date))[e]
            == if date * (24 * HOUR) <= e.createdAt < (date + 1) * (24 * HOUR) then multiset(entries)[e] else 0
  {
    DayIs(e.createdAt, date);
    if entries != [] {
      var n := |entries| - 1;
      OnDayIsExact(entries[..n], date, e);
      assert entries == entries[..n] + [entries[n]];
    }
  }

  lemma DayIs(t: Time, date: int)
    ensures Day(t) == date <==> date * (24 * HOUR) <= t < (date + 1) * (24 * HOUR)
  {
  }

  /** Sealing takes the day before the present one, whole, and at most once. */
  lemma SealTakesYesterday(sha: string -> string, s: State)
    ensures var s' := Step(sha, s, SealYesterday);
            && s' == s.(seals := s'.seals)
            && (s'.seals == s.seals || (|s'.seals| == |s.seals| + 1 && s'.seals[..|s.seals|] == s.seals))
            && (s'.seals != s.seals ==>
                  var seal := s'.seals[|s.seals|];
                  && seal.date * (24 * HOUR) <= s.now - 24 * HOUR < (seal.date + 1) * (24 * HOUR)
                  && !SealExists(s.seals, seal.date)
                  && seal.count == |OnDay(s.entries, seal.date)| > 0 && seal.total == Total(OnDay(s.entries, seal.date))
                  && seal.digest == sha(HashInput(OnDay(s.entries, seal.date))))
  {
    DayIs(s.now - 24 * HOUR, Day(s.now) - 1);
  }

  lemma DayMonotone(a: Time, b: Time)
    requires a <= b
    ensures Day(a) <= Day(b)
  {
  }

  /** A past day without open insertions never changes again. */
  lemma {:induction false} ClosedDayIsFrozen(sha: string -> string, s: State, actions: seq<Action>, date: int)
    requires date < Day(s.now) && !PendingOn(s, date)
    ensures var s' := Run(sha, s, actions);
            date < Day(s'.now) && !PendingOn(s', date) && OnDay(s'.entries, date) == OnDay(s.entries, date)
    decreases |actions|
  {
    if actions != [] {
      var a, s1 := actions[0], Step(sha, s, actions[0]);
      DayMonotone(s.now, s1.now);
      if a.Commit? && a.id in s.pending {
        OnDaySnoc(s.entries, s.pending[a.id], date);
      }
      forall id | id in s1.pending ensures Day(s1.pending[id].createdAt) != date {
        assert id in s.pending ==> s1.pending[id] == s.pending[id];
      }
      ClosedDayIsFrozen(sha, s1, actions[1..], date);
    }
  }

  lemma RunCons(sha: string -> string, s: State, a: Action, rest: seq<Action>)
    ensures Run(sha, s, [a] + rest) == Run(sha, Step(sha, s, a), rest)
  {
    assert ([a] + rest)[1..] == rest;
  }

  /** An entry committed into a sealed day makes its seal wrong. */
  lemma LateCommitBreaks(sha: string -> string, s: State, seal: Seal, id: EntryId)
    requires Accurate(sha, s, seal) && id in s.pending && Day(s.pending[id].createdAt) == seal.date
    ensures !Accurate(sha, Run(sha, s, [Commit(id)]), seal)
  {
    OnDaySnoc(s.entries, s.pending[id], seal.date);
    RunCons(sha, s, Commit(id), []);
  }

  /**
   A seal that is right on a past day stays right in every future if and only
   if no transaction is still open with an entry stamped on that day.
  */
  lemma SealStaysTrue(sha: string -> string, s: State, seal: Seal)
    requires seal.date < Day(s.now) && Accurate(sha, s, seal)
    ensures (forall future :: Accurate(sha, Run(sha, s, future), seal)) <==> !PendingOn(s, seal.date)
  {
    if PendingOn(s, seal.date) {
      var id :| id in s.pending && Day(s.pending[id].createdAt) == seal.date;
      LateCommitBreaks(sha, s, seal, id);
      var future := [Commit(id)];
      assert exists f :: !Accurate(sha, Run(sha, s, f), seal) by {
        assert !Accurate(sha, Run(sha, s, future), seal);
      }
    } else {
      forall future ensures Accurate(sha, Run(sha, s, future), seal) {
        ClosedDayIsFrozen(sha, s, future, seal.date);
      }
    }
  }

  // ---- All seals of a run --------------------------------------------------------------- //

  ghost predicate OneSealPerDate(s: State) {
    forall i, j :: 0 <= i < j < |s.seals| ==> s.seals[i].date != s.seals[j].date
  }

  lemma {:induction false} OneSealPerDateAlways(sha: string -> string, s: State, actions: seq<Action>)
    requires OneSealPerDate(s)
    ensures OneSealPerDate(Run(sha, s, actions))
    decreases |actions|
  {
    if actions != [] {
      OneSealPerDateAlways(sha, Step(sha, s, actions[0]), actions[1..]);
    }
  }

  /** The step commits an entry into a day that is already sealed. */
  predicate CommitsLate(s: State, a: Action) {
    a.Commit? && a.id in s.pending && SealExists(s.seals, Day(s.pending[a.id].createdAt))
  }

  predicate NoneCommitsLate(sha: string -> string, s: State, actions: seq<Action>)
    decreases |actions|
  {
    actions == [] || (!CommitsLate(s, actions[0]) && NoneCommitsLate(sha, Step(sha, s, actions[0]), actions[1..]))
  }

  /** An entry still open on a past day at some later time was open already: nothing new is stamped into the past. */
  lemma {:induction false} OpenOnPastDayWasOpen(sha: string -> string, s: State, actions: seq<Action>, id: EntryId)
    requires id in Run(sha, s, actions).pending
    requires Day(Run(sha, s, actions).pending[id].createdAt) < Day(s.now)
    ensures id in s.pending && s.pending[id] == Run(sha, s, actions).pending[id]
    decreases |actions|
  {
    if actions != [] {
      var s1 := Step(sha, s, actions[0]);
      DayMonotone(s.now, s1.now);
      OpenOnPastDayWasOpen(sha, s1, actions[1..], id);
    }
  }

  ghost predicate SealsTrue(sha: string -> string, s: State) {
    forall i :: 0 <= i < |s.seals| ==> Accurate(sha, s, s.seals[i]) && s.seals[i].date < Day(s.now)
  }

  /** Some seal counts fewer entries than its day holds. */
  ghost predicate SomeSealShort(s: State) {
    exists i :: 0 <= i < |s.seals| && s.seals[i].count < |OnDay(s.entries, s.seals[i].date)|
  }

  lemma CommitElsewhere(sha: string -> string, s: State, id: EntryId, seal: Seal)
    requires Accurate(sha, s, seal) && id in s.pending && Day(s.pending[id].createdAt) != seal.date
    ensures Accurate(sha, Step(sha, s, Commit(id)), seal)
  {
    OnDaySnoc(s.entries, s.pending[id], seal.date);
  }

  lemma StepKeepsSealsTrue(sha: string -> string, s: State, a: Action)
    requires SealsTrue(sha, s) && !CommitsLate(s, a)
    ensures SealsTrue(sha, Step(sha, s, a))
  {
    var s1 := Step(sha, s, a);
    DayMonotone(s.now, s1.now);
    forall i | 0 <= i < |s1.seals| ensures Accurate(sha, s1, s1.seals[i]) && s1.seals[i].date < Day(s1.now) {
      if i < |s.seals| {
        assert s1.seals[i] == s.seals[i];
        if a.Commit? && a.id in s.pending {
          CommitElsewhere(sha, s, a.id, s.seals[i]);
        }
      }
    }
  }

  lemma LateCommitShortens(sha: string -> string, s: State, a: Action)
    requires SealsTrue(sha, s) && CommitsLate(s, a)
    ensures SomeSealShort(Step(sha, s, a))
  {
    var date := Day(s.pending[a.id].createdAt);
    var i :| 0 <= i < |s.seals| && s.seals[i].date == date;
    OnDaySnoc(s.entries, s.pending[a.id], date);
    assert Step(sha, s, a).seals[i].count < |OnDay(Step(sha, s, a).entries, date)|;
  }

  lemma {:induction false} ShortForever(sha: string -> string, s: State, actions: seq<Action>)
    requires SomeSealShort(s)
    ensures SomeSealShort(Run(sha, s, actions))
    decreases |actions|
  {
    if actions != [] {
      var i :| 0 <= i < |s.seals| && s.seals[i].count < |OnDay(s.entries, s.seals[i].date)|;
      var s1 := Step(sha, s, actions[0]);
      if actions[0].Commit? && actions[0].id in s.pending {
        OnDaySnoc(s.entries, s.pending[actions[0].id], s.seals[i].date);
      }
      assert s1.seals[i] == s.seals[i] && s1.seals[i].count < |OnDay(s1.entries, s1.seals[i].date)|;
      ShortForever(sha, s1, actions[1..]);
    }
  }

  lemma {:induction false} SealsTrueUnlessLate(sha: string -> string, s: State, actions: seq<Action>)
    requires SealsTrue(sha, s)
    ensures SealsTrue(sha, Run(sha, s, actions)) <==> NoneCommitsLate(sha, s, actions)
    ensures !NoneCommitsLate(sha, s, actions) ==> SomeSealShort(Run(sha, s, actions))
    decreases |actions|
  {
    if actions != [] {
      if CommitsLate(s, actions[0]) {
        LateCommitShortens(sha, s, actions[0]);
        ShortForever(sha, Step(sha, s, actions[0]), actions[1..]);
        ShortIsWrong(sha, Run(sha, s, actions));
      } else {
        StepKeepsSealsTrue(sha, s, actions[0]);
        SealsTrueUnlessLate(sha, Step(sha, s, actions[0]), actions[1..]);
      }
    }
  }

  lemma ShortIsWrong(sha: string -> string, s: State)
    requires SomeSealShort(s)
    ensures exists i :: 0 <= i < |s.seals| && !Accurate(sha, s, s.seals[i])
  {
    var i :| 0 <= i < |s.seals| && s.seals[i].count < |OnDay(s.entries, s.seals[i].date)|;
    assert !Accurate(sha, s, s.seals[i]);
  }

  /**
   From an empty ledger: at most one seal a date, and at the end of the run
   every seal equals its recomputation if and only if no entry was committed
   into a day after it was sealed.
  */
  lemma EverySealIsTrue(sha: string -> string, start: Time, actions: seq<Action>)
    ensures var s := Run(sha, State([], map[], [], start), actions);
            && OneSealPerDate(s)
            && ((forall i :: 0 <= i < |s.seals| ==> Accurate(sha, s, s.seals[i])) <==>
                  NoneCommitsLate(sha, State([], map[], [], start), actions))
  {
    var empty := State([], map[], [], start);
    OneSealPerDateAlways(sha, empty, actions);
    SealsTrueUnlessLate(sha, empty, actions);
    if !NoneCommitsLate(sha, empty, actions) {
      ShortIsWrong(sha, Run(sha, empty, actions));
    }
  }

  /** Two entries of one day, the second committed only after the day is sealed. */
  function SealedTooEarly(a: EntryId, b: EntryId): seq<Action> {
    [Insert(a, 100), Insert(b, 50), Commit(a), Tick(DAY), SealYesterday, Commit(b)]
  }

  lemma TwoInsertedOneCommitted(sha: string -> string, a: EntryId, b: EntryId, rest: seq<Action>)
    requires a != b
    ensures Run(sha, State([], map[], [], 0), [Insert(a, 100), Insert(b, 50), Commit(a)] + rest)
            == Run(sha, State([Entry(a, 0, 100)], map[b := Entry(b, 0, 50)], [], 0), rest)
  {
    var s0 := State([], map[], [], 0);
    var s1 := State([], map[a := Entry(a, 0, 100)], [], 0);
    var s2 := State([], map[a := Entry(a, 0, 100), b := Entry(b, 0, 50)], [], 0);
    var s3 := State([Entry(a, 0, 100)], map[b := Entry(b, 0, 50)], [], 0);
    assert Step(sha, s0, Insert(a, 100)) == s1;
    assert Step(sha, s1, Insert(b, 50)) == s2;
    assert Step(sha, s2, Commit(a)) == s3;
    RunCons(sha, s2, Commit(a), rest);
    RunCons(sha, s1, Insert(b, 50), [Commit(a)] + rest);
    RunCons(sha, s0, Insert(a, 100), [Insert(b, 50)] + ([Commit(a)] + rest));
    assert [Insert(a, 100), Insert(b, 50), Commit(a)] + rest
        == [Insert(a, 100)] + ([Insert(b, 50)] + ([Commit(a)] + rest));
  }

  lemma OneEntryDay(e: Entry)
    requires Day(e.createdAt) == 0
    ensures OnDay([e], 0) == [e]
  {
    OnDaySnoc([], e, 0);
    assert [] + [e] == [e];
  }

  lemma SealingStep(sha: string -> string, e: Entry, pending: map<EntryId, Entry>)
    requires Day(e.createdAt) == 0
    ensures Step(sha, State([e], pending, [], DAY), SealYesterday)
            == State([e], pending, [SealOf(sha, 0, [e])], DAY)
  {
    var s := State([e], pending, [], DAY);
    assert Day(s.now) - 1 == 0;
    OneEntryDay(e);
    SealsTheDay(sha, s, 0, [e]);
  }

  lemma SealsTheDay(sha: string -> string, s: State, date: int, day: seq<Entry>)
    requires date == Day(s.now) - 1 && day == OnDay(s.entries, date) && day != [] && s.seals == []
    ensures Step(sha, s, SealYesterday) == s.(seals := [SealOf(sha, date, day)])
  {
    assert !SealExists(s.seals, date);
    assert s.seals + [SealOf(sha, date, day)] == [SealOf(sha, date, day)];
  }

  lemma DayAfterSealed(sha: string -> string, e: Entry, pending: map<EntryId, Entry>, rest: seq<Action>)
    requires Day(e.createdAt) == 0
    ensures Run(sha, State([e], pending, [], 0), [Tick(DAY), SealYesterday] + rest)
            == Run(sha, State([e], pending, [SealOf(sha, 0, [e])], DAY), rest)
    ensures OnDay([e], 0) == [e]
  {
    OneEntryDay(e);
    SealingStep(sha, e, pending);
    RunCons(sha, State([e], pending, [], DAY), SealYesterday, rest);
    RunCons(sha, State([e], pending, [], 0), Tick(DAY), [SealYesterday] + rest);
    assert [Tick(DAY), SealYesterday] + rest == [Tick(DAY)] + ([SealYesterday] + rest);
  }

  /** A run from the empty ledger that ends with a wrong seal. */
  lemma SealCanBeWrong(sha: string -> string, a: EntryId, b: EntryId)
    requires a != b
    ensures var s := Run(sha, State([], map[], [], 0), SealedTooEarly(a, b));
            |s.seals| == 1 && !Accurate(sha, s, s.seals[0])
  {
    var e, pending := Entry(a, 0, 100), map[b := Entry(b, 0, 50)];
    TwoInsertedOneCommitted(sha, a, b, [Tick(DAY), SealYesterday] + [Commit(b)]);
    DayAfterSealed(sha, e, pending, [Commit(b)]);
    assert SealedTooEarly(a, b)
        == [Insert(a, 100), Insert(b, 50), Commit(a)] + ([Tick(DAY), SealYesterday] + [Commit(b)]);
    var s := State([e], pending, [SealOf(sha, 0, [e])], DAY);
    LateCommitBreaks(sha, s, s.seals[0], b);
    RunCons(sha, s, Commit(b), []);
  }

  // ---- The repository and the worker -------------------------------------------------------- //

  class LedgerRepository {
    var entries: seq<Entry>
    var seals: seq<Seal>
    /** SHA-256 of a text, in hexadecimal. */
    const sha: string -> string

    constructor (sha: string -> string)
      ensures entries == [] && seals == [] && this.sha == sha
    {
      entries, seals, this.sha := [], [], sha;
    }

    method Create(e: Entry)
      modifies this`entries
      ensures entries == old(entries) + [e]
    {
      entries := entries + [e];
    }

    /** _seal_day over the rows the query returned, in any order. */
    method SealDay(date: int, rows: seq<Entry>) returns (sealed: bool)
      requires multiset(rows) == multiset(OnDay(entries, date))
      modifies this`seals
      ensures sealed <==> !SealExists(old(seals), date) && OnDay(entries, date) != []
      ensures seals == if sealed then old(seals) + [SealOf(sha, date, OnDay(entries, date))] else old(seals)
      ensures sealed ==> seals[|old(seals)|] == Seal(date, |rows|, Total(rows), sha(HashInput(rows)))
    {
      SameSize(rows, OnDay(entries, date));
      if SealExists(seals, date) {
        return false;
      }
      if rows == [] {
        return false;
      }
      var totalCents := 0;
      for i := 0 to |rows|
        invariant totalCents == Total(rows[..i])
      {
        totalCents := totalCents + rows[i].cents;
        assert rows[..i + 1][..i] == rows[..i];
      }
      assert rows[..|rows|] == rows;
      SealIgnoresOrder(sha, date, rows, OnDay(entries, date));
      seals := seals + [Seal(date, |rows|, totalCents, sha(Join(Sort(Ids(rows)))))];
      return true;
    }
  }
}
