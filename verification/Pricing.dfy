/**
 Prices and durations.  Four places add them up: the matching quote, the
 multi-vehicle calculation, the booking itself and the fare estimate.
*/
module Pricing {
  import opened Support

  datatype Size = Small | Medium | Large | XL

  /** Size multipliers in tenths. */
  function Tenths(size: Size): nat {
    match size
    case Small => 10
    case Medium => 12
    case Large => 15
    case XL => 20
  }

  /** The two quantities every loop accumulates side by side. */
  datatype Measure = Price | Minutes

  datatype Cost = Cost(price: nat, minutes: nat) {
    function Of(m: Measure): nat {
      if m.Price? then price else minutes
    }
  }

  datatype Service = Service(basePrice: nat, baseMinutes: nat) {
    function Base(m: Measure): nat {
      if m.Price? then basePrice else baseMinutes
    }
  }

  /** ceil(base * multiplier), computed exactly. */
  function Scale(base: nat, size: Size): nat {
    (base * Tenths(size) + 9) / 10
  }

  function VehiclesTotal(m: Measure, svc: Service, sizes: seq<Size>): nat {
    if sizes == [] then 0
    else VehiclesTotal(m, svc, sizes[..|sizes| - 1]) + Scale(svc.Base(m), sizes[|sizes| - 1])
  }

  /** An id the catalogue does not know is skipped, as the booking's lookup does. */
  function AddonCost(m: Measure, catalog: map<Id, Cost>, id: Id): nat {
    if id in catalog then catalog[id].Of(m) else 0
  }

  /** Total of the addons with the given ids, one charge for each occurrence. */
  function AddonsTotal(m: Measure, catalog: map<Id, Cost>, ids: seq<Id>): nat {
    if ids == [] then 0
    else AddonsTotal(m, catalog, ids[..|ids| - 1]) + AddonCost(m, catalog, ids[|ids| - 1])
  }

  // ---- Quotes --------------------------------------------------------- //

  /** What the matching endpoint quotes. */
  function Quote(m: Measure, svc: Service, sizes: seq<Size>, catalog: map<Id, Cost>, addons: seq<Id>): nat {
    VehiclesTotal(m, svc, sizes) + AddonsTotal(m, catalog, addons)
  }

  method MatchingTotals(svc: Service, sizes: seq<Size>, catalog: map<Id, Cost>, addons: seq<Id>)
    returns (totalPriceCents: nat, totalDurationMins: nat)
    ensures totalPriceCents == Quote(Price, svc, sizes, catalog, addons)
    ensures totalDurationMins == Quote(Minutes, svc, sizes, catalog, addons)
  {
    totalPriceCents, totalDurationMins := 0, 0;
    for i := 0 to |sizes|
      invariant totalPriceCents == VehiclesTotal(Price, svc, sizes[..i])
      invariant totalDurationMins == VehiclesTotal(Minutes, svc, sizes[..i])
    {
      totalPriceCents := totalPriceCents + Scale(svc.basePrice, sizes[i]);
      totalDurationMins := totalDurationMins + Scale(svc.baseMinutes, sizes[i]);
      assert sizes[..i + 1][..i] == sizes[..i];
    }
    assert sizes[..|sizes|] == sizes;
    for i := 0 to |addons|
      invariant totalPriceCents == Quote(Price, svc, sizes, catalog, addons[..i])
      invariant totalDurationMins == Quote(Minutes, svc, sizes, catalog, addons[..i])
    {
      totalPriceCents := totalPriceCents + AddonCost(Price, catalog, addons[i]);
      totalDurationMins := totalDurationMins + AddonCost(Minutes, catalog, addons[i]);
      assert addons[..i + 1][..i] == addons[..i];
    }
    assert addons[..|addons|] == addons;
  }

  datatype Calculation = Calculation(priceCents: nat, durationMinutes: nat, estimatedEnd: Time, bufferEnd: Time)

  method CalculateMulti(svc: Service, sizes: seq<Size>, catalog: map<Id, Cost>, addons: seq<Id>,
                        scheduled: Time, bufferMinutes: nat)
    returns (c: Calculation)
    ensures c.priceCents == Quote(Price, svc, sizes, catalog, addons)
    ensures c.durationMinutes == Quote(Minutes, svc, sizes, catalog, addons)
    ensures c.estimatedEnd == scheduled + c.durationMinutes * MINUTE
    ensures c.bufferEnd == c.estimatedEnd + bufferMinutes * MINUTE
  {
    var price: nat, minutes: nat := 0, 0;
    for i := 0 to |sizes|
      invariant price == VehiclesTotal(Price, svc, sizes[..i])
      invariant minutes == VehiclesTotal(Minutes, svc, sizes[..i])
    {
      price, minutes := price + Scale(svc.basePrice, sizes[i]), minutes + Scale(svc.baseMinutes, sizes[i]);
      assert sizes[..i + 1][..i] == sizes[..i];
    }
    assert sizes[..|sizes|] == sizes;
    for i := 0 to |addons|
      invariant price == Quote(Price, svc, sizes, catalog, addons[..i])
      invariant minutes == Quote(Minutes, svc, sizes, catalog, addons[..i])
    {
      price := price + AddonCost(Price, catalog, addons[i]);
      minutes := minutes + AddonCost(Minutes, catalog, addons[i]);
      assert addons[..i + 1][..i] == addons[..i];
    }
    assert addons[..|addons|] == addons;
    var end := scheduled + minutes * MINUTE;
    c := Calculation(price, minutes, end, end + bufferMinutes * MINUTE);
  }

  // ---- Bookings ------------------------------------------------------- //

  /** One vehicle of a booking request, with its service and the addons attached to it. */
  datatype Entry = Entry(vehicle: Id, size: Size, service: Service, addons: seq<Id>)

  function EntryTotal(m: Measure, catalog: map<Id, Cost>, e: Entry): nat {
    Scale(e.service.Base(m), e.size) + AddonsTotal(m, catalog, e.addons)
  }

  function BookingTotal(m: Measure, catalog: map<Id, Cost>, entries: seq<Entry>): nat {
    if entries == [] then 0
    else BookingTotal(m, catalog, entries[..|entries| - 1]) + EntryTotal(m, catalog, entries[|entries| - 1])
  }

  function Sizes(entries: seq<Entry>): (sizes: seq<Size>)
    ensures |sizes| == |entries| && forall i :: 0 <= i < |entries| ==> sizes[i] == entries[i].size
  {
    seq(|entries|, i requires 0 <= i < |entries| => entries[i].size)
  }

  /** All addon ids a request attaches, in order and with repetitions. */
  function Attached(entries: seq<Entry>): seq<Id> {
    if entries == [] then [] else Attached(entries[..|entries| - 1]) + entries[|entries| - 1].addons
  }

  method BookingTotals(catalog: map<Id, Cost>, entries: seq<Entry>)
    returns (totalPriceCents: nat, totalDurationMins: nat)
    ensures totalPriceCents == BookingTotal(Price, catalog, entries)
    ensures totalDurationMins == BookingTotal(Minutes, catalog, entries)
  {
    totalPriceCents, totalDurationMins := 0, 0;
    for i := 0 to |entries|
      invariant totalPriceCents == BookingTotal(Price, catalog, entries[..i])
      invariant totalDurationMins == BookingTotal(Minutes, catalog, entries[..i])
    {
      var e := entries[i];
      var p: nat, d: nat := Scale(e.service.basePrice, e.size), Scale(e.service.baseMinutes, e.size);
      for j := 0 to |e.addons|
        invariant p == Scale(e.service.basePrice, e.size) + AddonsTotal(Price, catalog, e.addons[..j])
        invariant d == Scale(e.service.baseMinutes, e.size) + AddonsTotal(Minutes, catalog, e.addons[..j])
      {
        p := p + AddonCost(Price, catalog, e.addons[j]);
        d := d + AddonCost(Minutes, catalog, e.addons[j]);
        assert e.addons[..j + 1][..j] == e.addons[..j];
      }
      assert e.addons[..|e.addons|] == e.addons;
      totalPriceCents, totalDurationMins := totalPriceCents + p, totalDurationMins + d;
      assert entries[..i + 1][..i] == entries[..i];
    }
    assert entries[..|entries|] == entries;
  }

  // ---- What is charged for what --------------------------------------- //

  /** One more addon in a quote: its price goes to the price, its minutes to the time; an unknown id costs nothing. */
  lemma QuoteCharges(svc: Service, sizes: seq<Size>, catalog: map<Id, Cost>, addons: seq<Id>, id: Id)
    ensures id in catalog ==>
              && Quote(Price, svc, sizes, catalog, addons + [id])
                   == Quote(Price, svc, sizes, catalog, addons) + catalog[id].price
              && Quote(Minutes, svc, sizes, catalog, addons + [id])
                   == Quote(Minutes, svc, sizes, catalog, addons) + catalog[id].minutes
    ensures id !in catalog ==> forall m :: Quote(m, svc, sizes, catalog, addons + [id])
                                           == Quote(m, svc, sizes, catalog, addons)
  {
    assert (addons + [id])[..|addons|] == addons;
  }

  /**
   One more vehicle: its size's share of the service, rounded up to a whole
   cent and a whole minute; nothing at all costs nothing.
  */
  lemma VehicleCharges(svc: Service, sizes: seq<Size>, size: Size, catalog: map<Id, Cost>)
    ensures Quote(Price, svc, sizes + [size], catalog, [])
            == Quote(Price, svc, sizes, catalog, []) + Scale(svc.basePrice, size)
    ensures Quote(Minutes, svc, sizes + [size], catalog, [])
            == Quote(Minutes, svc, sizes, catalog, []) + Scale(svc.baseMinutes, size)
    ensures Quote(Price, svc, [], catalog, []) == Quote(Minutes, svc, [], catalog, []) == 0
  {
    assert (sizes + [size])[..|sizes|] == sizes;
  }

  /** Adding an addon to a booked vehicle raises the booking by that addon's own price and minutes. */
  lemma BookingCharges(catalog: map<Id, Cost>, entries: seq<Entry>, e: Entry, id: Id)
    ensures var (before, after) := (entries + [e], entries + [e.(addons := e.addons + [id])]);
            && (id in catalog ==>
                  && BookingTotal(Price, catalog, after) == BookingTotal(Price, catalog, before) + catalog[id].price
                  && BookingTotal(Minutes, catalog, after)
                       == BookingTotal(Minutes, catalog, before) + catalog[id].minutes)
            && (id !in catalog ==> forall m :: BookingTotal(m, catalog, after) == BookingTotal(m, catalog, before))
  {
    assert (e.addons + [id])[..|e.addons|] == e.addons;
    assert (entries + [e])[..|entries|] == entries;
    var more := e.(addons := e.addons + [id]);
    assert (entries + [more])[..|entries|] == entries;
  }

  /** A vehicle without addons adds its size's share of its own service. */
  lemma BookedVehicleCharges(catalog: map<Id, Cost>, entries: seq<Entry>, e: Entry)
    requires e.addons == []
    ensures BookingTotal(Price, catalog, entries + [e])
            == BookingTotal(Price, catalog, entries) + Scale(e.service.basePrice, e.size)
    ensures BookingTotal(Minutes, catalog, entries + [e])
            == BookingTotal(Minutes, catalog, entries) + Scale(e.service.baseMinutes, e.size)
    ensures BookingTotal(Price, catalog, []) == BookingTotal(Minutes, catalog, []) == 0
  {
    assert (entries + [e])[..|entries|] == entries;
  }

  // ---- The three totals agree ------------------------------------------ //

  lemma {:induction false} AddonsTotalAppend(m: Measure, catalog: map<Id, Cost>, a: seq<Id>, b: seq<Id>)
    ensures AddonsTotal(m, catalog, a + b) == AddonsTotal(m, catalog, a) + AddonsTotal(m, catalog, b)
  {
    if b == [] {
      assert a + b == a;
    } else {
      var n := |b| - 1;
      assert (a + b)[..|a + b| - 1] == a + b[..n];
      AddonsTotalAppend(m, catalog, a, b[..n]);
    }
  }

  /** The nested booking loops charge each vehicle once and each attachment once. */
  lemma {:induction false} BookingTotalSplits(m: Measure, catalog: map<Id, Cost>, entries: seq<Entry>, svc: Service)
    requires forall i :: 0 <= i < |entries| ==> entries[i].service == svc
    ensures BookingTotal(m, catalog, entries) == Quote(m, svc, Sizes(entries), catalog, Attached(entries))
  {
    if entries != [] {
      var n := |entries| - 1;
      BookingTotalSplits(m, catalog, entries[..n], svc);
      AddonsTotalAppend(m, catalog, Attached(entries[..n]), entries[n].addons);
      assert Sizes(entries)[..n] == Sizes(entries[..n]);
    }
  }

  lemma WithoutTotal(m: Measure, catalog: map<Id, Cost>, ids: seq<Id>, i: nat)
    requires i < |ids|
    ensures AddonsTotal(m, catalog, ids) == AddonsTotal(m, catalog, Without(ids, i)) + AddonCost(m, catalog, ids[i])
  {
    var before, after := ids[..i], ids[i + 1..];
    assert ids[..i + 1][..i] == before;
    assert ids == ids[..i + 1] + after;
    AddonsTotalAppend(m, catalog, ids[..i + 1], after);
    AddonsTotalAppend(m, catalog, before, after);
  }

  /** Dropping an id that ends a list and occurs nowhere else in it leaves a listing of the rest. */
  lemma WithoutListing(ids: seq<Id>, listed: seq<Id>, i: nat)
    requires ids != [] && i < |listed| && listed[i] == ids[|ids| - 1] && ids[|ids| - 1] !in ids[..|ids| - 1]
    requires NoDuplicates(listed) && forall id :: id in listed <==> id in ids
    ensures NoDuplicates(Without(listed, i))
    ensures forall id :: id in Without(listed, i) <==> id in ids[..|ids| - 1]
  {
    var rest, listed' := ids[..|ids| - 1], Without(listed, i);
    forall id ensures id in listed' <==> id in rest {
      if id in rest {
        var m :| 0 <= m < |rest| && rest[m] == id;
        assert ids[m] == id && id in listed;
        var k :| 0 <= k < |listed| && listed[k] == id;
        assert listed'[if k < i then k else k - 1] == id;
      }
      if id in listed' {
        var k :| 0 <= k < |listed'| && listed'[k] == id;
        assert listed[if k < i then k else k + 1] == id;
        assert id in ids;
      }
    }
  }

  /** Charging a list of ids against charging each distinct id once. */
  lemma {:induction false} RepeatsCostMore(m: Measure, catalog: map<Id, Cost>, ids: seq<Id>, listed: seq<Id>)
    requires NoDuplicates(listed) && forall id :: id in listed <==> id in ids
    ensures AddonsTotal(m, catalog, ids) >= AddonsTotal(m, catalog, listed)
    ensures NoDuplicates(ids) ==> AddonsTotal(m, catalog, ids) == AddonsTotal(m, catalog, listed)
    ensures (forall id :: id in ids ==> AddonCost(m, catalog, id) > 0) && !NoDuplicates(ids) ==>
              AddonsTotal(m, catalog, ids) > AddonsTotal(m, catalog, listed)
    decreases |ids|
  {
    if listed != [] {
      assert listed[0] in ids;
    }
    if ids == [] {
    } else {
      var n := |ids| - 1;
      var x, rest := ids[n], ids[..n];
      assert forall id :: id in rest ==> id in ids;
      if x in rest {
        var i :| 0 <= i < n && rest[i] == x;
        assert ids[i] == ids[n];
        RepeatsCostMore(m, catalog, rest, listed);
      } else {
        assert x in listed;
        var i :| 0 <= i < |listed| && listed[i] == x;
        WithoutListing(ids, listed, i);
        WithoutTotal(m, catalog, listed, i);
        RepeatsCostMore(m, catalog, rest, Without(listed, i));
        assert NoDuplicates(ids) <==> NoDuplicates(rest);
      }
    }
  }

  /** Where the last id of one arrangement sits in another. */
  lemma LastMatched(a: seq<Id>, b: seq<Id>) returns (i: nat)
    requires multiset(a) == multiset(b) && a != []
    ensures i < |b| && b[i] == a[|a| - 1]
    ensures multiset(a[..|a| - 1]) == multiset(Without(b, i))
  {
    var n := |a| - 1;
    assert a == a[..n] + [a[n]];
    assert a[n] in multiset(b);
    i :| 0 <= i < |b| && b[i] == a[n];
    WithoutMultiset(b, i);
    assert multiset(a[..n]) == multiset(a) - multiset{a[n]};
    assert multiset(Without(b, i)) == multiset(b) - multiset{a[n]};
  }

  lemma {:induction false} AddonsTotalPermutes(m: Measure, catalog: map<Id, Cost>, a: seq<Id>, b: seq<Id>)
    requires multiset(a) == multiset(b)
    ensures AddonsTotal(m, catalog, a) == AddonsTotal(m, catalog, b)
    decreases |a|
  {
    if a == [] {
      assert |multiset(b)| == |b|;
    } else {
      var i := LastMatched(a, b);
      WithoutTotal(m, catalog, b, i);
      AddonsTotalPermutes(m, catalog, a[..|a| - 1], Without(b, i));
    }
  }

  /**
   A quote that lists the addons a booking attaches, repeats included and in
   any order, names exactly the booking's price and duration.
  */
  lemma BookingMatchesQuote(m: Measure, catalog: map<Id, Cost>, entries: seq<Entry>, svc: Service, listed: seq<Id>)
    requires forall i :: 0 <= i < |entries| ==> entries[i].service == svc
    requires multiset(listed) == multiset(Attached(entries))
    ensures BookingTotal(m, catalog, entries) == Quote(m, svc, Sizes(entries), catalog, listed)
  {
    BookingTotalSplits(m, catalog, entries, svc);
    AddonsTotalPermutes(m, catalog, listed, Attached(entries));
  }

  /**
   A quote that lists each addon once, however often the booking attaches it:
   the durations agree if and only if no addon is attached twice; then the
   prices agree too, and otherwise the booking is never cheaper.
  */
  lemma DistinctQuoteMatches(catalog: map<Id, Cost>, entries: seq<Entry>, svc: Service, listed: seq<Id>)
    requires forall i :: 0 <= i < |entries| ==> entries[i].service == svc
    requires forall id :: id in Attached(entries) ==> AddonCost(Minutes, catalog, id) > 0
    requires NoDuplicates(listed) && forall id :: id in listed <==> id in Attached(entries)
    ensures BookingTotal(Minutes, catalog, entries) == Quote(Minutes, svc, Sizes(entries), catalog, listed)
            <==> NoDuplicates(Attached(entries))
    ensures NoDuplicates(Attached(entries)) ==>
              BookingTotal(Price, catalog, entries) == Quote(Price, svc, Sizes(entries), catalog, listed)
    ensures BookingTotal(Price, catalog, entries) >= Quote(Price, svc, Sizes(entries), catalog, listed)
  {
    BookingMatchesQuote(Price, catalog, entries, svc, Attached(entries));
    BookingMatchesQuote(Minutes, catalog, entries, svc, Attached(entries));
    RepeatsCostMore(Price, catalog, Attached(entries), listed);
    RepeatsCostMore(Minutes, catalog, Attached(entries), listed);
  }

  // ---- Line items ------------------------------------------------------ //

  /** Child rows of a booking: one for each vehicle and one for each attached addon. */
  datatype Line = VehicleLine(vehicle: Id, cost: Cost) | AddonLine(addon: Id, cost: Cost)

  function VehicleLineOf(e: Entry): Line {
    VehicleLine(e.vehicle, Cost(Scale(e.service.basePrice, e.size), Scale(e.service.baseMinutes, e.size)))
  }

  function AddonLineOf(catalog: map<Id, Cost>, id: Id): Line {
    AddonLine(id, Cost(AddonCost(Price, catalog, id), AddonCost(Minutes, catalog, id)))
  }

  function AddonLines(catalog: map<Id, Cost>, ids: seq<Id>): seq<Line> {
    if ids == [] then []
    else AddonLines(catalog, ids[..|ids| - 1]) + [AddonLineOf(catalog, ids[|ids| - 1])]
  }

  function Lines(catalog: map<Id, Cost>, entries: seq<Entry>): seq<Line> {
    if entries == [] then []
    else
      var e := entries[|entries| - 1];
      Lines(catalog, entries[..|entries| - 1]) + ([VehicleLineOf(e)] + AddonLines(catalog, e.addons))
  }

  /** The rows one more vehicle adds: its own, then one for each addon with that addon's own price and minutes. */
  lemma LinesOfOneMore(catalog: map<Id, Cost>, entries: seq<Entry>, e: Entry)
    ensures var (before, after) := (Lines(catalog, entries), Lines(catalog, entries + [e]));
            && |after| == |before| + 1 + |e.addons| && after[..|before|] == before
            && after[|before|]
                 == VehicleLine(e.vehicle,
                                Cost(Scale(e.service.basePrice, e.size), Scale(e.service.baseMinutes, e.size)))
            && forall j :: 0 <= j < |e.addons| ==>
                 after[|before| + 1 + j]
                 == AddonLine(e.addons[j], if e.addons[j] in catalog then catalog[e.addons[j]] else Cost(0, 0))
    ensures Lines(catalog, []) == []
  {
    assert (entries + [e])[..|entries|] == entries;
    var block := AddonLines(catalog, e.addons);
    forall j | 0 <= j < |e.addons|
      ensures |block| == |e.addons|
      ensures block[j] == AddonLine(e.addons[j], if e.addons[j] in catalog then catalog[e.addons[j]] else Cost(0, 0))
    {
      AddonLineAt(catalog, e.addons, j);
    }
    assert e.addons == [] ==> block == [];
  }

  method WriteLines(catalog: map<Id, Cost>, entries: seq<Entry>) returns (lines: seq<Line>)
    ensures lines == Lines(catalog, entries)
  {
    lines := [];
    for i := 0 to |entries|
      invariant lines == Lines(catalog, entries[..i])
    {
      var e := entries[i];
      var block := [VehicleLineOf(e)];
      for j := 0 to |e.addons|
        invariant block == [VehicleLineOf(e)] + AddonLines(catalog, e.addons[..j])
      {
        block := block + [AddonLineOf(catalog, e.addons[j])];
        assert e.addons[..j + 1][..j] == e.addons[..j];
      }
      assert e.addons[..|e.addons|] == e.addons;
      lines := lines + block;
      assert entries[..i + 1][..i] == entries[..i];
    }
    assert entries[..|entries|] == entries;
  }

  function LinesTotal(m: Measure, lines: seq<Line>): nat {
    if lines == [] then 0 else LinesTotal(m, lines[..|lines| - 1]) + lines[|lines| - 1].cost.Of(m)
  }

  lemma {:induction false} LinesTotalAppend(m: Measure, a: seq<Line>, b: seq<Line>)
    ensures LinesTotal(m, a + b) == LinesTotal(m, a) + LinesTotal(m, b)
  {
    if b == [] {
      assert a + b == a;
    } else {
      assert (a + b)[..|a + b| - 1] == a + b[..|b| - 1];
      LinesTotalAppend(m, a, b[..|b| - 1]);
    }
  }

  lemma {:induction false} AddonLinesTotal(m: Measure, catalog: map<Id, Cost>, ids: seq<Id>)
    ensures LinesTotal(m, AddonLines(catalog, ids)) == AddonsTotal(m, catalog, ids)
  {
    if ids != [] {
      var n := |ids| - 1;
      AddonLinesTotal(m, catalog, ids[..n]);
      assert AddonLines(catalog, ids)[..|AddonLines(catalog, ids)| - 1] == AddonLines(catalog, ids[..n]);
    }
  }

  /** The header's price and duration are the sums over its line items. */
  lemma {:induction false} HeaderIsSumOfLines(m: Measure, catalog: map<Id, Cost>, entries: seq<Entry>)
    ensures LinesTotal(m, Lines(catalog, entries)) == BookingTotal(m, catalog, entries)
  {
    if entries != [] {
      var n := |entries| - 1;
      var e := entries[n];
      var addonLines := AddonLines(catalog, e.addons);
      HeaderIsSumOfLines(m, catalog, entries[..n]);
      LinesTotalAppend(m, Lines(catalog, entries[..n]), [VehicleLineOf(e)] + addonLines);
      LinesTotalAppend(m, [VehicleLineOf(e)], addonLines);
      AddonLinesTotal(m, catalog, e.addons);
      assert [VehicleLineOf(e)][..0] == [];
    }
  }

  /**
   The rows the database refuses: the same vehicle or addon twice on one
   appointment, or a line without a positive duration.
  */
  predicate LinesStorable(lines: seq<Line>) {
    && (forall k :: 0 <= k < |lines| ==> lines[k].cost.minutes > 0)
    && (forall j, k :: 0 <= j < k < |lines| ==> !SameKey(lines[j], lines[k]))
  }

  predicate SameKey(a: Line, b: Line) {
    || (a.VehicleLine? && b.VehicleLine? && a.vehicle == b.vehicle)
    || (a.AddonLine? && b.AddonLine? && a.addon == b.addon)
  }

  /** Where the addon attached at position k of the request ends up among the lines. */
  lemma {:induction false} AttachedHasLine(catalog: map<Id, Cost>, entries: seq<Entry>, k: nat) returns (pos: nat)
    requires k < |Attached(entries)|
    ensures pos < |Lines(catalog, entries)|
    ensures Lines(catalog, entries)[pos] == AddonLineOf(catalog, Attached(entries)[k])
    ensures pos == k + EntryOf(entries, k) + 1
  {
    var n := |entries| - 1;
    var front := Attached(entries[..n]);
    LinesLength(catalog, entries[..n]);
    if k < |front| {
      pos := AttachedHasLine(catalog, entries[..n], k);
    } else {
      AddonLineAt(catalog, entries[n].addons, k - |front|);
      pos := |Lines(catalog, entries[..n])| + 1 + (k - |front|);
    }
  }

  /** The entry that carries the k-th attachment. */
  function EntryOf(entries: seq<Entry>, k: nat): (i: nat)
    requires k < |Attached(entries)|
    ensures i < |entries|
  {
    if k < |Attached(entries[..|entries| - 1])| then EntryOf(entries[..|entries| - 1], k) else |entries| - 1
  }

  lemma {:induction false} EntryOfMonotone(entries: seq<Entry>, j: nat, k: nat)
    requires j < k < |Attached(entries)|
    ensures EntryOf(entries, j) <= EntryOf(entries, k)
  {
    if k < |Attached(entries[..|entries| - 1])| {
      EntryOfMonotone(entries[..|entries| - 1], j, k);
    }
  }

  lemma {:induction false} LinesLength(catalog: map<Id, Cost>, entries: seq<Entry>)
    ensures |Lines(catalog, entries)| == |entries| + |Attached(entries)|
  {
    if entries != [] {
      LinesLength(catalog, entries[..|entries| - 1]);
      if entries[|entries| - 1].addons != [] {
        AddonLineAt(catalog, entries[|entries| - 1].addons, 0);
      }
    }
  }

  lemma {:induction false} AddonLineAt(catalog: map<Id, Cost>, ids: seq<Id>, k: nat)
    requires k < |ids|
    ensures |AddonLines(catalog, ids)| == |ids|
    ensures AddonLines(catalog, ids)[k] == AddonLineOf(catalog, ids[k])
  {
    if |ids| > 1 {
      AddonLineAt(catalog, ids[..|ids| - 1], if k < |ids| - 1 then k else 0);
    }
  }

  /** A booking whose rows the database accepts attaches no addon twice and none of zero length. */
  lemma StorableIsDuplicateFree(catalog: map<Id, Cost>, entries: seq<Entry>)
    requires LinesStorable(Lines(catalog, entries))
    ensures NoDuplicates(Attached(entries))
    ensures forall id :: id in Attached(entries) ==> AddonCost(Minutes, catalog, id) > 0
  {
    var ids, lines := Attached(entries), Lines(catalog, entries);
    forall j, k | 0 <= j < k < |ids| ensures ids[j] != ids[k] {
      var a := AttachedHasLine(catalog, entries, j);
      var b := AttachedHasLine(catalog, entries, k);
      EntryOfMonotone(entries, j, k);
      assert !SameKey(lines[a], lines[b]);
    }
    forall k | 0 <= k < |ids| ensures AddonCost(Minutes, catalog, ids[k]) > 0 {
      var a := AttachedHasLine(catalog, entries, k);
    }
  }

  lemma {:induction false} VehicleHasLine(catalog: map<Id, Cost>, entries: seq<Entry>, i: nat) returns (pos: nat)
    requires i < |entries|
    ensures pos < |Lines(catalog, entries)| && Lines(catalog, entries)[pos] == VehicleLineOf(entries[i])
    ensures pos == i + |Attached(entries[..i])|
  {
    var n := |entries| - 1;
    LinesLength(catalog, entries[..n]);
    if i < n {
      pos := VehicleHasLine(catalog, entries[..n], i);
      assert entries[..n][..i] == entries[..i];
    } else {
      pos := |Lines(catalog, entries[..n])|;
    }
  }

  lemma {:induction false} AddonHasLine(catalog: map<Id, Cost>, entries: seq<Entry>, i: nat, j: nat)
    returns (pos: nat)
    requires i < |entries| && j < |entries[i].addons|
    ensures pos < |Lines(catalog, entries)|
    ensures Lines(catalog, entries)[pos] == AddonLineOf(catalog, entries[i].addons[j])
  {
    var n := |entries| - 1;
    if i < n {
      pos := AddonHasLine(catalog, entries[..n], i, j);
    } else {
      AddonLineAt(catalog, entries[n].addons, j);
      pos := |Lines(catalog, entries[..n])| + 1 + j;
    }
  }

  /** What the line at a position stands for: the k-th vehicle, or the k-th attachment. */
  lemma {:induction false} LineOrigin(catalog: map<Id, Cost>, entries: seq<Entry>, pos: nat)
    returns (vehicle: bool, k: nat)
    requires pos < |Lines(catalog, entries)|
    ensures vehicle ==>
              && k < |entries| && pos == k + |Attached(entries[..k])|
              && Lines(catalog, entries)[pos] == VehicleLineOf(entries[k])
    ensures !vehicle ==>
              && k < |Attached(entries)| && pos == k + EntryOf(entries, k) + 1
              && Lines(catalog, entries)[pos] == AddonLineOf(catalog, Attached(entries)[k])
  {
    var n := |entries| - 1;
    var front := Lines(catalog, entries[..n]);
    LinesLength(catalog, entries[..n]);
    if pos < |front| {
      vehicle, k := LineOrigin(catalog, entries[..n], pos);
      if vehicle {
        assert entries[..n][..k] == entries[..k];
      }
    } else if pos == |front| {
      vehicle, k := true, n;
    } else {
      LinesLength(catalog, entries);
      vehicle, k := false, |Attached(entries[..n])| + (pos - |front| - 1);
      AddonLineAt(catalog, entries[n].addons, pos - |front| - 1);
    }
  }

  predicate VehiclesDistinct(entries: seq<Entry>) {
    forall i, j :: 0 <= i < j < |entries| ==> entries[i].vehicle != entries[j].vehicle
  }

  lemma StorableHasDistinctVehicles(catalog: map<Id, Cost>, entries: seq<Entry>)
    requires LinesStorable(Lines(catalog, entries))
    ensures VehiclesDistinct(entries)
    ensures forall i :: 0 <= i < |entries| ==> Scale(entries[i].service.baseMinutes, entries[i].size) > 0
  {
    var lines := Lines(catalog, entries);
    forall i, j | 0 <= i < j < |entries| ensures entries[i].vehicle != entries[j].vehicle {
      var a := VehicleHasLine(catalog, entries, i);
      var b := VehicleHasLine(catalog, entries, j);
      AttachedGrows(entries, i, j);
      assert !SameKey(lines[a], lines[b]);
    }
    forall i | 0 <= i < |entries| ensures Scale(entries[i].service.baseMinutes, entries[i].size) > 0 {
      var a := VehicleHasLine(catalog, entries, i);
    }
  }

  lemma {:induction false} AttachedGrows(entries: seq<Entry>, i: nat, j: nat)
    requires i <= j <= |entries|
    ensures |Attached(entries[..i])| <= |Attached(entries[..j])|
  {
    if i < j {
      assert entries[..j][..j - 1] == entries[..j - 1];
      AttachedGrows(entries, i, j - 1);
    }
  }

  /**
   The database takes the rows of a booking if and only if no vehicle and no
   addon comes twice and every vehicle and addon takes some time.
  */
  lemma StorableWhen(catalog: map<Id, Cost>, entries: seq<Entry>)
    ensures LinesStorable(Lines(catalog, entries)) <==>
              && VehiclesDistinct(entries) && NoDuplicates(Attached(entries))
              && (forall i :: 0 <= i < |entries| ==> Scale(entries[i].service.baseMinutes, entries[i].size) > 0)
              && (forall id :: id in Attached(entries) ==> id in catalog && catalog[id].minutes > 0)
  {
    var lines, ids := Lines(catalog, entries), Attached(entries);
    if LinesStorable(lines) {
      StorableIsDuplicateFree(catalog, entries);
      StorableHasDistinctVehicles(catalog, entries);
    } else if j, k :| 0 <= j < k < |lines| && SameKey(lines[j], lines[k]) {
      var v, a := LineOrigin(catalog, entries, j);
      var w, b := LineOrigin(catalog, entries, k);
      assert v ==> w && a != b && entries[a].vehicle == entries[b].vehicle;
      assert !v ==> !w && a != b && ids[a] == ids[b];
    } else {
      var k :| 0 <= k < |lines| && lines[k].cost.minutes == 0;
      var v, a := LineOrigin(catalog, entries, k);
      assert !v ==> ids[a] in ids;
    }
  }

  // ---- Fare estimates --------------------------------------------------- //

  /** Pre-computed per-size price columns of a seeded service. */
  datatype Columns = Columns(small: nat, medium: nat, large: nat, xl: nat) {
    function Column(size: Size): nat {
      match size
      case Small => small
      case Medium => medium
      case Large => large
      case XL => xl
    }
  }

  function SeedColumns(base: nat): Columns {
    Columns(Scale(base, Small), Scale(base, Medium), Scale(base, Large), Scale(base, XL))
  }

  function ColumnSum(columns: Columns, sizes: seq<Size>): nat {
    if sizes == [] then 0 else ColumnSum(columns, sizes[..|sizes| - 1]) + columns.Column(sizes[|sizes| - 1])
  }

  /** Sum of the multipliers, in tenths. */
  function TenthsSum(sizes: seq<Size>): nat {
    if sizes == [] then 0 else TenthsSum(sizes[..|sizes| - 1]) + Tenths(sizes[|sizes| - 1])
  }

  /** Scale is the least whole number not below the exact product: once, 1.2, 1.5 and 2 times the base. */
  lemma ScaleIsCeiling(base: nat, size: Size)
    ensures base * Tenths(size) <= 10 * Scale(base, size) <= base * Tenths(size) + 9
    ensures Scale(base, Small) == base
    ensures 6 * base <= 5 * Scale(base, Medium) < 6 * base + 5
    ensures 3 * base <= 2 * Scale(base, Large) < 3 * base + 2
    ensures Scale(base, XL) == 2 * base
  {
  }

  lemma Distribute(b: int, t: int, u: int)
    ensures b * (t + u) == b * t + b * u
  {
  }

  /**
   For a seeded service the fare's column sum is the booking's price; it never
   loses a fraction of a cent and overshoots the exact product by less than
   one cent a vehicle.
  */
  lemma {:induction false} FareIsCeilSum(svc: Service, sizes: seq<Size>)
    ensures ColumnSum(SeedColumns(svc.basePrice), sizes) == VehiclesTotal(Price, svc, sizes)
    ensures svc.basePrice * TenthsSum(sizes)
         <= 10 * VehiclesTotal(Price, svc, sizes)
         <= svc.basePrice * TenthsSum(sizes) + 9 * |sizes|
  {
    if sizes != [] {
      var n := |sizes| - 1;
      FareIsCeilSum(svc, sizes[..n]);
      ScaleIsCeiling(svc.basePrice, sizes[n]);
      Distribute(svc.basePrice, TenthsSum(sizes[..n]), Tenths(sizes[n]));
    }
  }
}
