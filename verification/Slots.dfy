/** The slot engine: a preview of a detailer's day that must agree with the overlap check of a booking. */
module Slots {
  import opened Support
  import opened AppointmentModel

  const GRANULARITY: Time := 30 * MINUTE
  const MIN_ADVANCE: Time := 60 * MINUTE

  datatype TimeSlot = TimeSlot(start: Time, end: Time, available: bool)

  /** What the detailer, profile and working-hours lookups decide about the requested date. */
  datatype DayPlan = UnknownDetailer | NotAccepting | DayOff | Working(start: Time, end: Time)

  /** A missing detailer is a 404; comparing a time with a NULL buffer end is a TypeError. */
  datatype SlotError = DetailerNotFound | NullBufferEnd

  // ---- The scan of occupied windows --------------------------------------- //

  datatype Scan = Free | Busy | Broken

  /** First hit of the any() over the day's rows, in query order. */
  function ScanRows(rows: seq<Appointment>, start: Time, end: Time): Scan {
    if rows == [] then Free
    else if rows[0].bufferEnd.None? then Broken
    else if start < rows[0].bufferEnd.value && rows[0].scheduledTime < end then Busy
    else ScanRows(rows[1..], start, end)
  }

  /** A scan is a search: it stops at the first row that overlaps or has no end. */
  lemma {:induction false} ScanIsFirstHit(rows: seq<Appointment>, start: Time, end: Time)
    ensures ScanRows(rows, start, end).Free? <==>
            forall i :: 0 <= i < |rows| ==> rows[i].bufferEnd.Some? && !Overlaps(rows[i], start, end)
    ensures ScanRows(rows, start, end).Broken? <==>
            exists i :: 0 <= i < |rows| && rows[i].bufferEnd.None?
                        && forall j :: 0 <= j < i ==> !Overlaps(rows[j], start, end)
  {
    if rows != [] {
      ScanIsFirstHit(rows[1..], start, end);
      var scan := ScanRows(rows, start, end);
      assert forall i :: 0 < i < |rows| ==> rows[i] == rows[1..][i - 1];
      if scan.Broken? && rows[0].bufferEnd.Some? {
        var i :| 0 <= i < |rows[1..]| && rows[1..][i].bufferEnd.None?
                 && forall j :: 0 <= j < i ==> !Overlaps(rows[1..][j], start, end);
        assert rows[i + 1].bufferEnd.None?
            && forall j :: 0 <= j < i + 1 ==> !Overlaps(rows[j], start, end);
      }
      if i :| 0 <= i < |rows| && rows[i].bufferEnd.None? && forall j :: 0 <= j < i ==> !Overlaps(rows[j], start, end) {
        if i > 0 {
          assert rows[1..][i - 1].bufferEnd.None?;
          assert forall j :: 0 <= j < i - 1 ==> !Overlaps(rows[1..][j], start, end);
        }
      }
    }
  }

  // ---- One slot -------------------------------------------------------------- //

  datatype SlotRequest = SlotRequest(now: Time, duration: Time)

  function EarliestBookable(now: Time): Time {
    now + MIN_ADVANCE
  }

  /** None is the crash; Some tells whether the slot is offered. */
  function Verdict(rows: seq<Appointment>, req: SlotRequest, workEnd: Time, cursor: Time): Option<bool> {
    if cursor <= EarliestBookable(req.now) || cursor + req.duration > workEnd then Some(false)
    else
      var scan := ScanRows(rows, cursor, cursor + req.duration);
      if scan.Broken? then None else Some(scan.Free?)
  }

  function SlotStart(workStart: Time, k: int): Time {
    workStart + k * GRANULARITY
  }

  /** How many half-hour steps it takes to reach the end of work. */
  function SlotCount(workStart: Time, workEnd: Time): nat {
    if workEnd <= workStart then 0 else (workEnd - workStart + GRANULARITY - 1) / GRANULARITY
  }

  ghost predicate SlotsFor(rows: seq<Appointment>, req: SlotRequest, workStart: Time, workEnd: Time,
                           slots: seq<TimeSlot>) {
    && |slots| == SlotCount(workStart, workEnd)
    && forall k :: 0 <= k < |slots| ==>
         && slots[k].start == SlotStart(workStart, k)
         && slots[k].end == SlotStart(workStart, k + 1)
         && Verdict(rows, req, workEnd, slots[k].start) == Some(slots[k].available)
  }

  /** The generator loop; duration already contains the travel buffer. */
  method GetAvailableSlots(plan: DayPlan, rows: seq<Appointment>, req: SlotRequest)
    returns (result: Result<seq<TimeSlot>, SlotError>)
    ensures plan.UnknownDetailer? ==> result == Failure(DetailerNotFound)
    ensures plan.NotAccepting? || plan.DayOff? ==> result == Success([])
    ensures plan.Working? && result.Success? ==> SlotsFor(rows, req, plan.start, plan.end, result.value)
    ensures plan.Working? && result.Failure? ==>
              result.error == NullBufferEnd
              && exists k :: 0 <= k < SlotCount(plan.start, plan.end)
                             && Verdict(rows, req, plan.end, SlotStart(plan.start, k)).None?
  {
    if plan.UnknownDetailer? {
      return Failure(DetailerNotFound);
    }
    if plan.NotAccepting? || plan.DayOff? {
      return Success([]);
    }
    var slots: seq<TimeSlot> := [];
    var cursor := plan.start;
    while cursor < plan.end
      invariant cursor == SlotStart(plan.start, |slots|)
      invariant |slots| <= SlotCount(plan.start, plan.end)
      invariant cursor >= plan.end ==> |slots| == SlotCount(plan.start, plan.end)
      invariant forall k :: 0 <= k < |slots| ==>
                  && slots[k].start == SlotStart(plan.start, k)
                  && slots[k].end == SlotStart(plan.start, k + 1)
                  && Verdict(rows, req, plan.end, slots[k].start) == Some(slots[k].available)
      decreases plan.end - cursor
    {
      var displayEnd := cursor + GRANULARITY;
      var serviceEnd := cursor + req.duration;
      if cursor <= EarliestBookable(req.now) {
        slots := slots + [TimeSlot(cursor, displayEnd, false)];
      } else if serviceEnd > plan.end {
        slots := slots + [TimeSlot(cursor, displayEnd, false)];
      } else {
        var scan := ScanDay(rows, cursor, serviceEnd);
        if scan.Broken? {
          assert Verdict(rows, req, plan.end, SlotStart(plan.start, |slots|)).None?;
          return Failure(NullBufferEnd);
        }
        slots := slots + [TimeSlot(cursor, displayEnd, scan.Free?)];
      }
      cursor := displayEnd;
    }
    result := Success(slots);
  }

  /** The inner any() loop over the occupied windows. */
  method ScanDay(rows: seq<Appointment>, start: Time, end: Time) returns (scan: Scan)
    ensures scan == ScanRows(rows, start, end)
  {
    for i := 0 to |rows|
      invariant ScanRows(rows, start, end) == ScanRows(rows[i..], start, end)
    {
      if rows[i].bufferEnd.None? {
        return Broken;
      }
      if start < rows[i].bufferEnd.value && rows[i].scheduledTime < end {
        return Busy;
      }
      assert rows[i..][1..] == rows[i + 1..];
    }
    return Free;
  }

  // ---- The slots tile the day -------------------------------------------------- //

  /** Consecutive slots share an endpoint, and every working instant lies in exactly one slot. */
  lemma SlotsTileTheDay(rows: seq<Appointment>, req: SlotRequest, workStart: Time, workEnd: Time,
                        slots: seq<TimeSlot>, t: Time)
    requires SlotsFor(rows, req, workStart, workEnd, slots)
    ensures forall k :: 0 <= k < |slots| - 1 ==> slots[k].end == slots[k + 1].start
    ensures forall k :: 0 <= k < |slots| ==> slots[k].end - slots[k].start == 30 * MINUTE
    ensures slots != [] ==> slots[0].start == workStart && slots[|slots| - 1].start < workEnd
    ensures workStart <= t < workEnd ==>
              exists k :: 0 <= k < |slots| && slots[k].start <= t < slots[k].end
    ensures forall j, k :: 0 <= j < k < |slots| ==> slots[j].end <= slots[k].start
  {
    forall k | 0 <= k < |slots| ensures slots[k].end - slots[k].start == 30 * MINUTE {
      StartStep(workStart, k);
    }
    forall j, k | 0 <= j < k < |slots| ensures slots[j].end <= slots[k].start {
      StartMonotone(workStart, j + 1, k);
    }
    if workStart <= t < workEnd {
      var k := (t - workStart) / GRANULARITY;
      StartStep(workStart, k);
      assert slots[k].start <= t < slots[k].end;
    }
  }

  lemma StartStep(workStart: Time, k: int)
    ensures SlotStart(workStart, k + 1) == SlotStart(workStart, k) + GRANULARITY
  {
    assert (k + 1) * GRANULARITY == k * GRANULARITY + GRANULARITY;
  }

  lemma StartMonotone(workStart: Time, j: int, k: int)
    requires j <= k
    ensures SlotStart(workStart, j) <= SlotStart(workStart, k)
  {
    assert (k - j) * GRANULARITY >= 0;
    assert k * GRANULARITY == j * GRANULARITY + (k - j) * GRANULARITY;
  }

  // ---- Agreement with the booking check ------------------------------------------ //

  predicate OnDate(a: Appointment, dayStart: Time) {
    dayStart <= a.scheduledTime < dayStart + DAY
  }

  /** The day query: the detailer's active rows that start on the UTC date, by start time. */
  ghost predicate DayListing(table: map<Id, Appointment>, d: Uuid, dayStart: Time, rows: seq<Appointment>) {
    && (forall i :: 0 <= i < |rows| ==>
          exists id :: id in table && table[id] == rows[i] && Active(table[id], d) && OnDate(table[id], dayStart))
    && (forall id :: id in table && Active(table[id], d) && OnDate(table[id], dayStart) ==> table[id] in rows)
    && (forall i, j :: 0 <= i < j < |rows| ==> rows[i].scheduledTime <= rows[j].scheduledTime)
  }

  /** Which rows the query returns: those of the detailer, neither deleted nor terminal, within twenty-four hours. */
  lemma DayRows(table: map<Id, Appointment>, d: Uuid, dayStart: Time, rows: seq<Appointment>, id: Id)
    requires DayListing(table, d, dayStart, rows) && id in table
    ensures table[id] in rows <==>
              && table[id].detailer == Some(d) && !table[id].deleted
              && table[id].status !in {CancelledByClient, CancelledByDetailer, NoShow, NoDetailerFound}
              && dayStart <= table[id].scheduledTime < dayStart + 24 * HOUR
  {
    if table[id] in rows {
      var i :| 0 <= i < |rows| && rows[i] == table[id];
      var j :| j in table && table[j] == rows[i] && Active(table[j], d) && OnDate(table[j], dayStart);
    }
    assert Active(table[id], d) && OnDate(table[id], dayStart) ==> table[id] in rows;
  }

  /** An active row that the day query misses because it starts on another UTC date. */
  predicate Stray(a: Appointment, d: Uuid, dayStart: Time) {
    Active(a, d) && !OnDate(a, dayStart)
  }

  ghost predicate StrayConflict(table: map<Id, Appointment>, d: Uuid, dayStart: Time, start: Time, end: Time) {
    exists id :: id in table && Stray(table[id], d, dayStart) && Overlaps(table[id], start, end)
  }

  ghost predicate BookingFree(table: map<Id, Appointment>, d: Uuid, start: Time, end: Time) {
    |Conflicts(table, d, start, end)| == 0
  }

  lemma FreeMeansNoRow(table: map<Id, Appointment>, d: Uuid, start: Time, end: Time)
    ensures BookingFree(table, d, start, end) <==>
            forall id :: id in table ==> !Conflicting(table[id], d, start, end)
  {
    var c := Conflicts(table, d, start, end);
    if |c| == 0 {
      forall id | id in table ensures !Conflicting(table[id], d, start, end) {
        assert id !in c;
      }
    } else {
      var id :| id in c;
    }
  }

  /** A stray conflict is a row the booking counts that starts outside the date. */
  lemma StraysStartElsewhere(table: map<Id, Appointment>, d: Uuid, dayStart: Time, start: Time, end: Time)
    ensures StrayConflict(table, d, dayStart, start, end) <==>
              exists id :: id in Conflicts(table, d, start, end)
                           && !(dayStart <= table[id].scheduledTime < dayStart + 24 * HOUR)
  {
    if id :| id in Conflicts(table, d, start, end) && !(dayStart <= table[id].scheduledTime < dayStart + 24 * HOUR) {
      assert id in table && Stray(table[id], d, dayStart) && Overlaps(table[id], start, end);
    }
    if StrayConflict(table, d, dayStart, start, end) {
      var id :| id in table && Stray(table[id], d, dayStart) && Overlaps(table[id], start, end);
      assert id in Conflicts(table, d, start, end);
    }
  }

  /**
   A scan that does not break on a missing end and the count a booking would
   make differ only by rows that start on another UTC date.
  */
  lemma ScanAgainstBooking(table: map<Id, Appointment>, d: Uuid, dayStart: Time, rows: seq<Appointment>,
                           start: Time, end: Time)
    requires DayListing(table, d, dayStart, rows)
    requires !ScanRows(rows, start, end).Broken?
    ensures BookingFree(table, d, start, end) <==>
            ScanRows(rows, start, end).Free? && !StrayConflict(table, d, dayStart, start, end)
  {
    ScanIsFirstHit(rows, start, end);
    FreeMeansNoRow(table, d, start, end);
    if ScanRows(rows, start, end).Free? && !StrayConflict(table, d, dayStart, start, end) {
      forall id | id in table ensures !Conflicting(table[id], d, start, end) {
        if Active(table[id], d) && OnDate(table[id], dayStart) {
          assert table[id] in rows;
        }
      }
    }
    if BookingFree(table, d, start, end) {
      forall i | 0 <= i < |rows| ensures !Overlaps(rows[i], start, end) {
        var id :| id in table && table[id] == rows[i] && Active(table[id], d) && OnDate(table[id], dayStart);
        assert !Conflicting(table[id], d, start, end);
      }
    }
  }

  /**
   Slot by slot: an offered slot passes the advance limit and fits the day,
   and the engine is right about it exactly when no off-date row decides the
   matter alone.
  */
  lemma SlotAgainstBooking(table: map<Id, Appointment>, d: Uuid, dayStart: Time, rows: seq<Appointment>,
                           req: SlotRequest, workStart: Time, workEnd: Time, slots: seq<TimeSlot>, k: nat)
    requires DayListing(table, d, dayStart, rows)
    requires SlotsFor(rows, req, workStart, workEnd, slots) && k < |slots|
    ensures var start, end := slots[k].start, slots[k].start + req.duration;
            var eligible := start > req.now + 60 * MINUTE && end <= workEnd;
            && (slots[k].available ==> eligible)
            && (eligible && BookingFree(table, d, start, end) ==> slots[k].available)
            && (slots[k].available ==>
                  (BookingFree(table, d, start, end) <==> !StrayConflict(table, d, dayStart, start, end)))
  {
    if slots[k].start > EarliestBookable(req.now) && slots[k].start + req.duration <= workEnd {
      ScanAgainstBooking(table, d, dayStart, rows, slots[k].start, slots[k].start + req.duration);
    }
  }

  /** Every active row that meets the working window starts on the requested UTC date. */
  ghost predicate NoStrayInWindow(table: map<Id, Appointment>, d: Uuid, dayStart: Time, workStart: Time,
                                  workEnd: Time) {
    forall id :: id in table && Active(table[id], d) && Overlaps(table[id], workStart, workEnd) ==>
      OnDate(table[id], dayStart)
  }

  /** Under that hypothesis the preview is the booking check, slot for slot. */
  lemma SlotIsBookable(table: map<Id, Appointment>, d: Uuid, dayStart: Time, rows: seq<Appointment>,
                       req: SlotRequest, workStart: Time, workEnd: Time, slots: seq<TimeSlot>, k: nat)
    requires DayListing(table, d, dayStart, rows)
    requires NoStrayInWindow(table, d, dayStart, workStart, workEnd)
    requires SlotsFor(rows, req, workStart, workEnd, slots) && k < |slots|
    ensures slots[k].available <==>
            && slots[k].start > req.now + 60 * MINUTE
            && slots[k].start + req.duration <= workEnd
            && BookingFree(table, d, slots[k].start, slots[k].start + req.duration)
  {
    var start, end := slots[k].start, slots[k].start + req.duration;
    SlotAgainstBooking(table, d, dayStart, rows, req, workStart, workEnd, slots, k);
    assert workStart <= start by {
      StartMonotone(workStart, 0, k);
    }
    assert end <= workEnd ==>
      forall id :: id in table && Overlaps(table[id], start, end) ==> Overlaps(table[id], workStart, workEnd);
  }

  // ---- Where the engine and the check part ------------------------------------------ //

  function Sample(d: Uuid, start: Time, end: Option<Time>): Appointment {
    Appointment(d, Some(d), start, end, Confirmed, false, 0, None, NoIntent, None, None, None)
  }

  /**
   Work that runs past midnight UTC: a booking at 00:30 on the next date is
   invisible to the day query, so the slot over it is offered and then refused.
  */
  lemma OffDateBookingIsMissed(d: Uuid) returns (table: map<Id, Appointment>, slots: seq<TimeSlot>)
    ensures DayListing(table, d, 0, [])
    ensures SlotsFor([], SlotRequest(0, HOUR), 23 * HOUR, 25 * HOUR, slots)
    ensures exists k :: 0 <= k < |slots| && slots[k].available
                        && !BookingFree(table, d, slots[k].start, slots[k].start + HOUR)
  {
    table := map[0 := Sample(d, 24 * HOUR + 30 * MINUTE, Some(25 * HOUR))];
    slots := [
      TimeSlot(23 * HOUR, 23 * HOUR + GRANULARITY, true),
      TimeSlot(23 * HOUR + GRANULARITY, 24 * HOUR, true),
      TimeSlot(24 * HOUR, 24 * HOUR + GRANULARITY, true),
      TimeSlot(24 * HOUR + GRANULARITY, 25 * HOUR, false)];
    assert Conflicting(table[0], d, slots[2].start, slots[2].start + HOUR);
    FreeMeansNoRow(table, d, slots[2].start, slots[2].start + HOUR);
  }

  /**
   A ride carries no buffer end.  No booking ever conflicts with it, and the
   engine fails on a slot exactly when the slot is eligible and the scan gets
   to a ride before it gets to an overlapping booking.
  */
  lemma RideRowBreaksTheEngine(rows: seq<Appointment>, req: SlotRequest, workEnd: Time, cursor: Time)
    ensures Verdict(rows, req, workEnd, cursor).None? <==>
            && cursor > req.now + 60 * MINUTE
            && cursor + req.duration <= workEnd
            && exists i :: 0 <= i < |rows| && rows[i].bufferEnd.None?
                           && forall j :: 0 <= j < i ==> !Overlaps(rows[j], cursor, cursor + req.duration)
    ensures forall i, d, start, end :: 0 <= i < |rows| && rows[i].bufferEnd.None? ==>
              !Conflicting(rows[i], d, start, end)
  {
    ScanIsFirstHit(rows, cursor, cursor + req.duration);
  }
}
