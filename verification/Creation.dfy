/** What creating an appointment decides: validation, price, window, conflict and rows. */
module Creation {
  import opened Support
  import opened AppointmentModel
  import opened Lifecycle
  import opened Pricing
  import Booking
  import Slots

  datatype EntryRequest = EntryRequest(vehicle: Id, service: Id, addons: seq<Id>)

  datatype Payload = Payload(detailer: Uuid, scheduledTime: Time, vehicles: seq<EntryRequest>)

  datatype Vehicle = Vehicle(owner: Uuid, size: Size)

  /** The other tables a booking reads. */
  datatype Directory = Directory(
    activeDetailers: set<Uuid>,
    services: map<Id, Service>,
    vehicles: map<Id, Vehicle>,
    addons: map<Id, Cost>)

  /** RowRejected is the constraint violation raised while the child rows are flushed. */
  datatype CreateError =
    | NotAClient
    | SelfBooking
    | DetailerMissing
    | ServiceMissing
    | VehicleMissing
    | VehicleNotOwned
    | AddonMissing
    | SlotTaken
    | RowRejected

  function VehicleProblem(dir: Directory, owner: Uuid, vehicles: seq<EntryRequest>): Option<CreateError> {
    if vehicles == [] then None
    else
      var v := vehicles[0].vehicle;
      if v !in dir.vehicles then Some(VehicleMissing)
      else if dir.vehicles[v].owner != owner then Some(VehicleNotOwned)
      else VehicleProblem(dir, owner, vehicles[1..])
  }

  predicate ServicesKnown(dir: Directory, vehicles: seq<EntryRequest>) {
    forall i :: 0 <= i < |vehicles| ==> vehicles[i].service in dir.services
  }

  predicate AddonsKnown(dir: Directory, vehicles: seq<EntryRequest>) {
    forall i, j :: 0 <= i < |vehicles| && 0 <= j < |vehicles[i].addons| ==> vehicles[i].addons[j] in dir.addons
  }

  function Problem(p: Payload, client: Actor, dir: Directory): Option<CreateError> {
    if Client !in client.roles then Some(NotAClient)
    else if p.detailer == client.id then Some(SelfBooking)
    else if p.detailer !in dir.activeDetailers then Some(DetailerMissing)
    else if !ServicesKnown(dir, p.vehicles) then Some(ServiceMissing)
    else
      var v := VehicleProblem(dir, client.id, p.vehicles);
      if v.Some? then v
      else if !AddonsKnown(dir, p.vehicles) then Some(AddonMissing)
      else None
  }

  lemma {:induction false} VehiclesKnown(dir: Directory, owner: Uuid, vehicles: seq<EntryRequest>)
    ensures VehicleProblem(dir, owner, vehicles).None? <==>
            forall i :: 0 <= i < |vehicles| ==>
              vehicles[i].vehicle in dir.vehicles && dir.vehicles[vehicles[i].vehicle].owner == owner
  {
    if vehicles != [] {
      VehiclesKnown(dir, owner, vehicles[1..]);
      assert forall i :: 0 < i < |vehicles| ==> vehicles[i] == vehicles[1..][i - 1];
    }
  }

  /** The priced entry behind a requested one; lookups fall back to nothing when validation has not passed. */
  function Resolve(dir: Directory, e: EntryRequest): Entry {
    Entry(e.vehicle,
          if e.vehicle in dir.vehicles then dir.vehicles[e.vehicle].size else Small,
          if e.service in dir.services then dir.services[e.service] else Service(0, 0),
          e.addons)
  }

  function Entries(dir: Directory, vehicles: seq<EntryRequest>): (entries: seq<Entry>)
    ensures |entries| == |vehicles|
    ensures forall i :: 0 <= i < |vehicles| ==> entries[i] == Resolve(dir, vehicles[i])
  {
    seq(|vehicles|, i requires 0 <= i < |vehicles| => Resolve(dir, vehicles[i]))
  }

  function Table(cases: map<Id, Case>): map<Id, Appointment> {
    map id | id in cases :: cases[id].appt
  }

  /** The header row of a booking: its price, and its window with the travel buffer. */
  function RequestOf(p: Payload, client: Actor, dir: Directory, bufferMinutes: nat): Booking.Request {
    var entries := Entries(dir, p.vehicles);
    Booking.Request(
      client.id, p.detailer, p.scheduledTime,
      p.scheduledTime + (BookingTotal(Minutes, dir.addons, entries) + bufferMinutes) * MINUTE,
      BookingTotal(Price, dir.addons, entries))
  }

  function CreateSpec(cases: map<Id, Case>, now: Time, p: Payload, client: Actor, dir: Directory,
                      bufferMinutes: nat, newId: Id): Result<map<Id, Case>, CreateError>
  {
    var problem := Problem(p, client, dir);
    if problem.Some? then Failure(problem.value)
    else
      var req := RequestOf(p, client, dir, bufferMinutes);
      var lines := Lines(dir.addons, Entries(dir, p.vehicles));
      if |Conflicts(Table(cases), req.detailer, req.start, req.end)| > 0 then Failure(SlotTaken)
      else if !LinesStorable(lines) then Failure(RowRejected)
      else Success(cases[newId := NewCase(req, lines, client, now)])
  }

  // ---- Who may book what ------------------------------------------------------ //

  /** A customer's own vehicles, known services and known addons. */
  predicate EntryKnown(e: EntryRequest, client: Actor, dir: Directory) {
    && e.service in dir.services
    && e.vehicle in dir.vehicles && dir.vehicles[e.vehicle].owner == client.id
    && forall j :: 0 <= j < |e.addons| ==> e.addons[j] in dir.addons
  }

  lemma NoProblemWhen(p: Payload, client: Actor, dir: Directory)
    ensures Problem(p, client, dir).None? <==>
              && Client in client.roles && p.detailer != client.id && p.detailer in dir.activeDetailers
              && forall i :: 0 <= i < |p.vehicles| ==> EntryKnown(p.vehicles[i], client, dir)
  {
    VehiclesKnown(dir, client.id, p.vehicles);
  }

  /**
   A booking is accepted if and only if a customer asks for another, active
   detailer, own vehicles, known services and addons, no row of that detailer
   is in the way, and the database takes the rows.
  */
  lemma AcceptedWhen(cases: map<Id, Case>, now: Time, p: Payload, client: Actor, dir: Directory,
                     bufferMinutes: nat, newId: Id)
    ensures CreateSpec(cases, now, p, client, dir, bufferMinutes, newId).Success? <==>
              && Client in client.roles && p.detailer != client.id && p.detailer in dir.activeDetailers
              && (forall i :: 0 <= i < |p.vehicles| ==> EntryKnown(p.vehicles[i], client, dir))
              && (forall id :: id in cases ==> !InTheWay(cases[id].appt, RequestOf(p, client, dir, bufferMinutes)))
              && Storable(Entries(dir, p.vehicles), dir.addons)
  {
    var req, entries := RequestOf(p, client, dir, bufferMinutes), Entries(dir, p.vehicles);
    NoProblemWhen(p, client, dir);
    StorableWhen(dir.addons, entries);
    Booking.CountZero(Table(cases), req);
    assert forall id :: id in cases ==> Table(cases)[id] == cases[id].appt;
  }

  /** A row of the detailer, neither deleted nor in a terminal status, whose window meets the request's. */
  predicate InTheWay(a: Appointment, req: Booking.Request) {
    && a.detailer == Some(req.detailer) && !a.deleted
    && a.status !in {CancelledByClient, CancelledByDetailer, NoShow, NoDetailerFound}
    && a.bufferEnd.Some? && a.scheduledTime < req.end && req.start < a.bufferEnd.value
  }

  predicate Storable(entries: seq<Entry>, addons: map<Id, Cost>) {
    && VehiclesDistinct(entries) && NoDuplicates(Attached(entries))
    && (forall i :: 0 <= i < |entries| ==> Scale(entries[i].service.baseMinutes, entries[i].size) > 0)
    && (forall id :: id in Attached(entries) ==> id in addons && addons[id].minutes > 0)
  }

  /** A customer, and another, active detailer. */
  predicate PartiesFit(p: Payload, client: Actor, dir: Directory) {
    Client in client.roles && p.detailer != client.id && p.detailer in dir.activeDetailers
  }

  /** Which refusal comes first: the parties, then the services. */
  lemma RefusedWhen(p: Payload, client: Actor, dir: Directory)
    ensures var problem := Problem(p, client, dir);
            && (problem == Some(NotAClient) <==> Client !in client.roles)
            && (problem == Some(SelfBooking) <==> Client in client.roles && p.detailer == client.id)
            && (problem == Some(DetailerMissing) <==>
                  Client in client.roles && p.detailer != client.id && p.detailer !in dir.activeDetailers)
            && (problem == Some(ServiceMissing) <==>
                  PartiesFit(p, client, dir)
                  && exists i :: 0 <= i < |p.vehicles| && p.vehicles[i].service !in dir.services)
  {
    VehiclesKnown(dir, client.id, p.vehicles);
    FirstBadVehicleDecides(p, client, dir);
  }

  /** Then the first vehicle that is missing or not owned, and last the addons. */
  lemma EntriesRefusedWhen(p: Payload, client: Actor, dir: Directory)
    requires PartiesFit(p, client, dir)
    requires forall i :: 0 <= i < |p.vehicles| ==> p.vehicles[i].service in dir.services
    ensures Problem(p, client, dir) == Some(VehicleMissing) <==> exists i :: FirstBadVehicle(p, client, dir, i, true)
    ensures Problem(p, client, dir) == Some(VehicleNotOwned) <==> exists i :: FirstBadVehicle(p, client, dir, i, false)
    ensures Problem(p, client, dir) == Some(AddonMissing) <==>
              && (forall i :: 0 <= i < |p.vehicles| ==> VehicleOwned(p.vehicles[i], client, dir))
              && exists i, j :: 0 <= i < |p.vehicles| && 0 <= j < |p.vehicles[i].addons|
                                && p.vehicles[i].addons[j] !in dir.addons
  {
    VehiclesKnown(dir, client.id, p.vehicles);
    FirstBadVehicleDecides(p, client, dir);
  }

  predicate VehicleOwned(e: EntryRequest, client: Actor, dir: Directory) {
    e.vehicle in dir.vehicles && dir.vehicles[e.vehicle].owner == client.id
  }

  /** Vehicle i is the first that cannot be booked: it does not exist, or it is somebody else's. */
  predicate FirstBadVehicle(p: Payload, client: Actor, dir: Directory, i: int, missing: bool) {
    && 0 <= i < |p.vehicles| && !VehicleOwned(p.vehicles[i], client, dir)
    && (missing <==> p.vehicles[i].vehicle !in dir.vehicles)
    && forall k :: 0 <= k < i ==> VehicleOwned(p.vehicles[k], client, dir)
  }

  lemma {:induction false} FirstBadVehicleDecides(p: Payload, client: Actor, dir: Directory)
    ensures VehicleProblem(dir, client.id, p.vehicles) in {None, Some(VehicleMissing), Some(VehicleNotOwned)}
    ensures VehicleProblem(dir, client.id, p.vehicles) == Some(VehicleMissing) <==>
              exists i :: FirstBadVehicle(p, client, dir, i, true)
    ensures VehicleProblem(dir, client.id, p.vehicles) == Some(VehicleNotOwned) <==>
              exists i :: FirstBadVehicle(p, client, dir, i, false)
    decreases |p.vehicles|
  {
    if p.vehicles != [] {
      var rest := p.(vehicles := p.vehicles[1..]);
      if VehicleOwned(p.vehicles[0], client, dir) {
        FirstBadVehicleDecides(rest, client, dir);
        FirstBadShifts(p, client, dir, true);
        FirstBadShifts(p, client, dir, false);
      } else {
        assert FirstBadVehicle(p, client, dir, 0, p.vehicles[0].vehicle !in dir.vehicles);
        forall i, missing | FirstBadVehicle(p, client, dir, i, missing) ensures i == 0 {
        }
      }
    }
  }

  lemma FirstBadShifts(p: Payload, client: Actor, dir: Directory, missing: bool)
    requires p.vehicles != [] && VehicleOwned(p.vehicles[0], client, dir)
    ensures (exists i :: FirstBadVehicle(p, client, dir, i, missing)) <==>
            (exists i :: FirstBadVehicle(p.(vehicles := p.vehicles[1..]), client, dir, i, missing))
  {
    var rest := p.(vehicles := p.vehicles[1..]);
    if i :| FirstBadVehicle(p, client, dir, i, missing) {
      assert forall k :: 0 <= k < i - 1 ==> rest.vehicles[k] == p.vehicles[k + 1];
      assert FirstBadVehicle(rest, client, dir, i - 1, missing);
    }
    if i :| FirstBadVehicle(rest, client, dir, i, missing) {
      assert forall k :: 0 <= k < i ==> VehicleOwned(rest.vehicles[k], client, dir);
      assert forall k :: 0 < k < i + 1 ==> p.vehicles[k] == rest.vehicles[k - 1];
      assert FirstBadVehicle(p, client, dir, i + 1, missing);
    }
  }

  /** What is stored: a pending row of this customer and detailer from the requested time, and nothing else changes. */
  lemma AcceptedRow(cases: map<Id, Case>, now: Time, p: Payload, client: Actor, dir: Directory,
                    bufferMinutes: nat, newId: Id)
    requires CreateSpec(cases, now, p, client, dir, bufferMinutes, newId).Success?
    ensures var after := CreateSpec(cases, now, p, client, dir, bufferMinutes, newId).value;
            && after.Keys == cases.Keys + {newId}
            && (forall id :: id in cases && id != newId ==> after[id] == cases[id])
            && var (c, a) := (after[newId], after[newId].appt);
               && a.client == client.id && a.detailer == Some(p.detailer)
               && a.scheduledTime == p.scheduledTime && a.status == Pending && !a.deleted
               && a.actualPrice == None && a.intent == NoIntent
               && a.arrivedAt == a.startedAt == a.completedAt == None
               && a.bufferEnd == Some(p.scheduledTime + (LinesTotal(Minutes, c.lines) + bufferMinutes) * MINUTE)
               && a.estimatedPrice == LinesTotal(Price, c.lines)
               && c.history == [HistoryEntry(None, Pending, client, now)] && c.cancellations == [] && c.effects == []
  {
    HeaderIsSumOfLines(Price, dir.addons, Entries(dir, p.vehicles));
    HeaderIsSumOfLines(Minutes, dir.addons, Entries(dir, p.vehicles));
  }

  /**
   The line items of an accepted booking: one for each vehicle, priced by the
   size on file and the service asked for, one for each addon asked for with
   that addon's price and minutes, and no others.
  */
  lemma AcceptedLines(cases: map<Id, Case>, now: Time, p: Payload, client: Actor, dir: Directory,
                      bufferMinutes: nat, newId: Id, i: nat)
    requires CreateSpec(cases, now, p, client, dir, bufferMinutes, newId).Success? && i < |p.vehicles|
    ensures var lines := CreateSpec(cases, now, p, client, dir, bufferMinutes, newId).value[newId].lines;
            var e := p.vehicles[i];
            && |lines| == |p.vehicles| + AddonCount(p.vehicles)
            && e.service in dir.services && e.vehicle in dir.vehicles
            && var (svc, size) := (dir.services[e.service], dir.vehicles[e.vehicle].size);
               && VehicleLine(e.vehicle, Cost(Scale(svc.basePrice, size), Scale(svc.baseMinutes, size))) in lines
               && forall j :: 0 <= j < |e.addons| ==>
                    e.addons[j] in dir.addons && AddonLine(e.addons[j], dir.addons[e.addons[j]]) in lines
  {
    NoProblemWhen(p, client, dir);
    assert EntryKnown(p.vehicles[i], client, dir);
    var entries := Entries(dir, p.vehicles);
    LinesLength(dir.addons, entries);
    AttachedCounts(dir, p.vehicles);
    var pos := VehicleHasLine(dir.addons, entries, i);
    forall j | 0 <= j < |p.vehicles[i].addons|
      ensures AddonLine(p.vehicles[i].addons[j], dir.addons[p.vehicles[i].addons[j]]) in Lines(dir.addons, entries)
    {
      var at := AddonHasLine(dir.addons, entries, i, j);
    }
  }

  /** How many addons are asked for, over all vehicles. */
  function AddonCount(vehicles: seq<EntryRequest>): nat {
    if vehicles == [] then 0 else AddonCount(vehicles[..|vehicles| - 1]) + |vehicles[|vehicles| - 1].addons|
  }

  lemma {:induction false} AttachedCounts(dir: Directory, vehicles: seq<EntryRequest>)
    ensures |Attached(Entries(dir, vehicles))| == AddonCount(vehicles)
  {
    if vehicles != [] {
      var n := |vehicles| - 1;
      AttachedCounts(dir, vehicles[..n]);
      assert Entries(dir, vehicles)[..n] == Entries(dir, vehicles[..n]);
    }
  }

  // ---- One booking alone ------------------------------------------------------ //

  /** An accepted booking leaves the table free of double bookings. */
  lemma CreateKeepsClear(cases: map<Id, Case>, now: Time, p: Payload, client: Actor, dir: Directory,
                         bufferMinutes: nat, newId: Id)
    requires Booking.PairwiseClear(Table(cases)) && newId !in cases
    requires CreateSpec(cases, now, p, client, dir, bufferMinutes, newId).Success?
    ensures Booking.NoDoubleBooking(Table(CreateSpec(cases, now, p, client, dir, bufferMinutes, newId).value))
  {
    var req := RequestOf(p, client, dir, bufferMinutes);
    Booking.FreeWindowKeepsClear(Table(cases), req, newId);
    assert Table(CreateSpec(cases, now, p, client, dir, bufferMinutes, newId).value) ==
           Table(cases)[newId := Booking.NewRow(req)];
    Booking.PairwiseClearIsDisjoint(Table(cases)[newId := Booking.NewRow(req)]);
  }

  /**
   Left undisturbed, lock, count, insert and commit do what the sequential code
   does; if the constraints reject the row, so do they with a rollback in the
   place of the commit.
  */
  lemma CreateIsOneTransaction(cases: map<Id, Case>, now: Time, p: Payload, client: Actor, dir: Directory,
                               bufferMinutes: nat, newId: Id)
    requires newId !in cases
    ensures var req := RequestOf(p, client, dir, bufferMinutes);
            var created := CreateSpec(cases, now, p, client, dir, bufferMinutes, newId);
            var ran := Booking.Run(false, Booking.System(Table(cases), map[]),
                [Booking.Lock(0, req), Booking.Count(0), Booking.Insert(0, newId), Booking.Commit(0)]);
            && (created.Success? ==> ran.table == Table(created.value))
            && (created == Failure(SlotTaken) ==> ran.table == Table(cases) && Booking.PhaseOf(ran, 0).Refused?)
            && (created == Failure(RowRejected) ==> RolledBack(Table(cases), req, newId))
  {
    var req := RequestOf(p, client, dir, bufferMinutes);
    Booking.UndisturbedTransaction(Table(cases), req, 0, newId);
    var created := CreateSpec(cases, now, p, client, dir, bufferMinutes, newId);
    if created.Success? {
      assert |Conflicts(Table(cases), req.detailer, req.start, req.end)| == 0;
      assert Table(created.value) == Table(cases)[newId := Booking.NewRow(req)];
    } else if created == Failure(SlotTaken) {
      assert Problem(p, client, dir) != Some(SlotTaken) by {
        ProblemKinds(p, client, dir);
      }
    } else if created == Failure(RowRejected) {
      ProblemKinds(p, client, dir);
      RowIsRolledBack(Table(cases), req, newId);
    }
  }

  /** The machine counts no conflict and inserts; rolled back, it leaves the table as it was. */
  predicate RolledBack(table: map<Id, Appointment>, req: Booking.Request, newId: Id) {
    var inserted := Booking.Run(false, Booking.System(table, map[]),
        [Booking.Lock(0, req), Booking.Count(0), Booking.Insert(0, newId)]);
    var ran := Booking.Step(false, inserted, Booking.Rollback(0));
    Booking.PhaseOf(inserted, 0).Inserted? && ran == Booking.System(table, map[0 := Booking.Idle])
  }

  lemma RowIsRolledBack(table: map<Id, Appointment>, req: Booking.Request, newId: Id)
    requires newId !in table && |Conflicts(table, req.detailer, req.start, req.end)| == 0
    ensures RolledBack(table, req, newId)
  {
    var s0 := Booking.System(table, map[]);
    var s1 := Booking.System(table, map[0 := Booking.Locked(req)]);
    var s2 := Booking.System(table, map[0 := Booking.Clear(req)]);
    var s3 := Booking.System(table, map[0 := Booking.Inserted(req, newId)]);
    assert Booking.Step(false, s0, Booking.Lock(0, req)) == s1;
    assert Booking.Step(false, s1, Booking.Count(0)) == s2;
    assert Booking.Step(false, s2, Booking.Insert(0, newId)) == s3;
    var last := [Booking.Insert(0, newId)];
    assert [Booking.Lock(0, req), Booking.Count(0), Booking.Insert(0, newId)][1..] == [Booking.Count(0)] + last;
    assert ([Booking.Count(0)] + last)[1..] == last && last[1..] == [];
    assert Booking.Run(false, s2, last) == s3;
    assert Booking.Run(false, s1, [Booking.Count(0)] + last) == s3;
  }

  /** Validation never reports a conflict. */
  lemma ProblemKinds(p: Payload, client: Actor, dir: Directory)
    ensures Problem(p, client, dir) != Some(SlotTaken) && Problem(p, client, dir) != Some(RowRejected)
  {
    VehicleProblemKinds(dir, client.id, p.vehicles);
  }

  lemma VehicleProblemKinds(dir: Directory, owner: Uuid, vehicles: seq<EntryRequest>)
    ensures VehicleProblem(dir, owner, vehicles) in {None, Some(VehicleMissing), Some(VehicleNotOwned)}
  {
  }

  // ---- From quote to booking ----------------------------------------------------- //

  predicate OneService(dir: Directory, vehicles: seq<EntryRequest>, svc: Service) {
    forall i :: 0 <= i < |vehicles| ==> Resolve(dir, vehicles[i]).service == svc
  }

  /** The addon ids of the request in any order, one mention for each attachment, as the quote was asked with. */
  predicate AddonListing(dir: Directory, vehicles: seq<EntryRequest>, addons: seq<Id>) {
    multiset(addons) == multiset(Attached(Entries(dir, vehicles)))
  }

  /** The window and the price asked for are those of the quote. */
  lemma RequestIsTheQuote(p: Payload, client: Actor, dir: Directory, bufferMinutes: nat, svc: Service, addons: seq<Id>)
    requires OneService(dir, p.vehicles, svc) && AddonListing(dir, p.vehicles, addons)
    ensures var (req, sizes) := (RequestOf(p, client, dir, bufferMinutes), Sizes(Entries(dir, p.vehicles)));
            && req.price == Quote(Price, svc, sizes, dir.addons, addons)
            && req.end == req.start + (Quote(Minutes, svc, sizes, dir.addons, addons) + bufferMinutes) * MINUTE
  {
    var entries := Entries(dir, p.vehicles);
    assert forall i :: 0 <= i < |entries| ==> entries[i].service == svc;
    BookingMatchesQuote(Price, dir.addons, entries, svc, addons);
    BookingMatchesQuote(Minutes, dir.addons, entries, svc, addons);
  }

  /** The case costs and lasts what the quote says, and its lines sum up to its header. */
  predicate KeepsQuote(c: Case, p: Payload, dir: Directory, bufferMinutes: nat, svc: Service, addons: seq<Id>) {
    var sizes := Sizes(Entries(dir, p.vehicles));
    var minutes := Quote(Minutes, svc, sizes, dir.addons, addons);
    && c.appt.estimatedPrice == Quote(Price, svc, sizes, dir.addons, addons)
    && c.appt.bufferEnd == Some(p.scheduledTime + (minutes + bufferMinutes) * MINUTE)
    && LinesTotal(Price, c.lines) == c.appt.estimatedPrice
    && LinesTotal(Minutes, c.lines) == minutes
  }

  lemma CaseKeepsQuote(c: Case, p: Payload, client: Actor, dir: Directory, bufferMinutes: nat, svc: Service,
                       addons: seq<Id>)
    requires OneService(dir, p.vehicles, svc) && AddonListing(dir, p.vehicles, addons)
    requires var req := RequestOf(p, client, dir, bufferMinutes);
             c.appt.estimatedPrice == req.price && c.appt.bufferEnd == Some(req.end)
    requires c.lines == Lines(dir.addons, Entries(dir, p.vehicles))
    ensures KeepsQuote(c, p, dir, bufferMinutes, svc, addons)
  {
    RequestIsTheQuote(p, client, dir, bufferMinutes, svc, addons);
    LinesAreTheQuote(dir.addons, Entries(dir, p.vehicles), svc, addons);
  }

  lemma LinesAreTheQuote(catalog: map<Id, Cost>, entries: seq<Entry>, svc: Service, addons: seq<Id>)
    requires forall i :: 0 <= i < |entries| ==> entries[i].service == svc
    requires multiset(addons) == multiset(Attached(entries))
    ensures LinesTotal(Price, Lines(catalog, entries)) == Quote(Price, svc, Sizes(entries), catalog, addons)
    ensures LinesTotal(Minutes, Lines(catalog, entries)) == Quote(Minutes, svc, Sizes(entries), catalog, addons)
  {
    HeaderIsSumOfLines(Price, catalog, entries);
    HeaderIsSumOfLines(Minutes, catalog, entries);
    BookingMatchesQuote(Price, catalog, entries, svc, addons);
    BookingMatchesQuote(Minutes, catalog, entries, svc, addons);
  }

  lemma AcceptedCase(cases: map<Id, Case>, now: Time, p: Payload, client: Actor, dir: Directory,
                     bufferMinutes: nat, newId: Id)
    requires CreateSpec(cases, now, p, client, dir, bufferMinutes, newId).Success?
    ensures var (c, req) := (CreateSpec(cases, now, p, client, dir, bufferMinutes, newId).value,
                             RequestOf(p, client, dir, bufferMinutes));
            && newId in c
            && c[newId].appt.estimatedPrice == req.price && c[newId].appt.bufferEnd == Some(req.end)
            && c[newId].lines == Lines(dir.addons, Entries(dir, p.vehicles))
  {
  }

  /**
   Every booking that is accepted costs and lasts exactly what matching quoted
   for its vehicles and addons, and its line items add up to its header.
  */
  lemma AcceptedBookingKeepsTheQuote(cases: map<Id, Case>, now: Time, p: Payload, client: Actor, dir: Directory,
                                     bufferMinutes: nat, newId: Id, svc: Service, addons: seq<Id>)
    requires CreateSpec(cases, now, p, client, dir, bufferMinutes, newId).Success?
    requires OneService(dir, p.vehicles, svc) && AddonListing(dir, p.vehicles, addons)
    ensures var after := CreateSpec(cases, now, p, client, dir, bufferMinutes, newId).value;
            newId in after && KeepsQuote(after[newId], p, dir, bufferMinutes, svc, addons)
  {
    AcceptedCase(cases, now, p, client, dir, bufferMinutes, newId);
    CaseKeepsQuote(CreateSpec(cases, now, p, client, dir, bufferMinutes, newId).value[newId],
                   p, client, dir, bufferMinutes, svc, addons);
  }

  /** An offered slot's window counts no conflict. */
  lemma OfferedWindowIsFree(table: map<Id, Appointment>, d: Uuid, dayStart: Time, rows: seq<Appointment>,
                            now: Time, duration: Time, workStart: Time, workEnd: Time,
                            slots: seq<Slots.TimeSlot>, k: nat)
    requires Slots.DayListing(table, d, dayStart, rows)
    requires Slots.NoStrayInWindow(table, d, dayStart, workStart, workEnd)
    requires Slots.SlotsFor(rows, Slots.SlotRequest(now, duration), workStart, workEnd, slots)
    requires k < |slots| && slots[k].available
    ensures Slots.BookingFree(table, d, slots[k].start, slots[k].start + duration)
  {
    Slots.SlotIsBookable(table, d, dayStart, rows, Slots.SlotRequest(now, duration), workStart, workEnd, slots, k);
  }

  /** A valid request whose window counts no conflict is accepted. */
  lemma FreeWindowIsAccepted(cases: map<Id, Case>, now: Time, p: Payload, client: Actor, dir: Directory,
                             bufferMinutes: nat, newId: Id)
    requires Problem(p, client, dir).None? && LinesStorable(Lines(dir.addons, Entries(dir, p.vehicles)))
    requires var req := RequestOf(p, client, dir, bufferMinutes);
             Slots.BookingFree(Table(cases), p.detailer, req.start, req.end)
    ensures CreateSpec(cases, now, p, client, dir, bufferMinutes, newId).Success?
  {
  }

  /** How long a slot must be for what the quote says, with the travel buffer. */
  function QuotedDuration(p: Payload, dir: Directory, bufferMinutes: nat, svc: Service, addons: seq<Id>): Time {
    (Quote(Minutes, svc, Sizes(Entries(dir, p.vehicles)), dir.addons, addons) + bufferMinutes) * MINUTE
  }

  lemma WindowIsQuoted(p: Payload, client: Actor, dir: Directory, bufferMinutes: nat, svc: Service, addons: seq<Id>)
    requires OneService(dir, p.vehicles, svc) && AddonListing(dir, p.vehicles, addons)
    ensures var req := RequestOf(p, client, dir, bufferMinutes);
            req.start == p.scheduledTime && req.end == req.start + QuotedDuration(p, dir, bufferMinutes, svc, addons)
  {
    RequestIsTheQuote(p, client, dir, bufferMinutes, svc, addons);
  }

  lemma FreeQuotedWindowIsAccepted(cases: map<Id, Case>, now: Time, p: Payload, client: Actor, dir: Directory,
                                   bufferMinutes: nat, newId: Id, svc: Service, addons: seq<Id>)
    requires OneService(dir, p.vehicles, svc) && AddonListing(dir, p.vehicles, addons)
    requires Problem(p, client, dir).None? && LinesStorable(Lines(dir.addons, Entries(dir, p.vehicles)))
    requires Slots.BookingFree(Table(cases), p.detailer, p.scheduledTime,
                               p.scheduledTime + QuotedDuration(p, dir, bufferMinutes, svc, addons))
    ensures CreateSpec(cases, now, p, client, dir, bufferMinutes, newId).Success?
  {
    WindowIsQuoted(p, client, dir, bufferMinutes, svc, addons);
    FreeWindowIsAccepted(cases, now, p, client, dir, bufferMinutes, newId);
  }

  /**
   A slot offered for the quoted duration can be booked at once: in the same
   state, an otherwise valid request at that start is never refused as taken.
  */
  lemma OfferedSlotCanBeBooked(cases: map<Id, Case>, now: Time, p: Payload, client: Actor, dir: Directory,
                               bufferMinutes: nat, newId: Id, svc: Service, addons: seq<Id>,
                               dayStart: Time, rows: seq<Appointment>, workStart: Time, workEnd: Time,
                               slots: seq<Slots.TimeSlot>, k: nat)
    requires OneService(dir, p.vehicles, svc) && AddonListing(dir, p.vehicles, addons)
    requires Slots.DayListing(Table(cases), p.detailer, dayStart, rows)
    requires Slots.NoStrayInWindow(Table(cases), p.detailer, dayStart, workStart, workEnd)
    requires Slots.SlotsFor(rows, Slots.SlotRequest(now, QuotedDuration(p, dir, bufferMinutes, svc, addons)),
                            workStart, workEnd, slots)
    requires k < |slots| && slots[k].available && p.scheduledTime == slots[k].start
    requires Problem(p, client, dir).None? && LinesStorable(Lines(dir.addons, Entries(dir, p.vehicles)))
    ensures CreateSpec(cases, now, p, client, dir, bufferMinutes, newId).Success?
  {
    OfferedWindowIsFree(Table(cases), p.detailer, dayStart, rows, now,
                        QuotedDuration(p, dir, bufferMinutes, svc, addons), workStart, workEnd, slots, k);
    FreeQuotedWindowIsAccepted(cases, now, p, client, dir, bufferMinutes, newId, svc, addons);
  }
}
