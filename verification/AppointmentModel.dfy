/** The appointment row and its finite state machine. */
module AppointmentModel {
  import opened Support

  datatype Status =
    | Pending
    | Confirmed
    | Arrived
    | InProgress
    | Completed
    | CancelledByClient
    | CancelledByDetailer
    | NoShow
    | Searching
    | NoDetailerFound

  datatype Role = Client | Detailer | Admin

  /** The Stripe PaymentIntent attached to a row: absent, the no-payment stub, or a real one. */
  datatype Intent = NoIntent | NoPayStub | Intent(id: Id)

  datatype Appointment = Appointment(
    client: Uuid,
    detailer: Option<Uuid>,
    scheduledTime: Time,
    bufferEnd: Option<Time>,
    status: Status,
    deleted: bool,
    estimatedPrice: nat,
    actualPrice: Option<nat>,
    intent: Intent,
    arrivedAt: Option<Time>,
    startedAt: Option<Time>,
    completedAt: Option<Time>)

  predicate Terminal(s: Status) {
    s in {CancelledByClient, CancelledByDetailer, NoShow, NoDetailerFound}
  }

  predicate Cancellation(s: Status) {
    s == CancelledByClient || s == CancelledByDetailer
  }

  /** The roles that may move an appointment along an edge; empty when the edge is not in the table. */
  function RolesFor(from: Status, to: Status): set<Role> {
    match (from, to)
    case (Pending, Confirmed) => {Detailer, Admin}
    case (Confirmed, Arrived) => {Detailer, Admin}
    case (Confirmed, InProgress) => {Detailer, Admin}
    case (Arrived, InProgress) => {Detailer, Admin}
    case (InProgress, Completed) => {Detailer, Admin}
    case (InProgress, NoShow) => {Detailer, Admin}
    case (Pending, CancelledByClient) => {Client, Admin}
    case (Confirmed, CancelledByClient) => {Client, Admin}
    case (Arrived, CancelledByClient) => {Client, Admin}
    case (Pending, CancelledByDetailer) => {Detailer, Admin}
    case (Confirmed, CancelledByDetailer) => {Detailer, Admin}
    case (Arrived, CancelledByDetailer) => {Detailer, Admin}
    case _ => {}
  }

  predicate Edge(from: Status, to: Status) {
    RolesFor(from, to) != {}
  }

  /**
   Who moves appointments: an administrator along every edge, a customer only
   to cancel as a customer, a detailer along all the others.
  */
  lemma WhoMayAct(from: Status, to: Status)
    requires Edge(from, to)
    ensures Admin in RolesFor(from, to)
    ensures Client in RolesFor(from, to) <==> to == CancelledByClient
    ensures Detailer in RolesFor(from, to) <==> to != CancelledByClient
  {
  }

  /** The whole table, by the status an edge leads to. */
  lemma EdgesInto(from: Status, to: Status)
    ensures Edge(from, to) <==>
              || (to == Confirmed && from == Pending)
              || (to == Arrived && from == Confirmed)
              || (to == InProgress && from in {Confirmed, Arrived})
              || (to in {Completed, NoShow} && from == InProgress)
              || (to in {CancelledByClient, CancelledByDetailer} && from in {Pending, Confirmed, Arrived})
  {
  }

  /** No status traps an appointment: it can move on exactly while it is open, and then still be completed. */
  lemma OpenStatuses(s: Status)
    ensures (exists to :: Edge(s, to)) <==> s in {Pending, Confirmed, Arrived, InProgress}
    ensures (exists to :: Edge(s, to)) ==>
              && (s == InProgress || Edge(s, InProgress) || (Edge(s, Confirmed) && Edge(Confirmed, InProgress)))
              && Edge(InProgress, Completed)
  {
    assert Edge(Pending, Confirmed) && Edge(Confirmed, InProgress) && Edge(Arrived, InProgress);
    assert Edge(InProgress, Completed);
  }

  /** Progress through the life of an appointment; every edge climbs it. */
  function Rank(s: Status): nat {
    match s
    case Searching => 0
    case Pending => 1
    case Confirmed => 2
    case Arrived => 3
    case InProgress => 4
    case _ => 5
  }

  /** An active row: the rows both the overlap count and the slot engine look at. */
  predicate Active(a: Appointment, d: Uuid) {
    a.detailer == Some(d) && !a.deleted && !Terminal(a.status)
  }

  /** SQL comparison with a NULL buffer end is not true, so such a row never overlaps. */
  predicate Overlaps(a: Appointment, start: Time, end: Time) {
    a.bufferEnd.Some? && a.scheduledTime < end && a.bufferEnd.value > start
  }

  predicate Conflicting(a: Appointment, d: Uuid, start: Time, end: Time) {
    Active(a, d) && Overlaps(a, start, end)
  }

  /** The rows counted by the overlap query. */
  function Conflicts(table: map<Id, Appointment>, d: Uuid, start: Time, end: Time): set<Id> {
    set id | id in table && Conflicting(table[id], d, start, end)
  }

  /** An instant lies in the half-open window an appointment reserves. */
  predicate Occupies(a: Appointment, t: Time) {
    a.bufferEnd.Some? && a.scheduledTime <= t < a.bufferEnd.value
  }
}
