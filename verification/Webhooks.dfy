/**
 The Stripe webhook endpoint: one insert decides whether an event is new, and
 the handler runs in the same transaction.
*/
module Webhooks {
  import opened Support

  datatype EventType =
    | PaymentSucceeded
    | PaymentFailed
    | IdentityVerified
    | IdentityRequiresInput
    | IdentityCanceled
    | CardSaved
    | CardDetached
    | Other(name: string)

  datatype IdentityError = IdentityError(code: Option<string>, reason: Option<string>)

  /** An event as parsed: any part may be absent; nullMap says a nested object the handler indexes is null. */
  datatype Event = Event(
    id: Option<string>,
    kind: EventType,
    objectId: Option<string>,
    error: Option<IdentityError>,
    nullMap: bool)

  datatype Delivery = Delivery(event: Event, at: Time)

  datatype Verification = Unreviewed | Approved | Rejected

  datatype Profile = Profile(
    session: Option<string>,
    verification: Verification,
    reviewedAt: Option<Time>,
    rejectionReason: Option<string>,
    acceptingBookings: bool)

  datatype Booking = Booking(client: Id, intent: Option<string>, estimatedPrice: nat, deleted: bool)

  datatype AuditEntry = PaymentCaptured(appointment: Id, client: Id, intent: string, cents: nat)

  datatype Db = Db(
    profiles: map<Id, Profile>,
    bookings: map<Id, Booking>,
    audit: seq<AuditEntry>,
    cards: map<string, Id>)

  /** What makes the request fail and the whole transaction roll back. */
  datatype Fault = MissingField | SeveralRows | TooLong | CardFault

  type Handler = (Db, Delivery) -> Result<Db, Fault>

  type CardHandler = (map<string, Id>, Event) -> Result<map<string, Id>, Fault>

  // ---- The handlers ---------------------------------------------------------- //

  predicate BelongsTo(p: Profile, session: string) {
    p.session == Some(session)
  }

  /** The profile as the event leaves it. */
  function Decide(p: Profile, e: Event, at: Time): Profile {
    if e.objectId.None? || !BelongsTo(p, e.objectId.value) then p
    else if e.kind.IdentityVerified? then
      p.(verification := Approved, reviewedAt := Some(at), acceptingBookings := true)
    else if e.kind.IdentityRequiresInput? then
      p.(verification := Rejected, reviewedAt := Some(at), rejectionReason := Some(RejectionReason(e.error)),
         acceptingBookings := false)
    else p
  }

  function RejectionReason(error: Option<IdentityError>): string {
    var code := if error.Some? && error.value.code.Some? then error.value.code.value else "unknown";
    var reason := if error.Some? && error.value.reason.Some? then error.value.reason.value else "";
    Strip(code + ": " + reason)
  }

  /** Colons and blanks removed from both ends. */
  function Strip(s: string): string
    decreases |s|
  {
    if s != [] && s[0] in {':', ' '} then Strip(s[1..])
    else if s != [] && s[|s| - 1] in {':', ' '} then Strip(s[..|s| - 1])
    else s
  }

  /** Only colons and blanks go, and only from the ends. */
  lemma {:induction false} StripTrims(s: string) returns (i: nat, j: nat)
    ensures i <= j <= |s| && Strip(s) == s[i..j]
    ensures forall k :: 0 <= k < i || j <= k < |s| ==> s[k] in {':', ' '}
    ensures i < j ==> s[i] !in {':', ' '} && s[j - 1] !in {':', ' '}
    decreases |s|
  {
    if s != [] && s[0] in {':', ' '} {
      i, j := StripTrims(s[1..]);
      i, j := i + 1, j + 1;
    } else if s != [] && s[|s| - 1] in {':', ' '} {
      i, j := StripTrims(s[..|s| - 1]);
    } else {
      i, j := 0, |s|;
    }
  }

  function HandleIdentity(db: Db, d: Delivery): Result<Db, Fault> {
    if d.event.objectId.None? || (d.event.kind.IdentityVerified? && d.event.nullMap) then Failure(MissingField)
    else
      var session := d.event.objectId.value;
      var found := set i | i in db.profiles && BelongsTo(db.profiles[i], session);
      if |found| > 1 then Failure(SeveralRows)
      else Success(db.(profiles := map i | i in db.profiles :: Decide(db.profiles[i], d.event, d.at)))
  }

  function HandlePayment(db: Db, d: Delivery): Result<Db, Fault> {
    if d.event.objectId.None? then Failure(MissingField)
    else
      var intent := d.event.objectId.value;
      var found := set i | i in db.bookings && db.bookings[i].intent == Some(intent) && !db.bookings[i].deleted;
      if found == {} then Success(db)
      else if |found| > 1 then Failure(SeveralRows)
      else
        Success(db.(audit := db.audit + [CapturedEntry(db.bookings, found, intent)]))
  }

  function CapturedEntry(bookings: map<Id, Booking>, found: set<Id>, intent: string): AuditEntry
    requires |found| == 1 && found <= bookings.Keys
  {
    var i := TheOne(found);
    PaymentCaptured(i, bookings[i].client, intent, bookings[i].estimatedPrice)
  }

  function TheOne(found: set<Id>): (i: Id)
    requires |found| == 1
    ensures found == {i}
  {
    SingletonsAgree(found);
    var i :| i in found;
    i
  }

  lemma SingletonsAgree(found: set<Id>)
    requires |found| == 1
    ensures forall i, j :: i in found && j in found ==> i == j
    ensures forall i :: i in found ==> found == {i}
  {
    forall i | i in found ensures found == {i} {
      assert |found - {i}| == 0;
    }
  }

  /** The dispatcher; what saved cards do to their table is a parameter. */
  function Dispatch(db: Db, d: Delivery, cards: CardHandler): Result<Db, Fault> {
    match d.event.kind
    case PaymentSucceeded => HandlePayment(db, d)
    case PaymentFailed =>
      if d.event.objectId.None? || d.event.nullMap then Failure(MissingField) else Success(db)
    case IdentityVerified => HandleIdentity(db, d)
    case IdentityRequiresInput => HandleIdentity(db, d)
    case IdentityCanceled => if d.event.objectId.None? then Failure(MissingField) else Success(db)
    case CardSaved => HandleCard(db, d, cards)
    case CardDetached => HandleCard(db, d, cards)
    case Other(_) => Success(db)
  }

  function HandleCard(db: Db, d: Delivery, cards: CardHandler): Result<Db, Fault> {
    match cards(db.cards, d.event)
    case Success(after) => Success(db.(cards := after))
    case Failure(fault) => Failure(fault)
  }

  // ---- What each event writes ---------------------------------------------------- //

  /** Booking i is the one live booking paid through the intent. */
  ghost predicate OnlyBookingOf(db: Db, intent: string, i: Id) {
    && i in db.bookings && db.bookings[i].intent == Some(intent) && !db.bookings[i].deleted
    && forall j :: j in db.bookings && db.bookings[j].intent == Some(intent) && !db.bookings[j].deleted ==> j == i
  }

  /** A payment is audited once, with the booking's own client and estimate, and changes nothing else. */
  lemma PaymentIsAudited(db: Db, d: Delivery, cards: CardHandler, i: Id)
    requires d.event.kind.PaymentSucceeded? && d.event.objectId.Some? && OnlyBookingOf(db, d.event.objectId.value, i)
    ensures Dispatch(db, d, cards)
            == Success(db.(audit := db.audit + [PaymentCaptured(i, db.bookings[i].client, d.event.objectId.value,
                                                                db.bookings[i].estimatedPrice)]))
  {
    var intent := d.event.objectId.value;
    var found := set j | j in db.bookings && db.bookings[j].intent == Some(intent) && !db.bookings[j].deleted;
    assert found == {i};
    assert CapturedEntry(db.bookings, found, intent)
        == PaymentCaptured(i, db.bookings[i].client, intent, db.bookings[i].estimatedPrice);
    assert HandlePayment(db, d) == Success(db.(audit := db.audit + [CapturedEntry(db.bookings, found, intent)]));
  }

  /** A payment of no booking is ignored, one of several fails, and one without an intent too. */
  lemma OddPayments(db: Db, d: Delivery, cards: CardHandler)
    requires d.event.kind.PaymentSucceeded?
    ensures d.event.objectId.None? ==> Dispatch(db, d, cards) == Failure(MissingField)
    ensures d.event.objectId.Some? ==>
              var intent := d.event.objectId.value;
              && ((forall j :: j in db.bookings && db.bookings[j].intent == Some(intent) ==> db.bookings[j].deleted) ==>
                    Dispatch(db, d, cards) == Success(db))
              && (forall i, j :: (i in db.bookings && j in db.bookings && i != j
                                  && db.bookings[i].intent == db.bookings[j].intent == Some(intent)
                                  && !db.bookings[i].deleted && !db.bookings[j].deleted) ==>
                    Dispatch(db, d, cards) == Failure(SeveralRows))
  {
    if d.event.objectId.Some? {
      var intent := d.event.objectId.value;
      var found := set j | j in db.bookings && db.bookings[j].intent == Some(intent) && !db.bookings[j].deleted;
      forall i, j | (i in db.bookings && j in db.bookings && i != j
                     && db.bookings[i].intent == db.bookings[j].intent == Some(intent)
                     && !db.bookings[i].deleted && !db.bookings[j].deleted)
        ensures Dispatch(db, d, cards) == Failure(SeveralRows)
      {
        TwoOrMore(found, i, j);
      }
      if forall j :: j in db.bookings && db.bookings[j].intent == Some(intent) ==> db.bookings[j].deleted {
        assert found == {};
      }
    }
  }

  lemma TwoOrMore(found: set<Id>, i: Id, j: Id)
    requires i in found && j in found && i != j
    ensures |found| > 1
  {
    SubsetSize({i, j}, found);
  }

  /** What a person reads about a rejection, before the ends are trimmed. */
  function ReasonText(error: Option<IdentityError>): string {
    match error
    case None => "unknown: "
    case Some(IdentityError(None, None)) => "unknown: "
    case Some(IdentityError(Some(code), None)) => code + ": "
    case Some(IdentityError(None, Some(reason))) => "unknown: " + reason
    case Some(IdentityError(Some(code), Some(reason))) => code + ": " + reason
  }

  /** An identity event decides about the profile of its session, field by field, and about no other. */
  lemma IdentityWrites(db: Db, d: Delivery, cards: CardHandler, id: Id)
    requires SessionsDistinct(db) && id in db.profiles && d.event.objectId.Some?
    requires d.event.kind.IdentityRequiresInput? || (d.event.kind.IdentityVerified? && !d.event.nullMap)
    ensures var r, p := Dispatch(db, d, cards), db.profiles[id];
            && r.Success? && r.value == db.(profiles := r.value.profiles) && r.value.profiles.Keys == db.profiles.Keys
            && r.value.profiles[id]
               == if p.session != d.event.objectId then p
                  else if d.event.kind.IdentityVerified?
                  then Profile(p.session, Approved, Some(d.at), p.rejectionReason, true)
                  else Profile(p.session, Rejected, Some(d.at), Some(Strip(ReasonText(d.event.error))), false)
  {
    AtMostOneProfile(db, d.event.objectId.value);
    ReasonIsTheText(d.event.error);
  }

  lemma ReasonIsTheText(error: Option<IdentityError>)
    ensures RejectionReason(error) == Strip(ReasonText(error))
  {
    var code := if error.Some? && error.value.code.Some? then error.value.code.value else "unknown";
    var reason := if error.Some? && error.value.reason.Some? then error.value.reason.value else "";
    assert "unknown" + ": " == "unknown: ";
    assert reason == "" ==> code + ": " + reason == code + ": ";
    assert code + ": " + reason == ReasonText(error);
  }

  /** No other kind of event writes bookings, profiles or the audit; only saved cards change at all. */
  lemma OtherEventsWriteNothing(db: Db, d: Delivery, cards: CardHandler)
    requires !d.event.kind.PaymentSucceeded? && !d.event.kind.IdentityVerified? && !d.event.kind.IdentityRequiresInput?
    ensures var r := Dispatch(db, d, cards);
            r.Success? ==> r.value == db.(cards := r.value.cards)
    ensures !d.event.kind.CardSaved? && !d.event.kind.CardDetached? ==>
              var r := Dispatch(db, d, cards);
              r == Success(db) || r == Failure(MissingField)
    ensures d.event.kind.CardSaved? || d.event.kind.CardDetached? ==>
              match cards(db.cards, d.event)
              case Success(after) => Dispatch(db, d, cards) == Success(db.(cards := after))
              case Failure(fault) => Dispatch(db, d, cards) == Failure(fault)
  {
  }

  // ---- The endpoint -------------------------------------------------------------- //

  datatype State = State(db: Db, processed: map<string, Time>)

  /** An event without an id is filed under a fixed key. */
  function Key(d: Delivery): string {
    if d.event.id.Some? then d.event.id.value else "unknown"
  }

  /** The columns of processed_webhooks hold 64 and 80 characters. */
  predicate Fits(d: Delivery) {
    |Key(d)| <= 64 && (d.event.kind.Other? ==> |d.event.kind.name| <= 80)
  }

  /** One delivery, one transaction: a fault undoes the insert along with everything else. */
  function Receive(handle: Handler, s: State, d: Delivery): State {
    if !Fits(d) || Key(d) in s.processed then s
    else
      match handle(s.db, d)
      case Success(db) => State(db, s.processed[Key(d) := d.at])
      case Failure(_) => s
  }

  function Consume(handle: Handler, s: State, ds: seq<Delivery>): State
    decreases |ds|
  {
    if ds == [] then s else Receive(handle, Consume(handle, s, ds[..|ds| - 1]), ds[|ds| - 1])
  }

  /** Whether the delivery takes effect. */
  predicate TakesEffect(handle: Handler, s: State, d: Delivery) {
    Fits(d) && Key(d) !in s.processed && handle(s.db, d).Success?
  }

  // ---- Exactly once ------------------------------------------------------------------ //

  /** How many deliveries of one event took effect. */
  function Effects(handle: Handler, s: State, ds: seq<Delivery>, key: string): nat
    decreases |ds|
  {
    if ds == [] then 0
    else
      var front, d := ds[..|ds| - 1], ds[|ds| - 1];
      Effects(handle, s, front, key)
      + if Key(d) == key && TakesEffect(handle, Consume(handle, s, front), d) then 1 else 0
  }

  /** For any stream and any handler, faults included, an event takes effect once if it is on file, else never. */
  lemma {:induction false} OneEffectPerEvent(handle: Handler, db: Db, ds: seq<Delivery>, key: string)
    ensures Effects(handle, State(db, map[]), ds, key)
            == if key in Consume(handle, State(db, map[]), ds).processed then 1 else 0
    decreases |ds|
  {
    if ds != [] {
      OneEffectPerEvent(handle, db, ds[..|ds| - 1], key);
    }
  }

  /** The handler alone, with no deduplication; a fault changes nothing. */
  function Replay(handle: Handler, db: Db, ds: seq<Delivery>): Db
    decreases |ds|
  {
    if ds == [] then db
    else
      var before := Replay(handle, db, ds[..|ds| - 1]);
      match handle(before, ds[|ds| - 1])
      case Success(after) => after
      case Failure(_) => before
  }

  /** The stream without its repeats: the first delivery of each event, in order. */
  function FirstOnly(ds: seq<Delivery>): seq<Delivery>
    decreases |ds|
  {
    if ds == [] then []
    else
      var front, d := ds[..|ds| - 1], ds[|ds| - 1];
      if IsFirst(ds, |ds| - 1) then FirstOnly(front) + [d] else FirstOnly(front)
  }

  predicate IsFirst(ds: seq<Delivery>, i: nat)
    requires i < |ds|
  {
    forall j :: 0 <= j < i ==> Key(ds[j]) != Key(ds[i])
  }

  /** When its turn comes, every first delivery is stored and handled without a fault. */
  ghost predicate FirstsSucceed(handle: Handler, s: State, ds: seq<Delivery>) {
    forall i {:trigger IsFirst(ds, i)} :: 0 <= i < |ds| && IsFirst(ds, i) ==> Served(handle, s, ds[..i], ds[i])
  }

  predicate Served(handle: Handler, s: State, before: seq<Delivery>, d: Delivery) {
    Fits(d) && handle(Consume(handle, s, before).db, d).Success?
  }

  function KeysOf(ds: seq<Delivery>): set<string>
    decreases |ds|
  {
    if ds == [] then {} else KeysOf(ds[..|ds| - 1]) + {Key(ds[|ds| - 1])}
  }

  lemma {:induction false} KeysAreTheDelivered(ds: seq<Delivery>, key: string)
    ensures key in KeysOf(ds) <==> exists i :: 0 <= i < |ds| && Key(ds[i]) == key
    decreases |ds|
  {
    if ds != [] {
      KeysAreTheDelivered(ds[..|ds| - 1], key);
      assert forall i :: 0 <= i < |ds| - 1 ==> ds[i] == ds[..|ds| - 1][i];
    }
  }

  lemma FrontSucceeds(handle: Handler, s: State, ds: seq<Delivery>)
    requires ds != [] && FirstsSucceed(handle, s, ds)
    ensures FirstsSucceed(handle, s, ds[..|ds| - 1])
  {
    var front := ds[..|ds| - 1];
    forall i | 0 <= i < |front| && IsFirst(front, i) ensures Served(handle, s, front[..i], front[i]) {
      assert forall j :: 0 <= j < i ==> front[j] == ds[j];
      assert IsFirst(ds, i);
      assert front[..i] == ds[..i];
    }
  }

  lemma NewIffFirst(front: seq<Delivery>, d: Delivery)
    ensures Key(d) !in KeysOf(front) <==> IsFirst(front + [d], |front|)
  {
    KeysAreTheDelivered(front, Key(d));
    assert forall j :: 0 <= j < |front| ==> (front + [d])[j] == front[j];
  }

  /**
   However often and in whatever order events are repeated, the database ends
   up as if each event had been delivered once: its first delivery, in order,
   with no deduplication at all.
  */
  lemma {:induction false} ExactlyOnce(handle: Handler, db: Db, ds: seq<Delivery>)
    requires FirstsSucceed(handle, State(db, map[]), ds)
    ensures Consume(handle, State(db, map[]), ds).processed.Keys == KeysOf(ds)
    ensures Consume(handle, State(db, map[]), ds).db == Replay(handle, db, FirstOnly(ds))
    decreases |ds|
  {
    if ds != [] {
      var s := State(db, map[]);
      var n := |ds| - 1;
      FrontSucceeds(handle, s, ds);
      ExactlyOnce(handle, db, ds[..n]);
      assert IsFirst(ds, n) ==> Served(handle, s, ds[..n], ds[n]);
      assert ds == ds[..n] + [ds[n]];
      OneMoreDelivery(handle, db, Consume(handle, s, ds[..n]), ds[..n], ds[n]);
    }
  }

  lemma OneMoreDelivery(handle: Handler, db: Db, s: State, front: seq<Delivery>, d: Delivery)
    requires s.processed.Keys == KeysOf(front) && s.db == Replay(handle, db, FirstOnly(front))
    requires IsFirst(front + [d], |front|) ==> Fits(d) && handle(s.db, d).Success?
    ensures Receive(handle, s, d).processed.Keys == KeysOf(front + [d])
    ensures Receive(handle, s, d).db == Replay(handle, db, FirstOnly(front + [d]))
  {
    var ds := front + [d];
    assert ds[..|ds| - 1] == front;
    NewIffFirst(front, d);
    ReplayOneMore(handle, db, FirstOnly(front), d);
  }

  lemma ReplayOneMore(handle: Handler, db: Db, ds: seq<Delivery>, d: Delivery)
    ensures var before := Replay(handle, db, ds);
            Replay(handle, db, ds + [d]) == if handle(before, d).Success? then handle(before, d).value else before
  {
    assert (ds + [d])[..|ds|] == ds;
  }

  lemma {:induction false} ConsumeSplits(handle: Handler, s: State, xs: seq<Delivery>, ys: seq<Delivery>)
    ensures Consume(handle, s, xs + ys) == Consume(handle, Consume(handle, s, xs), ys)
    decreases |ys|
  {
    if ys == [] {
      assert xs + ys == xs;
    } else {
      assert (xs + ys)[..|xs + ys| - 1] == xs + ys[..|ys| - 1];
      ConsumeSplits(handle, s, xs, ys[..|ys| - 1]);
    }
  }

  /**
   A delivery that failed leaves no trace, so the sender's retry counts as the
   first; one that succeeded makes every later repeat a no-op, wherever it falls.
  */
  lemma RepeatsAndFailuresVanish(handle: Handler, s: State, xs: seq<Delivery>, d: Delivery, ys: seq<Delivery>)
    requires !TakesEffect(handle, Consume(handle, s, xs), d)
    ensures Consume(handle, s, xs + [d] + ys) == Consume(handle, s, xs + ys)
  {
    assert (xs + [d])[..|xs + [d]| - 1] == xs;
    ConsumeSplits(handle, s, xs + [d], ys);
    ConsumeSplits(handle, s, xs, ys);
  }

  /** Two different events that both lack an id are taken for one: the second is acknowledged and ignored. */
  lemma EventsWithoutIdCollide(handle: Handler, s: State, first: Delivery, second: Delivery)
    requires first.event.id.None? && second.event.id.None?
    requires TakesEffect(handle, s, first)
    ensures Receive(handle, Receive(handle, s, first), second) == Receive(handle, s, first)
  {
    assert Key(first) == Key(second);
  }

  // ---- What identity events amount to ---------------------------------------------------- //

  /** No two profiles share a verification session. */
  predicate SessionsDistinct(db: Db) {
    forall i, j :: (i in db.profiles && j in db.profiles && db.profiles[i].session.Some?
                    && db.profiles[i].session == db.profiles[j].session) ==> i == j
  }

  /** One profile's own course through a list of deliveries. */
  function Course(p: Profile, ds: seq<Delivery>): Profile
    decreases |ds|
  {
    if ds == [] then p
    else
      var front, d := Course(p, ds[..|ds| - 1]), ds[|ds| - 1];
      if d.event.kind.IdentityVerified? && d.event.nullMap then front else Decide(front, d.event, d.at)
  }

  lemma AtMostOneProfile(db: Db, session: string)
    requires SessionsDistinct(db)
    ensures |set i | i in db.profiles && BelongsTo(db.profiles[i], session)| <= 1
  {
    var found := set i | i in db.profiles && BelongsTo(db.profiles[i], session);
    if found != {} {
      var i :| i in found;
      assert found == {i};
    }
  }

  /** Handling keeps the set of profiles and their sessions, and each profile only follows its own events. */
  lemma {:induction false} ProfilesFollowTheirSessions(db: Db, ds: seq<Delivery>, cards: CardHandler, id: Id)
    requires SessionsDistinct(db) && id in db.profiles
    ensures var end := Replay((b, d) => Dispatch(b, d, cards), db, ds);
            && SessionsDistinct(end) && end.profiles.Keys == db.profiles.Keys
            && end.profiles[id] == Course(db.profiles[id], ds)
    decreases |ds|
  {
    if ds != [] {
      var front, d := ds[..|ds| - 1], ds[|ds| - 1];
      var handle := (b, d) => Dispatch(b, d, cards);
      ProfilesFollowTheirSessions(db, front, cards, id);
      var before := Replay(handle, db, front);
      DispatchOnProfiles(before, d, cards, id);
    }
  }

  lemma DispatchOnProfiles(db: Db, d: Delivery, cards: CardHandler, id: Id)
    requires SessionsDistinct(db) && id in db.profiles
    ensures var r := Dispatch(db, d, cards);
            var end := if r.Success? then r.value else db;
            && SessionsDistinct(end) && end.profiles.Keys == db.profiles.Keys
            && end.profiles[id] == Course(db.profiles[id], [d])
  {
    CourseOfOne(db.profiles[id], d);
    if d.event.kind.IdentityVerified? || d.event.kind.IdentityRequiresInput? {
      IdentityOnProfiles(db, d, id);
    }
  }

  lemma CourseOfOne(p: Profile, d: Delivery)
    ensures Course(p, [d])
            == if d.event.kind.IdentityVerified? && d.event.nullMap then p else Decide(p, d.event, d.at)
  {
    assert [d][..|[d]| - 1] == [];
  }

  lemma IdentityOnProfiles(db: Db, d: Delivery, id: Id)
    requires SessionsDistinct(db) && id in db.profiles
    requires d.event.kind.IdentityVerified? || d.event.kind.IdentityRequiresInput?
    ensures var r := HandleIdentity(db, d);
            var end := if r.Success? then r.value else db;
            && SessionsDistinct(end) && end.profiles.Keys == db.profiles.Keys
            && end.profiles[id]
               == if d.event.kind.IdentityVerified? && d.event.nullMap then db.profiles[id]
                  else Decide(db.profiles[id], d.event, d.at)
  {
    if d.event.objectId.Some? {
      AtMostOneProfile(db, d.event.objectId.value);
    }
  }

  /** What the last readable identity event for a session said. */
  function LastVerdict(session: Option<string>, ds: seq<Delivery>): Option<Verification>
    decreases |ds|
  {
    if ds == [] || session.None? then None
    else
      var e := ds[|ds| - 1].event;
      if e.objectId == session && e.kind.IdentityVerified? && !e.nullMap then Some(Approved)
      else if e.objectId == session && e.kind.IdentityRequiresInput? then Some(Rejected)
      else LastVerdict(session, ds[..|ds| - 1])
  }

  lemma {:induction false} CourseIsTheLastVerdict(p: Profile, ds: seq<Delivery>)
    ensures var v, end := LastVerdict(p.session, ds), Course(p, ds);
            && end.session == p.session
            && end.verification == (if v.Some? then v.value else p.verification)
            && end.acceptingBookings == (if v.Some? then v.value.Approved? else p.acceptingBookings)
    decreases |ds|
  {
    if ds != [] {
      CourseIsTheLastVerdict(p, ds[..|ds| - 1]);
    }
  }

  /**
   Through any stream with repeats, a profile is approved and open for
   bookings, or rejected and closed, as the last event to be delivered for the
   first time said; a late repeat of an older event cannot turn it back.
  */
  lemma VerdictStands(db: Db, ds: seq<Delivery>, cards: CardHandler, id: Id)
    requires SessionsDistinct(db) && id in db.profiles
    requires FirstsSucceed((b, d) => Dispatch(b, d, cards), State(db, map[]), ds)
    ensures var end := Consume((b, d) => Dispatch(b, d, cards), State(db, map[]), ds).db;
            var v := LastVerdict(db.profiles[id].session, FirstOnly(ds));
            && id in end.profiles
            && end.profiles[id].verification == (if v.Some? then v.value else db.profiles[id].verification)
            && (v.Some? ==> end.profiles[id].acceptingBookings == v.value.Approved?)
  {
    ExactlyOnce((b, d) => Dispatch(b, d, cards), db, ds);
    ProfilesFollowTheirSessions(db, FirstOnly(ds), cards, id);
    CourseIsTheLastVerdict(db.profiles[id], FirstOnly(ds));
  }

  // ---- The endpoint as it runs --------------------------------------------------------------- //

  datatype Response = Received | Rejected400 | Raised(fault: Fault)

  class Endpoint {
    var db: Db
    var processed: map<string, Time>

    constructor (db: Db)
      ensures this.db == db && processed == map[]
    {
      this.db, processed := db, map[];
    }

    ghost function Model(): State
      reads this
    {
      State(db, processed)
    }

    /** stripe_webhook; None is a body or signature that does not check out. */
    method StripeWebhook(body: Option<Event>, at: Time, cards: CardHandler) returns (r: Response)
      modifies this
      ensures body.None? ==> r == Rejected400 && Model() == old(Model())
      ensures body.Some? ==>
                Model() == Receive((b, d) => Dispatch(b, d, cards), old(Model()), Delivery(body.value, at))
      ensures body.Some? ==>
                var d := Delivery(body.value, at);
                && (r == Received <==>
                      Fits(d) && (Key(d) in old(processed) || Dispatch(old(db), d, cards).Success?))
                && r != Rejected400
      ensures body.Some? ==>
                var key := if body.value.id.Some? then body.value.id.value else "unknown";
                && (|key| > 64 || (body.value.kind.Other? && |body.value.kind.name| > 80) ==> r == Raised(TooLong))
                && (|key| <= 64 && (body.value.kind.Other? ==> |body.value.kind.name| <= 80)
                    && key in old(processed) ==>
                      r == Received && Model() == old(Model()))
                && (r == Received && key !in old(processed) ==>
                      && processed == old(processed)[key := at]
                      && Dispatch(old(db), Delivery(body.value, at), cards) == Success(db))
                && (r.Raised? ==> Model() == old(Model()))
    {
      if body.None? {
        return Rejected400;
      }
      var d := Delivery(body.value, at);
      if !Fits(d) {
        return Raised(TooLong);
      }
      if Key(d) in processed {
        return Received;
      }
      var savepoint := processed;
      processed := processed[Key(d) := at];
      var r' := Dispatch(db, d, cards);
      if r'.Failure? {
        processed := savepoint;
        return Raised(r'.error);
      }
      db := r'.value;
      return Received;
    }
  }
}
