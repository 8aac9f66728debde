/**
 The ride-offer protocol: a worker offers one ride to up to three candidates in
 turn, racing a timer against the handlers that accept or decline.  A handler
 reads its guards first and writes unconditionally later, so other steps may
 fall in between.
*/
module Offers {
  import opened Support

  const MAX_CANDIDATES: nat := 3

  datatype RideStatus = Searching | Confirmed | NoDetailerFound

  datatype OfferStatus = Offered | Accepted | Declined | TimedOut

  datatype Response = SaysAccepted | SaysDeclined

  /** Where the worker stands with candidate i; signal is the response event it waits on. */
  datatype Worker = Trying(i: nat) | Inserted(i: nat) | Waiting(i: nat, signal: Option<Response>) | Done

  /** What a handler has read and not yet acted on. */
  datatype Reader = SawSearching(d: Id) | MayAccept(d: Id) | MayDecline(d: Id)

  /** How far an accept handler got after its commit. */
  datatype Progress = Committed(d: Id) | Signalled(d: Id) | Paid(d: Id)

  datatype Entry = Authorization(cents: nat) | Capture(cents: nat)

  /** Handlers are requests: reading before their commit, accepted and declining after it. */
  datatype State = State(
    candidates: seq<Id>,
    price: nat,
    status: RideStatus,
    detailer: Option<Id>,
    assignments: map<Id, OfferStatus>,
    worker: Worker,
    reading: map<Id, Reader>,
    accepted: map<Id, Progress>,
    declining: map<Id, Id>,
    ledger: seq<Entry>)

  /** A requested ride: searching, with the price authorised and the best candidates queued. */
  function Requested(ranked: seq<Id>, price: nat): State {
    var candidates := if |ranked| <= MAX_CANDIDATES then ranked else ranked[..MAX_CANDIDATES];
    State(candidates, price, Searching, None, map[], Trying(0), map[], map[], map[], [Authorization(price)])
  }

  datatype Action =
    | Skip
    | InsertOffer
    | Register
    | Wake
    | Expire
    | GiveUp
    | ReadRide(h: Id, d: Id)
    | ReadOffer(h: Id)
    | CommitAccept(h: Id)
    | SignalAccept(h: Id)
    | CapturePayment(h: Id)
    | ReadOfferToDecline(h: Id, d: Id)
    | CommitDecline(h: Id)
    | SignalDecline(h: Id)

  predicate HasOffer(s: State, d: Id) {
    d in s.assignments && s.assignments[d].Offered?
  }

  predicate HasAccepted(s: State, d: Id) {
    d in s.assignments && s.assignments[d].Accepted?
  }

  predicate NewHandler(s: State, h: Id) {
    h !in s.reading && h !in s.accepted && h !in s.declining
  }

  /** Setting a response event that nobody registered is lost. */
  function Notify(s: State, d: Id, r: Response): State {
    if s.worker.Waiting? && s.worker.i < |s.candidates| && s.candidates[s.worker.i] == d
    then s.(worker := Waiting(s.worker.i, Some(r)))
    else s
  }

  /** The worker's unconditional UPDATE of the current assignment, then the next candidate. */
  function Conclude(s: State, i: nat, outcome: OfferStatus): State
    requires i < |s.candidates|
  {
    s.(assignments := s.assignments[s.candidates[i] := outcome], worker := Trying(i + 1))
  }

  function Step(s: State, a: Action): State {
    match a
    case Skip =>
      if s.worker.Trying? && s.worker.i < |s.candidates| then s.(worker := Trying(s.worker.i + 1)) else s
    case InsertOffer =>
      if s.worker.Trying? && s.worker.i < |s.candidates| && s.candidates[s.worker.i] !in s.assignments
      then s.(assignments := s.assignments[s.candidates[s.worker.i] := Offered], worker := Inserted(s.worker.i))
      else s
    case Register =>
      if s.worker.Inserted? then s.(worker := Waiting(s.worker.i, None)) else s
    case Wake =>
      if !s.worker.Waiting? || s.worker.signal.None? || s.worker.i >= |s.candidates| then s
      else if s.worker.signal.value.SaysAccepted? then s.(worker := Done)
      else Conclude(s, s.worker.i, Declined)
    case Expire =>
      if !s.worker.Waiting? || s.worker.signal.Some? || s.worker.i >= |s.candidates| then s
      else Conclude(s, s.worker.i, TimedOut)
    case GiveUp =>
      if s.worker.Trying? && s.worker.i >= |s.candidates|
      then s.(status := NoDetailerFound, worker := Done)
      else s
    case ReadRide(h, d) =>
      if NewHandler(s, h) && s.status.Searching? then s.(reading := s.reading[h := SawSearching(d)]) else s
    case ReadOffer(h) =>
      if h !in s.reading || !s.reading[h].SawSearching? then s
      else if HasOffer(s, s.reading[h].d) then s.(reading := s.reading[h := MayAccept(s.reading[h].d)])
      else s.(reading := s.reading - {h})
    case CommitAccept(h) =>
      if h !in s.reading || !s.reading[h].MayAccept? then s
      else
        var d := s.reading[h].d;
        s.(assignments := s.assignments[d := Accepted], status := Confirmed, detailer := Some(d),
           reading := s.reading - {h}, accepted := s.accepted[h := Committed(d)])
    case SignalAccept(h) =>
      if h in s.accepted && s.accepted[h].Committed?
      then Notify(s, s.accepted[h].d, SaysAccepted).(accepted := s.accepted[h := Signalled(s.accepted[h].d)])
      else s
    case CapturePayment(h) =>
      if h in s.accepted && s.accepted[h].Signalled?
      then s.(ledger := s.ledger + [Capture(s.price)], accepted := s.accepted[h := Paid(s.accepted[h].d)])
      else s
    case ReadOfferToDecline(h, d) =>
      if NewHandler(s, h) && HasOffer(s, d) then s.(reading := s.reading[h := MayDecline(d)]) else s
    case CommitDecline(h) =>
      if h !in s.reading || !s.reading[h].MayDecline? then s
      else
        var d := s.reading[h].d;
        s.(assignments := s.assignments[d := Declined], reading := s.reading - {h}, declining := s.declining[h := d])
    case SignalDecline(h) =>
      if h in s.declining
      then Notify(s, s.declining[h], SaysDeclined).(declining := s.declining - {h})
      else s
  }

  function Run(s: State, actions: seq<Action>): State
    decreases |actions|
  {
    if actions == [] then s else Run(Step(s, actions[0]), actions[1..])
  }

  /** What a handler has to see before it may write: a searching ride and the open offer, each when it reads. */
  lemma HandlersReadTheirGuards(s: State, a: Action, h: Id)
    requires h in Step(s, a).reading && !(h in s.reading && Step(s, a).reading[h] == s.reading[h])
    ensures match Step(s, a).reading[h]
            case SawSearching(d) => a == ReadRide(h, d) && s.status == Searching && NewHandler(s, h)
            case MayAccept(d) =>
              a == ReadOffer(h) && h in s.reading && s.reading[h] == SawSearching(d)
              && d in s.assignments && s.assignments[d] == Offered
            case MayDecline(d) =>
              a == ReadOfferToDecline(h, d) && NewHandler(s, h) && d in s.assignments && s.assignments[d] == Offered
  {
  }

  /** And what it writes then: an accept takes the ride for its detailer, a decline closes the offer. */
  lemma HandlersWrite(s: State, h: Id)
    requires h in s.reading
    ensures s.reading[h].MayAccept? ==>
              var (d, s') := (s.reading[h].d, Step(s, CommitAccept(h)));
              && s'.status == Confirmed && s'.detailer == Some(d) && s'.assignments == s.assignments[d := Accepted]
              && h in s'.accepted && h !in s'.reading && s'.ledger == s.ledger && s'.worker == s.worker
    ensures s.reading[h].MayDecline? ==>
              var (d, s') := (s.reading[h].d, Step(s, CommitDecline(h)));
              && s'.assignments == s.assignments[d := Declined] && s'.status == s.status
              && s'.detailer == s.detailer && h !in s'.reading && s'.ledger == s.ledger && s'.worker == s.worker
  {
  }

  // ---- The protocol ------------------------------------------------------- //

  /** What the ride looks like from outside. */
  ghost predicate Protocol(s: State) {
    && (forall d, e ::
          (d in s.assignments && e in s.assignments && s.assignments[d].Offered? && s.assignments[e].Offered?)
          ==> d == e)
    && (forall d :: d in s.assignments && s.assignments[d].Offered? ==> s.status.Searching?)
    && (s.status.Confirmed? <==> s.detailer.Some? && HasAccepted(s, s.detailer.value))
    && (forall d :: d in s.assignments && s.assignments[d].Accepted? ==> s.detailer == Some(d))
    && (s.status.NoDetailerFound? ==> forall d :: d in s.assignments ==> !s.assignments[d].Accepted?)
    && s.ledger == (if IsPaid(s) then [Authorization(s.price), Capture(s.price)] else [Authorization(s.price)])
    && (s.worker.Done? ==> !s.status.Searching?)
  }

  predicate IsPaid(s: State) {
    exists h :: h in s.accepted && s.accepted[h].Paid?
  }

  predicate Current(s: State, d: Id) {
    (s.worker.Inserted? || s.worker.Waiting?) && s.worker.i < |s.candidates| && s.candidates[s.worker.i] == d
  }

  /** How many candidates the worker has moved to so far. */
  function Reached(s: State): nat {
    match s.worker
    case Trying(i) => i
    case Inserted(i) => i + 1
    case Waiting(i, _) => i + 1
    case Done => |s.candidates|
  }

  /** Where the worker stands among the assignments. */
  ghost predicate WorkerOk(s: State) {
    && NoDuplicates(s.candidates) && |s.candidates| <= MAX_CANDIDATES
    && Reached(s) <= |s.candidates|
    && (forall d :: d in s.assignments ==> d in s.candidates)
    && (forall k :: Reached(s) <= k < |s.candidates| ==> s.candidates[k] !in s.assignments)
    && (s.worker.Inserted? || s.worker.Waiting? ==> s.candidates[s.worker.i] in s.assignments)
    && (forall d :: d in s.assignments && s.assignments[d].Offered? ==> Current(s, d))
    && (forall d :: d in s.assignments && s.assignments[d].Accepted? ==> Current(s, d) || s.worker.Done?)
    && (s.worker.Waiting? && s.worker.signal.Some? ==>
          s.assignments[s.candidates[s.worker.i]] ==
          (if s.worker.signal.value.SaysAccepted? then Accepted else Declined))
    && (s.status.NoDetailerFound? ==> s.worker.Done?)
  }

  /** What the handlers hold: one accept at most has committed, and a committed decline is still on record. */
  ghost predicate HandlersOk(s: State) {
    && (forall h :: h in s.reading && !s.reading[h].SawSearching? ==> s.reading[h].d in s.assignments)
    && (forall h :: h in s.reading ==> h !in s.accepted)
    && (forall h, k :: h in s.accepted && k in s.accepted ==> h == k)
    && (forall h :: h in s.accepted ==> s.status.Confirmed? && s.detailer == Some(s.accepted[h].d))
    && (s.status.Confirmed? ==> exists h :: h in s.accepted)
    && (forall h :: h in s.declining ==>
          && s.declining[h] in s.assignments
          && (Current(s, s.declining[h]) ==> s.assignments[s.declining[h]].Declined?))
  }

  ghost predicate Inv(s: State) {
    Protocol(s) && WorkerOk(s) && HandlersOk(s)
  }

  /** A ride announced as found by nobody is not announced otherwise later. */
  predicate AnnouncementStands(s: State, s': State) {
    s.status.NoDetailerFound? ==> s'.status.NoDetailerFound?
  }

  // ---- The writes that do harm ----------------------------------------------- //

  /** The timer's UPDATE lands on an assignment that has been accepted. */
  predicate TimesOutAccept(s: State, a: Action) {
    && a.Expire? && s.worker.Waiting? && s.worker.signal.None? && s.worker.i < |s.candidates|
    && HasAccepted(s, s.candidates[s.worker.i])
  }

  /** A decline that had read an open offer lands on one accepted since. */
  predicate DeclinesAccept(s: State, a: Action) {
    a.CommitDecline? && a.h in s.reading && s.reading[a.h].MayDecline? && HasAccepted(s, s.reading[a.h].d)
  }

  /**
   An accept that had read an open offer comes too late: the ride is no longer
   searching, or the worker has moved on from the candidate or was told, or is
   about to be told, that it declined.
  */
  predicate AcceptsLate(s: State, a: Action) {
    && a.CommitAccept? && a.h in s.reading && s.reading[a.h].MayAccept?
    && var d := s.reading[a.h].d;
       || !s.status.Searching? || !Current(s, d)
       || (s.worker.Waiting? && s.worker.signal.Some?)
       || exists k :: k in s.declining && s.declining[k] == d
  }

  predicate Clobbers(s: State, a: Action) {
    TimesOutAccept(s, a) || DeclinesAccept(s, a) || AcceptsLate(s, a)
  }

  /** The row a write lands on is still what its writer has read: an open offer of a searching ride. */
  predicate WritesWhatItRead(s: State, a: Action) {
    && (a.Expire? && s.worker.Waiting? && s.worker.signal.None? && s.worker.i < |s.candidates| ==>
          HasOffer(s, s.candidates[s.worker.i]))
    && (a.CommitDecline? && a.h in s.reading && s.reading[a.h].MayDecline? ==> HasOffer(s, s.reading[a.h].d))
    && (a.CommitAccept? && a.h in s.reading && s.reading[a.h].MayAccept? ==>
          s.status.Searching? && HasOffer(s, s.reading[a.h].d))
  }

  /** A write that lands on what its writer read never does harm. */
  lemma FreshWritesAreHarmless(s: State, a: Action)
    requires Inv(s) && WritesWhatItRead(s, a)
    ensures !Clobbers(s, a)
  {
    if a.CommitAccept? && a.h in s.reading && s.reading[a.h].MayAccept? {
      var d := s.reading[a.h].d;
      assert Current(s, d) && !s.assignments[d].Declined? && !s.assignments[d].Accepted?;
    }
  }

  function Elements(xs: seq<Id>): set<Id> {
    set d | d in xs
  }

  lemma {:induction false} ElementsBound(xs: seq<Id>)
    ensures |Elements(xs)| <= |xs|
  {
    if xs != [] {
      ElementsBound(xs[1..]);
      assert xs == [xs[0]] + xs[1..];
      assert Elements(xs) == {xs[0]} + Elements(xs[1..]);
    }
  }

  /** A ride is offered to at most three detailers. */
  lemma OffersBounded(s: State)
    requires WorkerOk(s)
    ensures |s.assignments| <= MAX_CANDIDATES
  {
    ElementsBound(s.candidates);
    SubsetSize(s.assignments.Keys, Elements(s.candidates));
  }

  /** While the worker is between candidates nobody has been found, and nobody is being asked. */
  lemma TryingMeansSearching(s: State)
    requires Inv(s) && s.worker.Trying?
    ensures s.status.Searching? && s.accepted == map[]
    ensures forall d :: d in s.assignments ==> !s.assignments[d].Offered? && !s.assignments[d].Accepted?
  {
    assert forall d :: !Current(s, d);
    assert s.detailer.Some? ==> !HasAccepted(s, s.detailer.value);
  }

  lemma InsertKeepsInv(s: State)
    requires Inv(s)
    ensures Inv(Step(s, InsertOffer))
  {
    if s.worker.Trying? {
      TryingMeansSearching(s);
    }
  }

  lemma ConcludeKeepsInv(s: State, outcome: OfferStatus)
    requires Inv(s) && s.worker.Waiting? && (outcome.Declined? || outcome.TimedOut?)
    requires !HasAccepted(s, s.candidates[s.worker.i])
    ensures Inv(Conclude(s, s.worker.i, outcome))
  {
  }

  lemma SkipKeepsInv(s: State)
    requires Inv(s)
    ensures Inv(Step(s, Skip))
  {
  }

  lemma RegisterKeepsInv(s: State)
    requires Inv(s)
    ensures Inv(Step(s, Register))
  {
    var s' := Step(s, Register);
    assert forall d :: Current(s', d) == Current(s, d);
  }

  lemma GiveUpKeepsInv(s: State)
    requires Inv(s)
    ensures Inv(Step(s, GiveUp))
  {
    if s.worker.Trying? {
      TryingMeansSearching(s);
    }
  }

  lemma WakeKeepsInv(s: State)
    requires Inv(s)
    ensures Inv(Step(s, Wake))
  {
    if s.worker.Waiting? && s.worker.signal == Some(SaysDeclined) {
      ConcludeKeepsInv(s, Declined);
    } else if s.worker.Waiting? && s.worker.signal == Some(SaysAccepted) {
      DoneKeepsInv(s);
    }
  }

  lemma DoneKeepsInv(s: State)
    requires Inv(s) && s.worker.Waiting? && s.worker.signal == Some(SaysAccepted)
    ensures Inv(s.(worker := Done))
  {
    var d := s.candidates[s.worker.i];
    assert HasAccepted(s, d) && s.detailer == Some(d);
    assert IsPaid(s.(worker := Done)) == IsPaid(s);
  }

  lemma ExpireKeepsInv(s: State)
    requires Inv(s) && !TimesOutAccept(s, Expire)
    ensures Inv(Step(s, Expire))
  {
    if s.worker.Waiting? && s.worker.signal.None? {
      ConcludeKeepsInv(s, TimedOut);
    }
  }

  lemma ReadingKeepsInv(s: State, reading: map<Id, Reader>)
    requires Inv(s)
    requires forall h :: h in reading ==>
               h !in s.accepted && (reading[h].SawSearching? || reading[h].d in s.assignments)
    ensures Inv(s.(reading := reading))
  {
    var s' := s.(reading := reading);
    assert forall d :: Current(s', d) == Current(s, d);
    assert IsPaid(s') == IsPaid(s) && WorkerOk(s') && Protocol(s');
  }

  lemma ReadsKeepInv(s: State, a: Action)
    requires Inv(s) && (a.ReadRide? || a.ReadOffer? || a.ReadOfferToDecline?)
    ensures Inv(Step(s, a))
  {
    var reading := Step(s, a).reading;
    assert Step(s, a) == s.(reading := reading);
    assert forall h :: h in reading ==>
      reading[h].SawSearching? || reading[h].d in s.assignments;
    assert forall h :: h in reading ==> h !in s.accepted;
    ReadingKeepsInv(s, reading);
  }

  lemma CommitAcceptKeepsInv(s: State, h: Id)
    requires Inv(s) && !AcceptsLate(s, CommitAccept(h))
    ensures Inv(Step(s, CommitAccept(h)))
  {
    var s' := Step(s, CommitAccept(h));
    if s' != s {
      var d := s.reading[h].d;
      assert Current(s, d) && Current(s', d);
      assert forall k :: k !in s.accepted;
      assert h in s'.accepted;
    }
  }

  /** Telling the worker what is on record keeps the invariant. */
  lemma NotifyKeepsInv(s: State, d: Id, r: Response)
    requires Inv(s) && d in s.assignments
    requires Current(s, d) ==> s.assignments[d] == (if r.SaysAccepted? then Accepted else Declined)
    ensures Inv(Notify(s, d, r))
  {
    var s' := Notify(s, d, r);
    assert forall e :: Current(s', e) == Current(s, e);
    assert IsPaid(s') == IsPaid(s);
  }

  lemma SignalledKeepsInv(s: State, h: Id)
    requires Inv(s) && h in s.accepted && s.accepted[h].Committed?
    ensures Inv(s.(accepted := s.accepted[h := Signalled(s.accepted[h].d)]))
  {
    var s' := s.(accepted := s.accepted[h := Signalled(s.accepted[h].d)]);
    assert forall e :: Current(s', e) == Current(s, e);
    assert !IsPaid(s) && !IsPaid(s');
    assert h in s'.accepted;
  }

  lemma SignalAcceptKeepsInv(s: State, h: Id)
    requires Inv(s)
    ensures Inv(Step(s, SignalAccept(h)))
  {
    if h in s.accepted && s.accepted[h].Committed? {
      assert HasAccepted(s, s.accepted[h].d);
      NotifyKeepsInv(s, s.accepted[h].d, SaysAccepted);
      SignalledKeepsInv(Notify(s, s.accepted[h].d, SaysAccepted), h);
    }
  }

  lemma CaptureKeepsInv(s: State, h: Id)
    requires Inv(s)
    ensures Inv(Step(s, CapturePayment(h)))
  {
    if h in s.accepted && s.accepted[h].Signalled? {
      PaidKeepsInv(s, h);
    }
  }

  lemma PaidKeepsInv(s: State, h: Id)
    requires Inv(s) && h in s.accepted && s.accepted[h].Signalled?
    ensures Inv(s.(ledger := s.ledger + [Capture(s.price)], accepted := s.accepted[h := Paid(s.accepted[h].d)]))
  {
    var s' := s.(ledger := s.ledger + [Capture(s.price)], accepted := s.accepted[h := Paid(s.accepted[h].d)]);
    assert forall d :: Current(s', d) == Current(s, d);
    assert !IsPaid(s);
    assert s'.accepted[h].Paid? && IsPaid(s');
    assert s.ledger == [Authorization(s.price)];
    assert WorkerOk(s');
  }

  lemma DeclinedRowKeepsInv(s: State, d: Id)
    requires Inv(s) && d in s.assignments && !HasAccepted(s, d)
    ensures Inv(s.(assignments := s.assignments[d := Declined]))
  {
    var s' := s.(assignments := s.assignments[d := Declined]);
    assert forall e :: Current(s', e) == Current(s, e);
    assert IsPaid(s') == IsPaid(s);
    assert s.detailer.Some? ==> HasAccepted(s', s.detailer.value) == HasAccepted(s, s.detailer.value);
  }

  lemma RememberDecline(s: State, h: Id, d: Id)
    requires Inv(s) && d in s.assignments && s.assignments[d].Declined?
    ensures Inv(s.(declining := s.declining[h := d]))
  {
    var s' := s.(declining := s.declining[h := d]);
    assert forall e :: Current(s', e) == Current(s, e);
    assert IsPaid(s') == IsPaid(s);
  }

  lemma CommitDeclineKeepsInv(s: State, h: Id)
    requires Inv(s) && !DeclinesAccept(s, CommitDecline(h))
    ensures Inv(Step(s, CommitDecline(h)))
  {
    if h in s.reading && s.reading[h].MayDecline? {
      var d := s.reading[h].d;
      DeclinedRowKeepsInv(s, d);
      var s1 := s.(assignments := s.assignments[d := Declined]);
      ReadingKeepsInv(s1, s.reading - {h});
      RememberDecline(s1.(reading := s.reading - {h}), h, d);
    }
  }

  lemma SignalDeclineKeepsInv(s: State, h: Id)
    requires Inv(s)
    ensures Inv(Step(s, SignalDecline(h)))
  {
    if h in s.declining {
      NotifyKeepsInv(s, s.declining[h], SaysDeclined);
      ForgetDecline(Notify(s, s.declining[h], SaysDeclined), h);
    }
  }

  lemma ForgetDecline(s: State, h: Id)
    requires Inv(s)
    ensures Inv(s.(declining := s.declining - {h}))
  {
    var s' := s.(declining := s.declining - {h});
    assert forall e :: Current(s', e) == Current(s, e);
    assert IsPaid(s') == IsPaid(s);
  }

  lemma StepKeepsInv(s: State, a: Action)
    requires Inv(s) && !Clobbers(s, a)
    ensures Inv(Step(s, a)) && AnnouncementStands(s, Step(s, a))
  {
    match a
    case InsertOffer => InsertKeepsInv(s);
    case ReadRide(_, _) => ReadsKeepInv(s, a);
    case ReadOffer(_) => ReadsKeepInv(s, a);
    case ReadOfferToDecline(_, _) => ReadsKeepInv(s, a);
    case CommitAccept(h) => CommitAcceptKeepsInv(s, h);
    case SignalAccept(h) => SignalAcceptKeepsInv(s, h);
    case CapturePayment(h) => CaptureKeepsInv(s, h);
    case CommitDecline(h) => CommitDeclineKeepsInv(s, h);
    case SignalDecline(h) => SignalDeclineKeepsInv(s, h);
    case Skip => SkipKeepsInv(s);
    case Register => RegisterKeepsInv(s);
    case Wake => WakeKeepsInv(s);
    case Expire => ExpireKeepsInv(s);
    case GiveUp => GiveUpKeepsInv(s);
  }

  lemma LateAcceptBreaks(s: State, h: Id)
    requires Inv(s) && AcceptsLate(s, CommitAccept(h))
    ensures var s' := Step(s, CommitAccept(h));
            !Inv(s') || !AnnouncementStands(s, s')
  {
    var s' := Step(s, CommitAccept(h));
    var d := s.reading[h].d;
    assert s'.assignments[d].Accepted? && h in s'.accepted;
    if s.status.Confirmed? {
      var k :| k in s.accepted;
      assert k in s'.accepted && k != h;
    } else if s.status.Searching? && Current(s, d) {
      assert Current(s', d);
      if k :| k in s.declining && s.declining[k] == d {
        assert k in s'.declining && Current(s', d);
      }
    }
  }

  /**
   At statement granularity, with any number of requests under way, a step
   keeps the protocol's invariant, and an announcement once made, if and only
   if it is none of the three harmful writes.
  */
  lemma ProtocolUnlessClobbered(s: State, a: Action)
    requires Inv(s)
    ensures Inv(Step(s, a)) && AnnouncementStands(s, Step(s, a)) <==> !Clobbers(s, a)
  {
    if TimesOutAccept(s, a) {
      var d := s.candidates[s.worker.i];
      assert HasAccepted(s, d) && s.detailer == Some(d);
      assert !HasAccepted(Step(s, a), d);
    } else if DeclinesAccept(s, a) {
      var d := s.reading[a.h].d;
      assert HasAccepted(s, d) && s.detailer == Some(d);
      assert !HasAccepted(Step(s, a), d);
    } else if AcceptsLate(s, a) {
      LateAcceptBreaks(s, a.h);
    } else {
      StepKeepsInv(s, a);
    }
  }

  predicate NoneClobbers(s: State, actions: seq<Action>)
    decreases |actions|
  {
    actions == [] || (!Clobbers(s, actions[0]) && NoneClobbers(Step(s, actions[0]), actions[1..]))
  }

  lemma {:induction false} RunKeepsInv(s: State, actions: seq<Action>)
    requires Inv(s) && NoneClobbers(s, actions)
    ensures Inv(Run(s, actions))
    decreases |actions|
  {
    if actions != [] {
      StepKeepsInv(s, actions[0]);
      RunKeepsInv(Step(s, actions[0]), actions[1..]);
    }
  }

  // ---- Who is asked, and in which order ---------------------------------------------- //

  /** The queue is the front of the ranking: the three best, or all there are. */
  lemma QueueIsTheBest(ranked: seq<Id>, price: nat)
    ensures var s := Requested(ranked, price);
            && |s.candidates| == (if |ranked| < 3 then |ranked| else 3)
            && (forall k :: 0 <= k < |s.candidates| ==> s.candidates[k] == ranked[k])
            && s.price == price && s.status.Searching? && s.detailer.None? && s.worker == Trying(0)
            && s.assignments == map[] && s.ledger == [Authorization(price)]
  {
  }

  /** The candidate the worker stands at; past the last one when it is done. */
  function Position(s: State): nat {
    match s.worker
    case Trying(i) => i
    case Inserted(i) => i
    case Waiting(i, _) => i
    case Done => |s.candidates|
  }

  /** Only candidates the worker has reached have assignments. */
  ghost predicate ReachedOnly(s: State) {
    && Reached(s) <= |s.candidates|
    && (s.worker.Inserted? || s.worker.Waiting? ==>
          s.worker.i < |s.candidates| && s.candidates[s.worker.i] in s.assignments)
    && (forall d :: d in s.assignments ==> exists j :: 0 <= j < Reached(s) && s.candidates[j] == d)
    && (forall h :: h in s.reading && !s.reading[h].SawSearching? ==> s.reading[h].d in s.assignments)
  }

  /** An answered offer, whatever the answer was overwritten with, is never open again. */
  ghost predicate AnsweredIsClosed(s: State) {
    && (forall h :: h in s.accepted ==> Closed(s, s.accepted[h].d))
    && (forall h :: h in s.declining ==> Closed(s, s.declining[h]))
    && (s.worker.Waiting? && s.worker.signal.Some? && s.worker.i < |s.candidates| ==>
          Closed(s, s.candidates[s.worker.i]))
  }

  predicate Closed(s: State, d: Id) {
    d in s.assignments && !s.assignments[d].Offered?
  }

  /** Only the current candidate has an open offer. */
  ghost predicate OpenIsCurrent(s: State) {
    forall d :: HasOffer(s, d) ==> Current(s, d)
  }

  ghost predicate AskedInOrder(s: State) {
    ReachedOnly(s) && AnsweredIsClosed(s) && OpenIsCurrent(s)
  }

  /** No step but asking the next candidate adds an assignment, and none removes one. */
  lemma AssignedAfter(s: State, a: Action)
    requires ReachedOnly(s)
    ensures var s' := Step(s, a);
            && s.assignments.Keys <= s'.assignments.Keys
            && (a == InsertOffer && s' != s ==>
                  && s.worker.Trying? && s.worker.i < |s.candidates|
                  && s'.assignments.Keys == s.assignments.Keys + {s.candidates[s.worker.i]}
                  && s'.worker == Inserted(s.worker.i))
            && (a != InsertOffer ==> s'.assignments.Keys == s.assignments.Keys)
  {
  }

  /** How the worker may move. */
  predicate WorkerMoves(n: nat, w: Worker, w': Worker) {
    || w' == w
    || (w'.Done? && ((w.Trying? && w.i >= n) || (w.Waiting? && w.signal == Some(SaysAccepted))))
    || (w.Trying? && w.i < n && (w' == Trying(w.i + 1) || w' == Inserted(w.i)))
    || (w.Inserted? && w' == Waiting(w.i, None))
    || (w.Waiting? && ((w'.Waiting? && w'.i == w.i) || (w.i < n && w' == Trying(w.i + 1))))
  }

  lemma WorkerSteps(s: State, a: Action)
    ensures Step(s, a).candidates == s.candidates && WorkerMoves(|s.candidates|, s.worker, Step(s, a).worker)
  {
  }

  lemma WorkerAfter(s: State, a: Action)
    requires ReachedOnly(s)
    ensures var s' := Step(s, a);
            && s'.candidates == s.candidates && Position(s) <= Position(s')
            && Reached(s) <= Reached(s') <= |s.candidates|
            && (s'.worker.Inserted? || s'.worker.Waiting? ==>
                  s'.worker.i < |s.candidates| && s.candidates[s'.worker.i] in s'.assignments)
  {
    AssignedAfter(s, a);
    WorkerSteps(s, a);
    InsertedOnlyByInsert(s, a);
  }

  lemma InsertedOnlyByInsert(s: State, a: Action)
    ensures Step(s, a).worker.Inserted? && !s.worker.Inserted? ==> a == InsertOffer && Step(s, a) != s
  {
  }

  lemma ReadingAfter(s: State, a: Action)
    requires ReachedOnly(s)
    ensures var s' := Step(s, a);
            forall h :: h in s'.reading && !s'.reading[h].SawSearching? ==> s'.reading[h].d in s.assignments
  {
  }

  lemma StepKeepsReached(s: State, a: Action)
    requires ReachedOnly(s)
    ensures ReachedOnly(Step(s, a))
  {
    var s' := Step(s, a);
    AssignedAfter(s, a);
    WorkerAfter(s, a);
    ReadingAfter(s, a);
    forall d | d in s'.assignments ensures exists j :: 0 <= j < Reached(s') && s'.candidates[j] == d {
      if d in s.assignments {
        var j :| 0 <= j < Reached(s) && s.candidates[j] == d;
        assert s'.candidates[j] == d && j < Reached(s');
      } else {
        assert s'.candidates[s.worker.i] == d && s.worker.i < Reached(s');
      }
    }
  }

  lemma ClosedStays(s: State, a: Action, d: Id)
    requires Closed(s, d)
    ensures Closed(Step(s, a), d)
  {
  }

  lemma AcceptedStayClosed(s: State, a: Action, h: Id)
    requires ReachedOnly(s) && AnsweredIsClosed(s) && h in Step(s, a).accepted
    ensures Closed(Step(s, a), Step(s, a).accepted[h].d)
  {
    if h in s.accepted {
      ClosedStays(s, a, s.accepted[h].d);
    }
  }

  lemma DeclinedStayClosed(s: State, a: Action, h: Id)
    requires ReachedOnly(s) && AnsweredIsClosed(s) && h in Step(s, a).declining
    ensures Closed(Step(s, a), Step(s, a).declining[h])
  {
    if h in s.declining {
      ClosedStays(s, a, s.declining[h]);
    }
  }

  lemma SignalledIsClosed(s: State, a: Action)
    requires ReachedOnly(s) && AnsweredIsClosed(s)
    ensures var w := Step(s, a).worker;
            w.Waiting? && w.signal.Some? && w.i < |s.candidates| ==> Closed(s, s.candidates[w.i])
  {
  }

  lemma StepKeepsAnswered(s: State, a: Action)
    requires ReachedOnly(s) && AnsweredIsClosed(s)
    ensures AnsweredIsClosed(Step(s, a))
  {
    var s' := Step(s, a);
    forall h | h in s'.accepted ensures Closed(s', s'.accepted[h].d) {
      AcceptedStayClosed(s, a, h);
    }
    forall h | h in s'.declining ensures Closed(s', s'.declining[h]) {
      DeclinedStayClosed(s, a, h);
    }
    WorkerAfter(s, a);
    SignalledIsClosed(s, a);
    if s'.worker.Waiting? && s'.worker.signal.Some? && s'.worker.i < |s'.candidates| {
      ClosedStays(s, a, s.candidates[s'.worker.i]);
    }
  }

  lemma StepKeepsOpen(s: State, a: Action)
    requires AskedInOrder(s)
    ensures OpenIsCurrent(Step(s, a))
  {
    var s' := Step(s, a);
    forall d | HasOffer(s', d) ensures Current(s', d) {
      if HasOffer(s, d) {
        OpenUntilLeft(s, a, d);
      } else {
        OfferedAnew(s, a, d);
      }
    }
  }

  lemma OfferedAnew(s: State, a: Action, d: Id)
    requires !HasOffer(s, d) && HasOffer(Step(s, a), d)
    ensures Current(Step(s, a), d)
  {
  }

  lemma OpenUntilLeft(s: State, a: Action, d: Id)
    requires AskedInOrder(s) && HasOffer(s, d) && HasOffer(Step(s, a), d)
    ensures Current(Step(s, a), d)
  {
    assert Current(s, d);
  }

  lemma StepKeepsOrder(s: State, a: Action)
    requires AskedInOrder(s)
    ensures AskedInOrder(Step(s, a)) && Step(s, a).candidates == s.candidates && Position(s) <= Position(Step(s, a))
  {
    StepKeepsReached(s, a);
    WorkerAfter(s, a);
    StepKeepsAnswered(s, a);
    StepKeepsOpen(s, a);
  }

  lemma {:induction false} RunKeepsOrder(s: State, actions: seq<Action>)
    requires AskedInOrder(s)
    ensures AskedInOrder(Run(s, actions)) && Run(s, actions).candidates == s.candidates
    ensures Position(s) <= Position(Run(s, actions))
    decreases |actions|
  {
    if actions != [] {
      StepKeepsOrder(s, actions[0]);
      RunKeepsOrder(Step(s, actions[0]), actions[1..]);
    }
  }

  /** Over every run, harmful writes included, nobody but the three best is ever asked. */
  lemma OnlyTheBestAreAsked(ranked: seq<Id>, price: nat, actions: seq<Action>, d: Id)
    requires NoDuplicates(ranked) && d in Run(Requested(ranked, price), actions).assignments
    ensures exists k :: 0 <= k < |ranked| && k < 3 && ranked[k] == d
  {
    QueueIsTheBest(ranked, price);
    var s := Requested(ranked, price);
    RunKeepsOrder(s, actions);
    var end := Run(s, actions);
    var j :| 0 <= j < Reached(end) && end.candidates[j] == d;
    assert ranked[j] == d;
  }

  /**
   And in that order: when candidate k is asked the worker has come to it and
   left every better one, none of whom has an open offer then or gets a new
   one later.
  */
  lemma AskedInTurn(ranked: seq<Id>, price: nat, actions: seq<Action>, a: Action, k: nat, j: nat, future: seq<Action>)
    requires NoDuplicates(ranked) && j < k < |ranked|
    requires ranked[k] !in Run(Requested(ranked, price), actions).assignments
    requires ranked[k] in Step(Run(Requested(ranked, price), actions), a).assignments
    ensures var s := Run(Requested(ranked, price), actions);
            var later := Run(Step(s, a), future);
            && k < 3 && s.worker == Trying(k) && a == InsertOffer
            && Step(s, a).assignments == s.assignments[ranked[k] := Offered]
            && !HasOffer(s, ranked[j]) && !HasOffer(later, ranked[j]) && Position(later) >= k
  {
    QueueIsTheBest(ranked, price);
    var start := Requested(ranked, price);
    RunKeepsOrder(start, actions);
    var s := Run(start, actions);
    NewAssignment(s, a, ranked[k]);
    InsertedIsRanked(ranked, s, k);
    StepKeepsOrder(s, a);
    NeverAskedAgain(s, j);
    OvertakenStays(ranked, Step(s, a), future, k, j);
  }

  /** An assignment appears only by the worker asking the candidate it has come to. */
  lemma NewAssignment(s: State, a: Action, d: Id)
    requires ReachedOnly(s) && d !in s.assignments && d in Step(s, a).assignments
    ensures a == InsertOffer && s.worker.Trying? && s.worker.i < |s.candidates| && d == s.candidates[s.worker.i]
    ensures Step(s, a).assignments == s.assignments[d := Offered] && Step(s, a).worker == Inserted(s.worker.i)
  {
  }

  lemma NeverAskedAgain(s: State, j: nat)
    requires OpenIsCurrent(s) && j < |s.candidates| && s.worker.Trying?
    ensures !HasOffer(s, s.candidates[j])
  {
    assert !Current(s, s.candidates[j]);
  }

  /** Nobody is announced as found only by a worker that has gone through the whole queue. */
  lemma GivesUpAtTheEnd(s: State, a: Action)
    requires s.status != NoDetailerFound && Step(s, a).status == NoDetailerFound
    ensures a == GiveUp && s.worker.Trying? && s.worker.i >= |s.candidates|
    ensures Step(s, a) == s.(status := NoDetailerFound, worker := Done)
  {
  }

  /** Once the worker stands at k, nobody before k has an open offer. */
  lemma OvertakenStays(ranked: seq<Id>, s: State, future: seq<Action>, k: nat, j: nat)
    requires AskedInOrder(s) && NoDuplicates(ranked) && |s.candidates| <= |ranked|
    requires forall i :: 0 <= i < |s.candidates| ==> s.candidates[i] == ranked[i]
    requires j < k <= Position(s) && j < |s.candidates|
    ensures Position(Run(s, future)) >= k && !HasOffer(Run(s, future), ranked[j])
  {
    RunKeepsOrder(s, future);
    var later := Run(s, future);
    assert later.candidates[j] == ranked[j];
    assert HasOffer(later, ranked[j]) ==> Current(later, ranked[j]);
  }

  lemma InsertedIsRanked(ranked: seq<Id>, s: State, k: nat)
    requires NoDuplicates(ranked) && k < |ranked| && |s.candidates| <= |ranked| && |s.candidates| <= 3
    requires forall i :: 0 <= i < |s.candidates| ==> s.candidates[i] == ranked[i]
    requires s.worker.Trying? && s.worker.i < |s.candidates| && s.candidates[s.worker.i] == ranked[k]
    ensures s.worker.i == k && k < 3
  {
  }

  // ---- What the harm comes to ------------------------------------------------------ //

  /** Some future shows a ride that does not follow the protocol. */
  ghost predicate CanGoWrong(s: State) {
    exists future: seq<Action> :: !Protocol(Run(s, future))
  }

  lemma WrongNow(s: State)
    requires !Protocol(s)
    ensures CanGoWrong(s)
  {
    assert Run(s, []) == s;
  }

  lemma WrongNext(s: State, a: Action)
    requires CanGoWrong(Step(s, a))
    ensures CanGoWrong(s)
  {
    var future: seq<Action> :| !Protocol(Run(Step(s, a), future));
    RunCons(s, a, future);
  }

  /** The ride is confirmed for a detailer, and the worker does not know and goes on. */
  ghost predicate WorkerUnaware(s: State, d: Id) {
    && s.status.Confirmed? && HasAccepted(s, d) && !Current(s, d)
    && NoDuplicates(s.candidates) && Reached(s) <= |s.candidates| && !s.worker.Done?
    && (forall k :: Reached(s) <= k < |s.candidates| ==> s.candidates[k] !in s.assignments)
    && (s.worker.Waiting? ==> s.worker.signal != Some(SaysAccepted))
  }

  /** It offers a confirmed ride, or announces that nobody was found. */
  lemma NextCandidateShows(s: State, d: Id)
    requires WorkerUnaware(s, d) && s.worker.Trying?
    ensures CanGoWrong(s)
  {
    if s.worker.i < |s.candidates| {
      assert s.candidates[s.worker.i] !in s.assignments;
      assert Step(s, InsertOffer).assignments[s.candidates[s.worker.i]].Offered?;
      WrongNow(Step(s, InsertOffer));
      WrongNext(s, InsertOffer);
    } else {
      assert HasAccepted(Step(s, GiveUp), d);
      WrongNow(Step(s, GiveUp));
      WrongNext(s, GiveUp);
    }
  }

  lemma WaitingShows(s: State, d: Id)
    requires WorkerUnaware(s, d) && s.worker.Waiting?
    ensures CanGoWrong(s)
  {
    var a := if s.worker.signal.None? then Expire else Wake;
    assert HasAccepted(Step(s, a), d);
    NextCandidateShows(Step(s, a), d);
    WrongNext(s, a);
  }

  lemma UnawareShows(s: State, d: Id)
    requires WorkerUnaware(s, d)
    ensures CanGoWrong(s)
  {
    if s.worker.Trying? {
      NextCandidateShows(s, d);
    } else if s.worker.Waiting? {
      WaitingShows(s, d);
    } else {
      WaitingShows(Step(s, Register), d);
      WrongNext(s, Register);
    }
  }

  /** A decline the worker has been told of, or is about to be, ends up on the accepted assignment. */
  lemma ToldDeclineShows(s: State)
    requires s.status.Confirmed? && s.worker.Waiting? && s.worker.signal == Some(SaysDeclined)
    requires s.worker.i < |s.candidates| && s.detailer == Some(s.candidates[s.worker.i])
    ensures CanGoWrong(s)
  {
    WrongNow(Step(s, Wake));
    WrongNext(s, Wake);
  }

  lemma PendingDeclineShows(s: State, k: Id)
    requires s.status.Confirmed? && s.worker.Waiting? && k in s.declining
    requires s.worker.i < |s.candidates| && s.candidates[s.worker.i] == s.declining[k]
    requires s.detailer == Some(s.declining[k])
    ensures CanGoWrong(s)
  {
    ToldDeclineShows(Step(s, SignalDecline(k)));
    WrongNext(s, SignalDecline(k));
  }

  /** A second accept of the same detailer ends with the payment captured twice. */
  lemma CaptureShows(s: State, h: Id)
    requires h in s.accepted && s.accepted[h].Committed? && |s.ledger| >= 2
    ensures CanGoWrong(s)
  {
    Paying(s, h);
    WrongNow(Step(Step(s, SignalAccept(h)), CapturePayment(h)));
    WrongNext(Step(s, SignalAccept(h)), CapturePayment(h));
    WrongNext(s, SignalAccept(h));
  }

  lemma SecondAcceptShows(s: State, h: Id, k: Id)
    requires h != k && h in s.accepted && s.accepted[h].Committed? && k in s.accepted && s.ledger != []
    requires s.accepted[k].Paid? ==> |s.ledger| >= 2
    ensures CanGoWrong(s)
  {
    if s.accepted[k].Paid? {
      CaptureShows(s, h);
    } else if s.accepted[k].Signalled? {
      CaptureShows(Step(s, CapturePayment(k)), h);
      WrongNext(s, CapturePayment(k));
    } else {
      Paying(s, k);
      CaptureShows(Step(Step(s, SignalAccept(k)), CapturePayment(k)), h);
      WrongNext(Step(s, SignalAccept(k)), CapturePayment(k));
      WrongNext(s, SignalAccept(k));
    }
  }

  lemma LateOnConfirmedShows(s: State, h: Id)
    requires Inv(s) && AcceptsLate(s, CommitAccept(h)) && s.status.Confirmed?
    ensures CanGoWrong(Step(s, CommitAccept(h)))
  {
    var s', d, e := Step(s, CommitAccept(h)), s.reading[h].d, s.detailer.value;
    var k :| k in s.accepted;
    if e != d {
      assert s'.assignments[e].Accepted? && s'.detailer == Some(d);
      WrongNow(s');
    } else {
      assert s.accepted[k].Paid? ==> IsPaid(s);
      assert k in s'.accepted && s'.accepted[k] == s.accepted[k];
      SecondAcceptShows(s', h, k);
    }
  }

  lemma LateOnSearchingShows(s: State, h: Id)
    requires Inv(s) && AcceptsLate(s, CommitAccept(h)) && s.status.Searching?
    ensures CanGoWrong(Step(s, CommitAccept(h)))
  {
    var s', d := Step(s, CommitAccept(h)), s.reading[h].d;
    assert Current(s', d) == Current(s, d);
    NobodyAccepted(s);
    if !Current(s, d) {
      assert d in s.assignments;
      UnawareShows(s', d);
    } else if s.worker.Waiting? && s.worker.signal.Some? {
      ToldDeclineShows(s');
    } else {
      var k :| k in s.declining && s.declining[k] == d;
      if s.worker.Inserted? {
        PendingDeclineShows(Step(s', Register), k);
        WrongNext(s', Register);
      } else {
        PendingDeclineShows(s', k);
      }
    }
  }

  lemma NobodyAccepted(s: State)
    requires Inv(s) && s.status.Searching?
    ensures forall d :: d in s.assignments ==> !s.assignments[d].Accepted?
    ensures s.worker.Waiting? ==> s.worker.signal != Some(SaysAccepted)
  {
  }

  /**
   Every harmful write comes out: at once the ride announced as found by nobody
   is confirmed after all, or some future breaks the protocol as seen from
   outside.
  */
  lemma EveryClobberShows(s: State, a: Action)
    requires Inv(s) && Clobbers(s, a)
    ensures !AnnouncementStands(s, Step(s, a)) || CanGoWrong(Step(s, a))
  {
    if TimesOutAccept(s, a) {
      var d := s.candidates[s.worker.i];
      assert s.detailer == Some(d) && !HasAccepted(Step(s, a), d);
      WrongNow(Step(s, a));
    } else if DeclinesAccept(s, a) {
      var d := s.reading[a.h].d;
      assert s.detailer == Some(d) && !HasAccepted(Step(s, a), d);
      WrongNow(Step(s, a));
    } else if s.status.Confirmed? {
      LateOnConfirmedShows(s, a.h);
    } else if s.status.Searching? {
      LateOnSearchingShows(s, a.h);
    }
  }

  /** Every run of single statements in which no write does harm follows the protocol. */
  lemma CleanRunsFollowProtocol(ranked: seq<Id>, price: nat, actions: seq<Action>)
    requires NoDuplicates(ranked) && NoneClobbers(Requested(ranked, price), actions)
    ensures var s := Run(Requested(ranked, price), actions);
            Protocol(s) && |s.assignments| <= MAX_CANDIDATES
  {
    RunKeepsInv(Requested(ranked, price), actions);
    OffersBounded(Run(Requested(ranked, price), actions));
  }

  // ---- Runs in which a write does harm ------------------------------------------ //

  lemma RunCons(s: State, a: Action, rest: seq<Action>)
    ensures Run(s, [a] + rest) == Run(Step(s, a), rest)
  {
    assert ([a] + rest)[1..] == rest;
  }

  lemma {:induction false} RunAppend(s: State, a: seq<Action>, b: seq<Action>)
    ensures Run(s, a + b) == Run(Run(s, a), b)
    decreases |a|
  {
    if a == [] {
      assert a + b == b;
    } else {
      assert (a + b)[1..] == a[1..] + b;
      RunAppend(Step(s, a[0]), a[1..], b);
    }
  }

  /** Detailer 7 holds the open offer, and request 1 has read everything it needs to accept it. */
  function AboutToAccept(): State {
    State([7, 8], 500, Searching, None, map[7 := Offered], Waiting(0, None), map[1 := MayAccept(7)], map[], map[],
          [Authorization(500)])
  }

  function UpToThere(): seq<Action> {
    [InsertOffer, Register, ReadRide(1, 7), ReadOffer(1)]
  }

  lemma AboutToAcceptIsReachable()
    ensures Run(Requested([7, 8], 500), UpToThere()) == AboutToAccept()
  {
    var s0 := Requested([7, 8], 500);
    var s1 := s0.(assignments := map[7 := Offered], worker := Inserted(0));
    var s2 := s1.(worker := Waiting(0, None));
    var s3 := s2.(reading := map[1 := SawSearching(7)]);
    assert Step(s3, ReadOffer(1)) == AboutToAccept();
    RunCons(s3, ReadOffer(1), []);
    RunCons(s2, ReadRide(1, 7), [ReadOffer(1)]);
    RunCons(s1, Register, [ReadRide(1, 7), ReadOffer(1)]);
    RunCons(s0, InsertOffer, [Register, ReadRide(1, 7), ReadOffer(1)]);
  }

  /** The timer after the commit and before the signal: a captured ride ends as found by nobody. */
  lemma AcceptCanBeLost()
    ensures var s := Run(Requested([7, 8], 500),
                         UpToThere() + [CommitAccept(1), Expire, SignalAccept(1), CapturePayment(1), Skip, GiveUp]);
            s.status.NoDetailerFound? && s.ledger == [Authorization(500), Capture(500)] && s.worker.Done?
  {
    var tail := [SignalAccept(1), CapturePayment(1), Skip, GiveUp];
    AboutToAcceptIsReachable();
    RunAppend(Requested([7, 8], 500), UpToThere(), [CommitAccept(1), Expire] + tail);
    assert [CommitAccept(1), Expire] + tail
        == [CommitAccept(1), Expire, SignalAccept(1), CapturePayment(1), Skip, GiveUp];
    RunTwo(AboutToAccept(), CommitAccept(1), Expire, tail);
    AcceptTimesOut();
    LostAcceptGoesOn(Step(Step(AboutToAccept(), CommitAccept(1)), Expire));
  }

  lemma AcceptTimesOut()
    ensures Step(Step(AboutToAccept(), CommitAccept(1)), Expire)
            == State([7, 8], 500, Confirmed, Some(7), map[7 := TimedOut], Trying(1), map[], map[1 := Committed(7)],
                     map[], [Authorization(500)])
  {
    var s0 := AboutToAccept();
    var s1 := s0.(assignments := map[7 := Accepted], status := Confirmed, detailer := Some(7),
                  reading := map[], accepted := map[1 := Committed(7)]);
    assert s0.reading - {1} == map[];
    assert Step(s0, CommitAccept(1)) == s1;
  }

  /** Signalling and capturing leave all but the accept, the ledger and a waiting worker alone. */
  lemma Paying(s: State, h: Id)
    requires h in s.accepted && s.accepted[h].Committed?
    ensures var end := Step(Step(s, SignalAccept(h)), CapturePayment(h));
            && end.accepted == s.accepted[h := Paid(s.accepted[h].d)]
            && end.ledger == s.ledger + [Capture(s.price)] && end.price == s.price
            && end.candidates == s.candidates && (s.worker.Trying? ==> end.worker == s.worker)
  {
    var s1 := Step(s, SignalAccept(h));
    assert s1.accepted == s.accepted[h := Signalled(s.accepted[h].d)];
  }

  lemma RunTwo(s: State, a: Action, b: Action, rest: seq<Action>)
    ensures Run(s, [a, b] + rest) == Run(Step(Step(s, a), b), rest)
  {
    RunPair(s, Step(s, a), Step(Step(s, a), b), a, b, rest);
  }

  lemma RunPair(s: State, s1: State, s2: State, a: Action, b: Action, rest: seq<Action>)
    requires Step(s, a) == s1 && Step(s1, b) == s2
    ensures Run(s, [a, b] + rest) == Run(s2, rest)
  {
    var tail := [b] + rest;
    assert [a, b] + rest == [a] + tail;
    RunCons(s, a, tail);
    RunCons(s1, b, rest);
  }

  lemma LostAcceptGoesOn(s: State)
    requires |s.candidates| == 2 && s.worker == Trying(1) && s.accepted == map[1 := Committed(7)]
    ensures var end := Run(s, [SignalAccept(1), CapturePayment(1), Skip, GiveUp]);
            end.status.NoDetailerFound? && end.ledger == s.ledger + [Capture(s.price)] && end.worker.Done?
  {
    Paying(s, 1);
    RunTwo(s, SignalAccept(1), CapturePayment(1), [Skip, GiveUp]);
    var paid := Step(Step(s, SignalAccept(1)), CapturePayment(1));
    SkipAndGiveUp(paid);
    assert [SignalAccept(1), CapturePayment(1), Skip, GiveUp] == [SignalAccept(1), CapturePayment(1)] + [Skip, GiveUp];
  }

  lemma SkipAndGiveUp(s: State)
    requires |s.candidates| == 2 && s.worker == Trying(1)
    ensures Run(s, [Skip, GiveUp]) == s.(status := NoDetailerFound, worker := Done)
  {
    RunTwo(s, Skip, GiveUp, []);
    assert [Skip, GiveUp] + [] == [Skip, GiveUp];
  }

  /** An accept read in time and written after the timeout: nobody is found, yet detailer 7's assignment is accepted. */
  lemma LateAcceptLeavesNobody()
    ensures var s := Run(Requested([7, 8], 500),
                         UpToThere() + [Expire, InsertOffer, Register, CommitAccept(1), Expire, GiveUp]);
            s.status.NoDetailerFound? && HasAccepted(s, 7)
  {
    var rest := [Expire, InsertOffer, Register, CommitAccept(1), Expire, GiveUp];
    AboutToAcceptIsReachable();
    RunAppend(Requested([7, 8], 500), UpToThere(), rest);
    var s0 := AboutToAccept();
    var s1 := s0.(assignments := map[7 := TimedOut], worker := Trying(1));
    var s2 := s1.(assignments := map[7 := TimedOut, 8 := Offered], worker := Inserted(1));
    var s3 := s2.(worker := Waiting(1, None));
    assert Step(s0, Expire) == s1;
    assert Step(s1, InsertOffer) == s2;
    SecondTimeout(s3);
    RunCons(s2, Register, [CommitAccept(1), Expire, GiveUp]);
    RunCons(s1, InsertOffer, [Register, CommitAccept(1), Expire, GiveUp]);
    RunCons(s0, Expire, [InsertOffer, Register, CommitAccept(1), Expire, GiveUp]);
  }

  lemma SecondTimeout(s: State)
    requires s.candidates == [7, 8] && s.worker == Waiting(1, None) && 1 in s.reading && s.reading[1] == MayAccept(7)
    ensures var end := Run(s, [CommitAccept(1), Expire, GiveUp]);
            end.status.NoDetailerFound? && HasAccepted(end, 7)
  {
    var s4 := Step(s, CommitAccept(1));
    var s5 := s4.(assignments := s4.assignments[8 := TimedOut], worker := Trying(2));
    assert Step(s4, Expire) == s5;
    RunCons(s5, GiveUp, []);
    RunCons(s4, Expire, [GiveUp]);
    RunCons(s, CommitAccept(1), [Expire, GiveUp]);
  }

  /** A decline written over an accept: the ride is confirmed for a detailer whose assignment says declined. */
  lemma DeclineCanCoverAccept()
    ensures var s := Run(Requested([7, 8], 500),
                         UpToThere() + [ReadOfferToDecline(2, 7), CommitAccept(1), CommitDecline(2)]);
            s.status.Confirmed? && s.detailer == Some(7) && 7 in s.assignments && s.assignments[7].Declined?
  {
    AboutToAcceptIsReachable();
    RunAppend(Requested([7, 8], 500), UpToThere(), [ReadOfferToDecline(2, 7), CommitAccept(1), CommitDecline(2)]);
    var s0 := AboutToAccept();
    var s1 := s0.(reading := map[1 := MayAccept(7), 2 := MayDecline(7)]);
    var s2 := Step(s1, CommitAccept(1));
    assert Step(s0, ReadOfferToDecline(2, 7)) == s1;
    assert 2 in s2.reading && s2.reading[2] == MayDecline(7);
    RunCons(s2, CommitDecline(2), []);
    RunCons(s1, CommitAccept(1), [CommitDecline(2)]);
    RunCons(s0, ReadOfferToDecline(2, 7), [CommitAccept(1), CommitDecline(2)]);
  }

  /** Two accepts of one detailer that both read the open offer: the payment is captured twice. */
  lemma DoubleAcceptCapturesTwice()
    ensures var s := Run(Requested([7, 8], 500),
                         UpToThere() + [ReadRide(2, 7), ReadOffer(2), CommitAccept(1), CommitAccept(2)]
                         + [SignalAccept(1), CapturePayment(1), SignalAccept(2), CapturePayment(2)]);
            s.ledger == [Authorization(500), Capture(500), Capture(500)]
  {
    var commits := [ReadRide(2, 7), ReadOffer(2), CommitAccept(1), CommitAccept(2)];
    var pays := [SignalAccept(1), CapturePayment(1), SignalAccept(2), CapturePayment(2)];
    AboutToAcceptIsReachable();
    RunAppend(Requested([7, 8], 500), UpToThere() + commits, pays);
    RunAppend(Requested([7, 8], 500), UpToThere(), commits);
    BothCommit();
    BothCapture(Run(AboutToAccept(), commits));
  }

  lemma BothCommit()
    ensures var s := Run(AboutToAccept(), [ReadRide(2, 7), ReadOffer(2), CommitAccept(1), CommitAccept(2)]);
            && s.accepted == map[1 := Committed(7), 2 := Committed(7)]
            && s.ledger == [Authorization(500)] && s.price == 500
  {
    var s0 := AboutToAccept();
    var s1 := s0.(reading := map[1 := MayAccept(7), 2 := SawSearching(7)]);
    var s2 := s0.(reading := map[1 := MayAccept(7), 2 := MayAccept(7)]);
    assert Step(s0, ReadRide(2, 7)) == s1;
    assert Step(s1, ReadOffer(2)) == s2;
    RunTwo(s0, ReadRide(2, 7), ReadOffer(2), [CommitAccept(1), CommitAccept(2)]);
    CommitBoth(s2);
    assert [ReadRide(2, 7), ReadOffer(2)] + [CommitAccept(1), CommitAccept(2)]
        == [ReadRide(2, 7), ReadOffer(2), CommitAccept(1), CommitAccept(2)];
  }

  lemma CommitBoth(s: State)
    requires s.reading == map[1 := MayAccept(7), 2 := MayAccept(7)] && s.accepted == map[]
    ensures var end := Run(s, [CommitAccept(1), CommitAccept(2)]);
            end.accepted == map[1 := Committed(7), 2 := Committed(7)] && end.ledger == s.ledger && end.price == s.price
  {
    RunTwo(s, CommitAccept(1), CommitAccept(2), []);
    assert [CommitAccept(1), CommitAccept(2)] + [] == [CommitAccept(1), CommitAccept(2)];
    var s1 := Step(s, CommitAccept(1));
    assert 2 in s1.reading && s1.reading[2] == MayAccept(7);
  }

  lemma BothCapture(s: State)
    requires s.accepted == map[1 := Committed(7), 2 := Committed(7)]
    ensures Run(s, [SignalAccept(1), CapturePayment(1), SignalAccept(2), CapturePayment(2)]).ledger
            == s.ledger + [Capture(s.price), Capture(s.price)]
  {
    Paying(s, 1);
    RunTwo(s, SignalAccept(1), CapturePayment(1), [SignalAccept(2), CapturePayment(2)]);
    var s1 := Step(Step(s, SignalAccept(1)), CapturePayment(1));
    Paying(s1, 2);
    RunTwo(s1, SignalAccept(2), CapturePayment(2), []);
    assert [SignalAccept(2), CapturePayment(2)] + [] == [SignalAccept(2), CapturePayment(2)];
    assert [SignalAccept(1), CapturePayment(1)] + [SignalAccept(2), CapturePayment(2)]
        == [SignalAccept(1), CapturePayment(1), SignalAccept(2), CapturePayment(2)];
  }

  // ---- Requests taken whole --------------------------------------------------- //

  /**
   Steps with "insert, publish, register" taken whole, and each handler taken
   whole from its first read to its signal.
  */
  datatype Move = Offer | Accepting(h: Id, d: Id) | Declining(h: Id, d: Id) | Other(a: Action)

  function Apply(s: State, m: Move): State {
    match m
    case Offer => Step(Step(s, InsertOffer), Register)
    case Accepting(h, d) => Step(Step(Step(Step(s, ReadRide(h, d)), ReadOffer(h)), CommitAccept(h)), SignalAccept(h))
    case Declining(h, d) => Step(Step(Step(s, ReadOfferToDecline(h, d)), CommitDecline(h)), SignalDecline(h))
    case Other(a) => if a.Skip? || a.Wake? || a.Expire? || a.GiveUp? || a.CapturePayment? then Step(s, a) else s
  }

  function Play(s: State, moves: seq<Move>): State
    decreases |moves|
  {
    if moves == [] then s else Play(Apply(s, moves[0]), moves[1..])
  }

  /** Between whole requests nobody has read without writing, and every accept has been signalled. */
  ghost predicate Settled(s: State) {
    && Inv(s)
    && !s.worker.Inserted?
    && s.reading == map[] && s.declining == map[]
    && (forall h :: h in s.accepted ==> !s.accepted[h].Committed?)
    && (s.worker.Waiting? && HasAccepted(s, s.candidates[s.worker.i]) ==> s.worker.signal == Some(SaysAccepted))
  }

  /** What a whole accept comes to. */
  function AcceptedBy(s: State, h: Id, d: Id): State {
    Notify(s.(assignments := s.assignments[d := Accepted], status := Confirmed, detailer := Some(d),
              accepted := s.accepted[h := Signalled(d)]), d, SaysAccepted)
  }

  lemma ReadsOfAccept(s: State, h: Id, d: Id)
    requires Settled(s)
    ensures Step(Step(s, ReadRide(h, d)), ReadOffer(h))
            == if s.status.Searching? && HasOffer(s, d) then s.(reading := map[h := MayAccept(d)]) else s
  {
    if s.status.Searching? {
      assert s.accepted == map[];
      var s1 := s.(reading := map[h := SawSearching(d)]);
      assert Step(s, ReadRide(h, d)) == s1;
      assert s1.reading - {h} == map[];
    }
  }

  lemma WritesOfAccept(s: State, h: Id, d: Id)
    requires s.reading == map[]
    ensures Step(Step(s.(reading := map[h := MayAccept(d)]), CommitAccept(h)), SignalAccept(h)) == AcceptedBy(s, h, d)
  {
    var s2 := s.(reading := map[h := MayAccept(d)]);
    assert s2.reading - {h} == map[];
    assert Step(s2, CommitAccept(h)) == CommittedBy(s, h, d);
    assert s.accepted[h := Committed(d)][h := Signalled(d)] == s.accepted[h := Signalled(d)];
  }

  lemma NothingToAccept(s: State, h: Id)
    requires Settled(s)
    ensures Step(Step(s, CommitAccept(h)), SignalAccept(h)) == s
  {
  }

  lemma AcceptingEffect(s: State, h: Id, d: Id)
    requires Settled(s)
    ensures Apply(s, Accepting(h, d)) == if s.status.Searching? && HasOffer(s, d) then AcceptedBy(s, h, d) else s
  {
    ReadsOfAccept(s, h, d);
    if s.status.Searching? && HasOffer(s, d) {
      WritesOfAccept(s, h, d);
    } else {
      NothingToAccept(s, h);
    }
  }

  /** The state between commit and signal. */
  function CommittedBy(s: State, h: Id, d: Id): State {
    s.(assignments := s.assignments[d := Accepted], status := Confirmed, detailer := Some(d),
       accepted := s.accepted[h := Committed(d)])
  }

  lemma CommittedByKeepsInv(s: State, h: Id, d: Id)
    requires Settled(s) && s.status.Searching? && HasOffer(s, d)
    ensures Inv(CommittedBy(s, h, d))
  {
    assert s.accepted == map[];
    var s1 := s.(reading := map[h := MayAccept(d)]);
    ReadingKeepsInv(s, map[h := MayAccept(d)]);
    FreshWritesAreHarmless(s1, CommitAccept(h));
    CommitAcceptKeepsInv(s1, h);
    assert s1.reading - {h} == map[];
    assert Step(s1, CommitAccept(h)) == CommittedBy(s, h, d);
  }

  lemma AcceptedByKeepsInv(s: State, h: Id, d: Id)
    requires Settled(s) && s.status.Searching? && HasOffer(s, d)
    ensures Inv(AcceptedBy(s, h, d))
  {
    CommittedByKeepsInv(s, h, d);
    var s2 := CommittedBy(s, h, d);
    SignalAcceptKeepsInv(s2, h);
    assert s2.accepted[h := Signalled(d)] == s.accepted[h := Signalled(d)];
    assert Step(s2, SignalAccept(h)) == AcceptedBy(s, h, d);
  }

  lemma AcceptingKeepsSettled(s: State, h: Id, d: Id)
    requires Settled(s)
    ensures Settled(Apply(s, Accepting(h, d)))
  {
    AcceptingEffect(s, h, d);
    if s.status.Searching? && HasOffer(s, d) {
      AcceptedByKeepsInv(s, h, d);
      AcceptedByIsSettled(s, h, d);
    }
  }

  /** An accept followed by its capture. */
  lemma AcceptAndPay(s: State, h: Id, d: Id)
    requires Settled(s) && s.status.Searching? && HasOffer(s, d)
    ensures Apply(Apply(s, Accepting(h, d)), Other(CapturePayment(h)))
            == AcceptedBy(s, h, d).(ledger := s.ledger + [Capture(s.price)], accepted := s.accepted[h := Paid(d)])
  {
    AcceptingEffect(s, h, d);
    var s1 := AcceptedBy(s, h, d);
    assert s1.accepted[h] == Signalled(d);
    assert s1.accepted[h := Paid(d)] == s.accepted[h := Paid(d)];
  }

  lemma AcceptedByIsSettled(s: State, h: Id, d: Id)
    requires Settled(s) && s.status.Searching? && HasOffer(s, d) && Inv(AcceptedBy(s, h, d))
    ensures Settled(AcceptedBy(s, h, d))
  {
    assert Current(s, d) && s.worker.Waiting?;
    assert s.accepted == map[];
  }

  /** What a whole decline comes to. */
  function DeclinedBy(s: State, d: Id): State {
    Notify(s.(assignments := s.assignments[d := Declined]), d, SaysDeclined)
  }

  lemma DecliningEffect(s: State, h: Id, d: Id)
    requires Settled(s)
    ensures Apply(s, Declining(h, d)) == if HasOffer(s, d) then DeclinedBy(s, d) else s
  {
    if HasOffer(s, d) {
      assert s.accepted == map[];
      var s1 := s.(reading := map[h := MayDecline(d)]);
      assert Step(s, ReadOfferToDecline(h, d)) == s1;
      var s2 := Step(s1, CommitDecline(h));
      assert s2.reading == map[] && s2.declining == map[h := d];
      assert s2.declining - {h} == map[];
    }
  }

  lemma DecliningKeepsSettled(s: State, h: Id, d: Id)
    requires Settled(s)
    ensures Settled(Apply(s, Declining(h, d)))
  {
    DecliningEffect(s, h, d);
    if HasOffer(s, d) {
      DeclinedRowKeepsInv(s, d);
      NotifyKeepsInv(s.(assignments := s.assignments[d := Declined]), d, SaysDeclined);
    }
  }

  lemma OfferKeepsSettled(s: State)
    requires Settled(s)
    ensures Settled(Apply(s, Offer))
  {
    InsertKeepsInv(s);
    RegisterKeepsInv(Step(s, InsertOffer));
  }

  lemma OtherKeepsSettled(s: State, a: Action)
    requires Settled(s) && (a.Skip? || a.Wake? || a.Expire? || a.GiveUp? || a.CapturePayment?)
    ensures Settled(Step(s, a))
  {
    StepKeepsInv(s, a);
  }

  lemma MoveKeepsSettled(s: State, m: Move)
    requires Settled(s)
    ensures Settled(Apply(s, m))
  {
    match m
    case Offer => OfferKeepsSettled(s);
    case Accepting(h, d) => AcceptingKeepsSettled(s, h, d);
    case Declining(h, d) => DecliningKeepsSettled(s, h, d);
    case Other(a) =>
      if a.Skip? || a.Wake? || a.Expire? || a.GiveUp? || a.CapturePayment? {
        OtherKeepsSettled(s, a);
      }
  }

  lemma {:induction false} PlayKeepsSettled(s: State, moves: seq<Move>)
    requires Settled(s)
    ensures Settled(Play(s, moves))
    decreases |moves|
  {
    if moves != [] {
      MoveKeepsSettled(s, moves[0]);
      PlayKeepsSettled(Apply(s, moves[0]), moves[1..]);
    }
  }

  /**
   Every run in which offers are registered as they are published, and each
   handler runs from its first read to its signal undisturbed, follows the
   protocol, whatever the timer does.
  */
  lemma AtomicRunsFollowProtocol(ranked: seq<Id>, price: nat, moves: seq<Move>)
    requires NoDuplicates(ranked)
    ensures var s := Play(Requested(ranked, price), moves);
            Protocol(s) && |s.assignments| <= MAX_CANDIDATES
  {
    PlayKeepsSettled(Requested(ranked, price), moves);
    OffersBounded(Play(Requested(ranked, price), moves));
  }

  // ---- Termination ---------------------------------------------------------------- //

  predicate WorkerAction(a: Action) {
    a in {Skip, InsertOffer, Register, Wake, Expire, GiveUp}
  }

  /** Steps the worker can still take. */
  function Fuel(s: State): nat {
    var n := |s.candidates|;
    match s.worker
    case Trying(i) => if i <= n then 3 * (n - i) + 1 else 1
    case Inserted(i) => if i < n then 3 * (n - i) else 0
    case Waiting(i, _) => if i < n then 3 * (n - i) - 1 else 0
    case Done => 0
  }

  lemma FuelIsTen(s: State)
    requires WorkerOk(s)
    ensures Fuel(s) <= 10
  {
  }

  lemma HandlersBurnNothing(s: State, a: Action)
    requires !WorkerAction(a)
    ensures Fuel(Step(s, a)) == Fuel(s)
  {
  }

  /** Each step the worker takes burns fuel and no handler refills it, so the worker takes at most ten. */
  lemma WorkerTerminates(s: State, a: Action)
    requires WorkerOk(s)
    ensures Fuel(s) <= 10
    ensures WorkerAction(a) && Step(s, a) != s ==> Fuel(Step(s, a)) < Fuel(s)
    ensures !WorkerAction(a) ==> Fuel(Step(s, a)) == Fuel(s)
  {
    FuelIsTen(s);
    if !WorkerAction(a) {
      HandlersBurnNothing(s, a);
    }
  }

  /** Until it is done, the worker always has a step to take. */
  lemma WorkerProgresses(s: State)
    requires WorkerOk(s) && !s.worker.Done?
    ensures exists b :: WorkerAction(b) && Step(s, b).worker != s.worker
  {
    var b := match s.worker
      case Trying(i) => if i < |s.candidates| then Skip else GiveUp
      case Inserted(i) => Register
      case Waiting(i, signal) => if signal.None? then Expire else Wake;
    assert WorkerAction(b) && Step(s, b).worker != s.worker;
  }

  // ---- The worker's loop ------------------------------------------------------------- //

  /** A request to the accept or the decline endpoint. */
  datatype HandlerRequest = HandlerRequest(h: Id, d: Id, accepts: bool)

  /** Whether the offer lock was free, and the requests served while the worker waits. */
  datatype Round = Round(acquired: bool, during: seq<HandlerRequest>)

  lemma {:induction false} PlaySnoc(s: State, moves: seq<Move>, m: Move)
    ensures Play(s, moves + [m]) == Apply(Play(s, moves), m)
    decreases |moves|
  {
    if moves == [] {
      assert [m][1..] == [];
      assert moves + [m] == [m];
    } else {
      assert (moves + [m])[1..] == moves[1..] + [m];
      PlaySnoc(Apply(s, moves[0]), moves[1..], m);
    }
  }

  /** A request served while the worker waits leaves it waiting on the same candidate. */
  lemma ServedKeepsWaiting(s: State, m: Move, h: Id, d: Id)
    requires s.worker.Waiting? && Settled(s)
    requires m == Accepting(h, d) || m == Declining(h, d) || m == Other(CapturePayment(h))
    ensures Apply(s, m).worker.Waiting? && Apply(s, m).worker.i == s.worker.i
  {
    if m.Accepting? {
      AcceptingEffect(s, h, d);
    } else if m.Declining? {
      DecliningEffect(s, h, d);
    }
  }

  /** What a candidate answers to the requests served while its offer stands: the first one counts. */
  function Answer(during: seq<HandlerRequest>, d: Id): Option<bool> {
    if during == [] then None
    else if during[0].d == d then Some(during[0].accepts)
    else Answer(during[1..], d)
  }

  lemma {:induction false} AnswerSnoc(during: seq<HandlerRequest>, r: HandlerRequest, d: Id)
    ensures Answer(during + [r], d)
            == Heard(Answer(during, d), r, d)
  {
    if during == [] {
      assert [r][1..] == [];
    } else {
      assert (during + [r])[1..] == during[1..] + [r];
      AnswerSnoc(during[1..], r, d);
    }
  }

  /** The first answer, as an equation over the requests. */
  lemma {:induction false} AnswerIsTheFirst(during: seq<HandlerRequest>, d: Id)
    ensures Answer(during, d).None? <==> forall k :: 0 <= k < |during| ==> during[k].d != d
    ensures Answer(during, d).Some? ==>
              exists k :: 0 <= k < |during| && during[k].d == d && during[k].accepts == Answer(during, d).value
                          && forall m :: 0 <= m < k ==> during[m].d != d
  {
    if during != [] {
      AnswerIsTheFirst(during[1..], d);
      assert forall k :: 0 < k < |during| ==> during[k] == during[1..][k - 1];
      if during[0].d != d && Answer(during, d).Some? {
        var k :| 0 <= k < |during[1..]| && during[1..][k].d == d
                 && during[1..][k].accepts == Answer(during, d).value
                 && forall m :: 0 <= m < k ==> during[1..][m].d != d;
        assert during[k + 1].d == d && forall m :: 0 <= m < k + 1 ==> during[m].d != d;
      }
    }
  }

  /** The round brings the ride its detailer. */
  predicate Wins(round: Round, d: Id) {
    round.acquired && Answer(round.during, d) == Some(true)
  }

  /** What is written of a candidate who was asked and gave this answer. */
  function WrittenDown(answer: Option<bool>): OfferStatus {
    match answer
    case None => TimedOut
    case Some(true) => Accepted
    case Some(false) => Declined
  }

  function Outcome(round: Round, d: Id): OfferStatus {
    WrittenDown(Answer(round.during, d))
  }

  /** One more request: only the first of the candidate asked counts. */
  function Heard(answer: Option<bool>, r: HandlerRequest, d: Id): Option<bool> {
    if answer.Some? then answer else if r.d == d then Some(r.accepts) else None
  }

  class Dispatch {
    const candidates: seq<Id>
    const price: nat
    var status: RideStatus
    var detailer: Option<Id>
    var assignments: map<Id, OfferStatus>
    var worker: Worker
    var accepted: map<Id, Progress>
    var ledger: seq<Entry>

    ghost function Model(): State
      reads this
    {
      State(candidates, price, status, detailer, assignments, worker, map[], accepted, map[], ledger)
    }

    /** request_ride, once the ranking is known. */
    constructor (ranked: seq<Id>, price: nat)
      ensures Model() == Requested(ranked, price)
      ensures |candidates| == if |ranked| < 3 then |ranked| else 3
      ensures forall k :: 0 <= k < |candidates| ==> candidates[k] == ranked[k]
    {
      this.candidates := if |ranked| <= MAX_CANDIDATES then ranked else ranked[..MAX_CANDIDATES];
      this.price := price;
      status, detailer, assignments, worker := Searching, None, map[], Trying(0);
      accepted, ledger := map[], [Authorization(price)];
    }

    /** Sets the response event if the worker has registered it. */
    method SetEvent(d: Id, r: Response)
      modifies this`worker
      ensures Model() == Notify(old(Model()), d, r)
    {
      if worker.Waiting? && worker.i < |candidates| && candidates[worker.i] == d {
        worker := Waiting(worker.i, Some(r));
      }
    }

    /** accept_ride run undisturbed: read, commit, signal, then capture. */
    method AcceptRide(h: Id, d: Id) returns (ok: bool)
      requires Settled(Model())
      modifies this
      ensures var whole := Apply(old(Model()), Accepting(h, d));
              Model() == if ok then Apply(whole, Other(CapturePayment(h))) else whole
      ensures ok <==> old(status).Searching? && HasOffer(old(Model()), d)
      ensures ok ==> ledger == old(ledger) + [Capture(price)] && detailer == Some(d) && status.Confirmed?
      ensures ok ==> assignments == old(assignments)[d := Accepted]
      ensures ok && old(worker).Waiting? && old(worker).i < |candidates| && candidates[old(worker).i] == d ==>
                worker == Waiting(old(worker).i, Some(SaysAccepted))
      ensures !ok ==> Model() == old(Model())
    {
      ghost var s := Model();
      AcceptingEffect(s, h, d);
      ok := status.Searching? && d in assignments && assignments[d].Offered?;
      if ok {
        AcceptAndPay(s, h, d);
        assignments := assignments[d := Accepted];
        status, detailer, accepted := Confirmed, Some(d), accepted[h := Committed(d)];
        SetEvent(d, SaysAccepted);
        accepted := accepted[h := Signalled(d)];
        ledger := ledger + [Capture(price)];
        accepted := accepted[h := Paid(d)];
      }
    }

    /** decline_ride run undisturbed. */
    method DeclineRide(h: Id, d: Id) returns (ok: bool)
      requires Settled(Model())
      modifies this
      ensures Model() == Apply(old(Model()), Declining(h, d))
      ensures ok <==> HasOffer(old(Model()), d)
      ensures ok ==> Model() == old(Model()).(assignments := old(assignments)[d := Declined], worker := worker)
      ensures ok && old(worker).Waiting? && old(worker).i < |candidates| && candidates[old(worker).i] == d ==>
                worker == Waiting(old(worker).i, Some(SaysDeclined))
      ensures !ok ==> Model() == old(Model())
    {
      DecliningEffect(Model(), h, d);
      ok := d in assignments && assignments[d].Offered?;
      if ok {
        assignments := assignments[d := Declined];
        SetEvent(d, SaysDeclined);
      }
    }

    ghost predicate Ready()
      reads this
    {
      Settled(Model())
    }

    /** Candidate i has been asked, on top of these rows and entries, and has given this answer so far. */
    ghost predicate Answered(i: nat, answer: Option<bool>, rows: map<Id, OfferStatus>, entries: seq<Entry>,
                             before: Option<Id>)
      reads this
    {
      && i < |candidates|
      && match answer
         case None =>
           && assignments == rows[candidates[i] := Offered] && worker == Waiting(i, None)
           && status.Searching? && ledger == entries && detailer == before
         case Some(true) =>
           && assignments == rows[candidates[i] := Accepted] && worker == Waiting(i, Some(SaysAccepted))
           && status.Confirmed? && ledger == entries + [Capture(price)] && detailer == Some(candidates[i])
         case Some(false) =>
           && assignments == rows[candidates[i] := Declined] && worker == Waiting(i, Some(SaysDeclined))
           && status.Searching? && ledger == entries && detailer == before
    }

    /** One handler request while the worker waits: only the first of the candidate it waits for counts. */
    method Serve(r: HandlerRequest, ghost answer: Option<bool>, ghost rows: map<Id, OfferStatus>,
                 ghost entries: seq<Entry>, ghost before: Option<Id>)
      returns (ghost made: seq<Move>)
      requires Ready() && worker.Waiting? && Answered(worker.i, answer, rows, entries, before)
      modifies this
      ensures Model() == Play(old(Model()), made) && Ready()
      ensures worker.Waiting? && worker.i == old(worker.i)
      ensures Answered(worker.i, Heard(answer, r, candidates[worker.i]), rows, entries, before)
    {
      ghost var s := Model();
      assert HasOffer(s, r.d) ==> Current(s, r.d);
      assert rows[candidates[worker.i] := Offered][candidates[worker.i] := Accepted]
          == rows[candidates[worker.i] := Accepted];
      assert rows[candidates[worker.i] := Offered][candidates[worker.i] := Declined]
          == rows[candidates[worker.i] := Declined];
      if r.accepts {
        made := [Accepting(r.h, r.d)];
        PlayOne(s, made[0]);
        MoveKeepsSettled(s, made[0]);
        ServedKeepsWaiting(s, made[0], r.h, r.d);
        var ok := AcceptRide(r.h, r.d);
        if ok {
          made := [Accepting(r.h, r.d), Other(CapturePayment(r.h))];
          PlayTwo(s, Accepting(r.h, r.d), Other(CapturePayment(r.h)));
          ServedKeepsWaiting(Apply(s, Accepting(r.h, r.d)), Other(CapturePayment(r.h)), r.h, r.d);
        }
      } else {
        made := [Declining(r.h, r.d)];
        PlayOne(s, made[0]);
        ServedKeepsWaiting(s, made[0], r.h, r.d);
        var _ := DeclineRide(r.h, r.d);
      }
      PlayKeepsSettled(s, made);
    }

    method ServeAll(requests: seq<HandlerRequest>, i: nat, ghost rows: map<Id, OfferStatus>,
                    ghost entries: seq<Entry>, ghost before: Option<Id>)
      returns (ghost made: seq<Move>)
      requires Ready() && worker.Waiting? && worker.i == i && Answered(i, None, rows, entries, before)
      modifies this
      ensures Model() == Play(old(Model()), made) && Ready()
      ensures worker.Waiting? && worker.i == i
      ensures Answered(i, Answer(requests, candidates[i]), rows, entries, before)
    {
      made := [];
      ghost var s, d := Model(), candidates[i];
      ghost var answer := None;
      for k := 0 to |requests|
        invariant Model() == Play(s, made) && Ready()
        invariant worker.Waiting? && worker.i == i
        invariant answer == Answer(requests[..k], d)
        invariant Answered(i, answer, rows, entries, before)
      {
        ghost var more := Serve(requests[k], answer, rows, entries, before);
        PlayAppend(s, made, more);
        made := made + more;
        AnswerSnoc(requests[..k], requests[k], d);
        assert requests[..k] + [requests[k]] == requests[..k + 1];
        answer := Heard(answer, requests[k], d);
      }
      assert requests[..|requests|] == requests;
    }

    /** Insert, publish and register the offer to candidate i. */
    method MakeOffer(i: nat) returns (ghost made: seq<Move>)
      requires Ready() && worker == Trying(i) && i < |candidates|
      modifies this
      ensures Model() == Play(old(Model()), made) && Ready()
      ensures Answered(i, None, old(assignments), old(ledger), old(detailer))
    {
      TryingMeansSearching(Model());
      made := [Offer];
      PlaySnoc(Model(), [], Offer);
      assignments := assignments[candidates[i] := Offered];
      worker := Waiting(i, None);
      PlayKeepsSettled(old(Model()), made);
    }

    /** Woken or timed out: an accept ends the search, anything else is written down and the next candidate tried. */
    method Conclude(i: nat) returns (ghost made: seq<Move>)
      requires Ready() && worker.Waiting? && worker.i == i
      modifies this
      ensures Model() == Play(old(Model()), made) && Ready()
      ensures worker == (if old(worker).signal == Some(SaysAccepted) then Done else Trying(i + 1))
      ensures status == old(status) && detailer == old(detailer) && ledger == old(ledger)
      ensures assignments == match old(worker).signal
                             case None => old(assignments)[candidates[i] := TimedOut]
                             case Some(SaysDeclined) => old(assignments)[candidates[i] := Declined]
                             case Some(SaysAccepted) => old(assignments)
    {
      var response := worker.signal;
      made := [Other(if response.None? then Expire else Wake)];
      PlaySnoc(Model(), [], made[0]);
      if response == Some(SaysAccepted) {
        worker := Done;
      } else {
        assignments := assignments[candidates[i] := if response.None? then TimedOut else Declined];
        worker := Trying(i + 1);
      }
      PlayKeepsSettled(old(Model()), made);
    }

    /** Skipping a candidate, or giving up after the last one. */
    method MoveOn(i: nat) returns (ghost made: seq<Move>)
      requires Ready() && worker == Trying(i) && i <= |candidates|
      modifies this
      ensures Model() == Play(old(Model()), made) && Ready()
      ensures worker == (if i < |candidates| then Trying(i + 1) else Done)
      ensures status == (if i < |candidates| then old(status) else NoDetailerFound)
      ensures assignments == old(assignments) && detailer == old(detailer) && ledger == old(ledger)
    {
      made := [Other(if i < |candidates| then Skip else GiveUp)];
      PlaySnoc(Model(), [], made[0]);
      if i < |candidates| {
        worker := Trying(i + 1);
      } else {
        status, worker := NoDetailerFound, Done;
      }
      PlayKeepsSettled(old(Model()), made);
    }

    /** What stands of the first n candidates, none of whom accepted: those asked have declined or timed out. */
    ghost predicate NobodyYet(rounds: seq<Round>, n: nat)
      reads this
      requires |rounds| == |candidates|
    {
      && n <= |candidates|
      && (forall k :: 0 <= k < n ==> !Wins(rounds[k], candidates[k]))
      && Recorded(rounds, n)
    }

    /** The assignments are those of the candidates before n who were asked, with what became of each. */
    ghost predicate Recorded(rounds: seq<Round>, n: nat)
      reads this
      requires |rounds| == |candidates|
    {
      && (forall k :: 0 <= k < |candidates| ==> (candidates[k] in assignments <==> k < n && rounds[k].acquired))
      && (forall k :: 0 <= k < |candidates| && candidates[k] in assignments ==>
            assignments[candidates[k]] == Outcome(rounds[k], candidates[k]))
      && (forall d :: d in assignments ==> d in candidates)
    }

    /** The first n candidates have been gone through, and the last of them got the ride and was charged for. */
    ghost predicate Found(rounds: seq<Round>, n: nat, entries: seq<Entry>)
      reads this
      requires |rounds| == |candidates|
    {
      && 0 < n <= |candidates| && Wins(rounds[n - 1], candidates[n - 1])
      && (forall k :: 0 <= k < n - 1 ==> !Wins(rounds[k], candidates[k]))
      && Recorded(rounds, n)
      && status.Confirmed? && detailer == Some(candidates[n - 1]) && ledger == entries + [Capture(price)]
    }

    ghost predicate NobodyFound(rounds: seq<Round>, entries: seq<Entry>, before: Option<Id>)
      reads this
      requires |rounds| == |candidates|
    {
      NobodyYet(rounds, |candidates|) && status.NoDetailerFound? && detailer == before && ledger == entries
    }

    /** The offer and the requests that arrive while it stands. */
    method OfferTo(i: nat, requests: seq<HandlerRequest>) returns (ghost made: seq<Move>)
      requires Ready() && worker == Trying(i) && i < |candidates|
      modifies this
      ensures Model() == Play(old(Model()), made) && Ready()
      ensures worker.Waiting? && worker.i == i
      ensures Answered(i, Answer(requests, candidates[i]), old(assignments), old(ledger), old(detailer))
    {
      ghost var s, rows, entries, before := Model(), assignments, ledger, detailer;
      made := MakeOffer(i);
      ghost var more := ServeAll(requests, i, rows, entries, before);
      PlayAppend(s, made, more);
      made := made + more;
    }

    /** One candidate with a free offer lock: asked, served, concluded. */
    method Ask(i: nat, rounds: seq<Round>) returns (ghost made: seq<Move>)
      requires Ready() && worker == Trying(i) && i < |candidates| == |rounds| && rounds[i].acquired
      requires NobodyYet(rounds, i)
      modifies this
      ensures Model() == Play(old(Model()), made) && Ready()
      ensures worker.Done? ==> Found(rounds, i + 1, old(ledger))
      ensures !worker.Done? ==>
                && worker == Trying(i + 1) && NobodyYet(rounds, i + 1)
                && detailer == old(detailer) && ledger == old(ledger)
    {
      ghost var s, rows, d := Model(), assignments, candidates[i];
      made := OfferTo(i, rounds[i].during);
      WrittenOver(rows, d, Answer(rounds[i].during, d));
      ghost var more := Conclude(i);
      PlayAppend(s, made, more);
      made := made + more;
      AskedOneMore(candidates, rounds, i, rows);
    }

    /** One whose offer lock is taken: nothing is asked. */
    method Pass(i: nat, rounds: seq<Round>) returns (ghost made: seq<Move>)
      requires Ready() && worker == Trying(i) && i < |candidates| == |rounds| && !rounds[i].acquired
      requires NobodyYet(rounds, i)
      modifies this
      ensures Model() == Play(old(Model()), made) && Ready() && worker == Trying(i + 1) && NobodyYet(rounds, i + 1)
      ensures detailer == old(detailer) && ledger == old(ledger)
    {
      made := MoveOn(i);
    }

    /** After the last candidate. */
    method GiveUpSearch(rounds: seq<Round>) returns (ghost made: seq<Move>)
      requires Ready() && worker == Trying(|candidates|) && |rounds| == |candidates|
      requires NobodyYet(rounds, |candidates|)
      modifies this
      ensures Model() == Play(old(Model()), made) && Ready() && worker.Done?
      ensures NobodyFound(rounds, old(ledger), old(detailer))
    {
      made := MoveOn(|candidates|);
    }

    /**
     The worker's loop over the candidates.  It refines the protocol machine:
     moves is the run it made, so everything proved about runs holds of it.
     And it asks exactly those with a free offer lock, in order, up to the
     first that accepts: that one gets the ride and is charged for, once; if
     there is none nobody is found.
    */
    method Assign(rounds: seq<Round>) returns (ghost moves: seq<Move>, ghost asked: nat)
      requires Ready() && worker == Trying(0) && |rounds| == |candidates|
      modifies this
      ensures Model() == Play(old(Model()), moves) && Ready() && worker.Done?
      ensures Found(rounds, asked, old(ledger)) || NobodyFound(rounds, old(ledger), old(detailer))
    {
      moves := [];
      ghost var more;
      ghost var s := Model();
      NothingAssigned(s);
      for i := 0 to |candidates|
        invariant Model() == Play(s, moves) && Ready()
        invariant worker == Trying(i) && NobodyYet(rounds, i)
        invariant detailer == old(detailer) && ledger == old(ledger)
      {
        if !rounds[i].acquired {
          more := Pass(i, rounds);
          PlayAppend(s, moves, more);
          moves := moves + more;
          continue;
        }
        more := Ask(i, rounds);
        PlayAppend(s, moves, more);
        moves := moves + more;
        if worker.Done? {
          asked := i + 1;
          return;
        }
      }
      asked := |candidates|;
      more := GiveUpSearch(rounds);
      PlayAppend(s, moves, more);
      moves := moves + more;
    }
  }

  lemma WrittenOver(rows: map<Id, OfferStatus>, d: Id, answer: Option<bool>)
    ensures answer.None? ==> rows[d := Offered][d := TimedOut] == rows[d := WrittenDown(answer)]
    ensures answer == Some(false) ==> rows[d := Declined][d := Declined] == rows[d := WrittenDown(answer)]
  {
  }

  lemma NothingAssigned(s: State)
    requires Settled(s) && s.worker == Trying(0)
    ensures s.assignments == map[]
  {
  }

  lemma AskedOneMore(candidates: seq<Id>, rounds: seq<Round>, i: nat, rows: map<Id, OfferStatus>)
    requires NoDuplicates(candidates) && i < |candidates| == |rounds| && rounds[i].acquired
    requires forall k :: 0 <= k < |candidates| ==> (candidates[k] in rows <==> k < i && rounds[k].acquired)
    requires forall k :: 0 <= k < |candidates| && candidates[k] in rows ==>
               rows[candidates[k]] == Outcome(rounds[k], candidates[k])
    ensures var after := rows[candidates[i] := Outcome(rounds[i], candidates[i])];
            && (forall k :: 0 <= k < |candidates| ==> (candidates[k] in after <==> k < i + 1 && rounds[k].acquired))
            && (forall k :: 0 <= k < |candidates| && candidates[k] in after ==>
                  after[candidates[k]] == Outcome(rounds[k], candidates[k]))
  {
  }

  lemma PlayOne(s: State, m: Move)
    ensures Play(s, [m]) == Apply(s, m)
  {
    assert [] + [m] == [m];
    PlaySnoc(s, [], m);
  }

  lemma PlayTwo(s: State, a: Move, b: Move)
    ensures Play(s, [a, b]) == Apply(Apply(s, a), b)
  {
    assert [a, b] == [a] + [b];
    PlaySnoc(s, [a], b);
    PlaySnoc(s, [], a);
    assert [] + [a] == [a];
  }

  lemma {:induction false} PlayAppend(s: State, a: seq<Move>, b: seq<Move>)
    ensures Play(s, a + b) == Play(Play(s, a), b)
    decreases |a|
  {
    if a == [] {
      assert a + b == b;
    } else {
      assert (a + b)[1..] == a[1..] + b;
      PlayAppend(Apply(s, a[0]), a[1..], b);
    }
  }
}
