/**
 One appointment from creation to its end: the status machine with its
 history, timestamps, cancellation row and Stripe effects.
*/
module Lifecycle {
  import opened Support
  import opened AppointmentModel
  import Booking
  import Pricing

  datatype Actor = Actor(id: Uuid, roles: set<Role>)

  datatype HistoryEntry = HistoryEntry(before: Option<Status>, after: Status, actor: Actor, at: Time)

  datatype PolicyCode = NoPolicy | AuthVoided | FullRefund | PartialRefund

  datatype CancellationRow = CancellationRow(actor: Uuid, refundCents: Option<nat>, code: PolicyCode)

  /** What Stripe did on behalf of the appointment. */
  datatype Effect = Captured(cents: nat) | Voided | Refunded(cents: nat)

  /** An appointment row together with the rows that reference it. */
  datatype Case = Case(
    appt: Appointment,
    lines: seq<Pricing.Line>,
    history: seq<HistoryEntry>,
    cancellations: seq<CancellationRow>,
    effects: seq<Effect>)

  // ---- Refund policy ------------------------------------------------------ //

  datatype RawPolicy = RawPolicy(fullHours: int, partialHours: int, percent: nat)

  /** The percentage is validated into 0..100; the hour limits are any integers. */
  type RefundPolicy = p: RawPolicy | p.percent <= 100 witness RawPolicy(24, 2, 50)

  function TierCode(policy: RefundPolicy, untilStart: Time): PolicyCode {
    if untilStart >= policy.fullHours * HOUR then FullRefund
    else if untilStart >= policy.partialHours * HOUR then PartialRefund
    else NoPolicy
  }

  /** Cents refunded for a confirmed booking cancelled this long before it starts. */
  function TierCents(policy: RefundPolicy, price: nat, untilStart: Time): nat {
    match TierCode(policy, untilStart)
    case FullRefund => price
    case PartialRefund => price * policy.percent / 100
    case _ => 0
  }

  lemma PercentBound(price: nat, percent: nat)
    requires percent <= 100
    ensures price * percent / 100 <= price
  {
    assert price * percent <= price * 100;
  }

  /** Waiting never raises the refund, and no tier exceeds the price. */
  lemma TierNeverRises(policy: RefundPolicy, price: nat, earlier: Time, later: Time)
    requires earlier >= later
    ensures TierCents(policy, price, later) <= TierCents(policy, price, earlier) <= price
  {
    PercentBound(price, policy.percent);
  }

  // ---- Transitions --------------------------------------------------------- //

  datatype Update = Update(status: Status, actualPrice: Option<nat>)

  /** How Stripe answers the calls a transition may make. */
  datatype Stripe = Stripe(captureOk: bool, voidOk: bool, refundOk: bool)

  datatype TransitionError = NotFound | NotParticipant | InvalidEdge | WrongRole | RefundFailed

  predicate Participant(a: Appointment, actor: Actor) {
    a.client == actor.id || a.detailer == Some(actor.id)
  }

  predicate MayTouch(a: Appointment, actor: Actor) {
    Participant(a, actor) || Admin in actor.roles
  }

  predicate HoldsRole(from: Status, to: Status, actor: Actor) {
    exists r :: r in actor.roles && r in RolesFor(from, to)
  }

  /** The row with the new status and the timestamps and price that go with it. */
  function Moved(a: Appointment, u: Update, now: Time): Appointment {
    var a := a.(status := u.status);
    match u.status
    case Completed =>
      a.(actualPrice := if u.actualPrice.Some? then u.actualPrice else Some(a.estimatedPrice),
         completedAt := Some(now))
    case Arrived => a.(arrivedAt := Some(now))
    case InProgress => a.(startedAt := Some(now))
    case _ => a
  }

  /** What happens to the money: the effect on Stripe and the policy code recorded with it. */
  datatype Settlement = Settlement(effects: seq<Effect>, code: PolicyCode)

  function Settle(a: Appointment, u: Update, stripe: Stripe, now: Time, policy: RefundPolicy)
    : Result<Settlement, TransitionError>
  {
    if !a.intent.Intent? then Success(Settlement([], NoPolicy))
    else if u.status.Completed? then
      Success(Settlement(if stripe.captureOk then [Captured(Moved(a, u, now).actualPrice.value)] else [], NoPolicy))
    else if !Cancellation(u.status) then Success(Settlement([], NoPolicy))
    else if stripe.voidOk then Success(Settlement([Voided], AuthVoided))
    else if !a.status.Confirmed? then Success(Settlement([], NoPolicy))
    else
      var until := a.scheduledTime - now;
      var cents := TierCents(policy, a.estimatedPrice, until);
      if cents == 0 then Success(Settlement([], TierCode(policy, until)))
      else if stripe.refundOk then Success(Settlement([Refunded(cents)], TierCode(policy, until)))
      else Failure(RefundFailed)
  }

  function RefundOf(effects: seq<Effect>): Option<nat> {
    if effects != [] && effects[0].Refunded? then Some(effects[0].cents) else None
  }

  function TransitionCase(c: Case, u: Update, actor: Actor, stripe: Stripe, now: Time, policy: RefundPolicy)
    : Result<Case, TransitionError>
  {
    var a := c.appt;
    if a.deleted then Failure(NotFound)
    else if !MayTouch(a, actor) then Failure(NotParticipant)
    else if a.status == u.status then Success(c)
    else if !Edge(a.status, u.status) then Failure(InvalidEdge)
    else if !HoldsRole(a.status, u.status, actor) then Failure(WrongRole)
    else
      var settled := Settle(a, u, stripe, now, policy);
      if settled.Failure? then Failure(settled.error)
      else
        Success(Case(
          Moved(a, u, now),
          c.lines,
          c.history + [HistoryEntry(Some(a.status), u.status, actor, now)],
          if Cancellation(u.status)
          then c.cancellations
               + [CancellationRow(actor.id, RefundOf(settled.value.effects), settled.value.code)]
          else c.cancellations,
          c.effects + settled.value.effects))
  }

  /** A fresh booking and its first history entry. */
  function NewCase(r: Booking.Request, lines: seq<Pricing.Line>, client: Actor, now: Time): Case {
    Case(Booking.NewRow(r), lines, [HistoryEntry(None, Pending, client, now)], [], [])
  }

  // ---- Runs ------------------------------------------------------------------ //

  datatype World = World(cases: map<Id, Case>, now: Time)

  datatype Action =
    | Create(id: Id, req: Booking.Request, lines: seq<Pricing.Line>, client: Actor)
    | AttachIntent(id: Id, intent: Id)
    | Change(id: Id, update: Update, actor: Actor, stripe: Stripe, policy: RefundPolicy)
    | Tick(elapsed: nat)

  function Step(w: World, a: Action): World {
    match a
    case Create(id, req, lines, client) =>
      if id in w.cases then w else w.(cases := w.cases[id := NewCase(req, lines, client, w.now)])
    case AttachIntent(id, intent) =>
      if id !in w.cases || !w.cases[id].appt.intent.NoIntent? || w.cases[id].appt.status !in {Pending, Confirmed}
      then w
      else
        var c := w.cases[id];
        w.(cases := w.cases[id := c.(appt := c.appt.(intent := Intent(intent)))])
    case Change(id, update, actor, stripe, policy) =>
      if id !in w.cases then w
      else
        var r := TransitionCase(w.cases[id], update, actor, stripe, w.now, policy);
        if r.Success? then w.(cases := w.cases[id := r.value]) else w
    case Tick(elapsed) => w.(now := w.now + elapsed)
  }

  function Run(w: World, actions: seq<Action>): World
    decreases |actions|
  {
    if actions == [] then w else Run(Step(w, actions[0]), actions[1..])
  }

  // ---- What a transition does, field by field ------------------------------- //

  /** Who is refused, and why, in the order of the checks. */
  lemma TransitionRefusedWhen(c: Case, u: Update, actor: Actor, stripe: Stripe, now: Time, policy: RefundPolicy)
    ensures var (a, r) := (c.appt, TransitionCase(c, u, actor, stripe, now, policy));
            var involved := a.client == actor.id || a.detailer == Some(actor.id) || Admin in actor.roles;
            && (r == Failure(NotFound) <==> a.deleted)
            && (r == Failure(NotParticipant) <==> !a.deleted && !involved)
            && (r == Failure(InvalidEdge) <==>
                  !a.deleted && involved && a.status != u.status && !Edge(a.status, u.status))
            && (r == Failure(WrongRole) <==>
                  !a.deleted && involved && Edge(a.status, u.status)
                  && Admin !in actor.roles
                  && (if u.status == CancelledByClient then Client else Detailer) !in actor.roles)
            && (!a.deleted && involved && a.status == u.status ==> r == Success(c))
  {
    var a := c.appt;
    if Edge(a.status, u.status) {
      EdgesClimb(a.status, u.status);
      WhoMayAct(a.status, u.status);
      assert HoldsRole(a.status, u.status, actor) <==>
          || Admin in actor.roles
          || (if u.status == CancelledByClient then Client else Detailer) in actor.roles by {
        WhoMayActFor(a.status, u.status, actor);
      }
    }
  }

  lemma WhoMayActFor(from: Status, to: Status, actor: Actor)
    requires Edge(from, to)
    ensures HoldsRole(from, to, actor) <==>
              Admin in actor.roles || (if to == CancelledByClient then Client else Detailer) in actor.roles
  {
    WhoMayAct(from, to);
    var role := if to == CancelledByClient then Client else Detailer;
    if role in actor.roles {
      assert role in RolesFor(from, to);
    }
    if Admin in actor.roles {
      assert Admin in RolesFor(from, to);
    }
    if HoldsRole(from, to, actor) {
      var r :| r in actor.roles && r in RolesFor(from, to);
      assert r == Admin || r == role;
    }
  }

  /** What a transition writes besides money: the new status, one stamp, the final price, one history entry. */
  lemma TransitionWrites(c: Case, u: Update, actor: Actor, stripe: Stripe, now: Time, policy: RefundPolicy)
    requires c.appt.status != u.status && TransitionCase(c, u, actor, stripe, now, policy).Success?
    ensures var (a, c') := (c.appt, TransitionCase(c, u, actor, stripe, now, policy).value);
            && c'.appt.status == u.status
            && c'.appt.arrivedAt == (if u.status == Arrived then Some(now) else a.arrivedAt)
            && c'.appt.startedAt == (if u.status == InProgress then Some(now) else a.startedAt)
            && c'.appt.completedAt == (if u.status == Completed then Some(now) else a.completedAt)
            && c'.appt.actualPrice
               == (if u.status != Completed then a.actualPrice
                   else if u.actualPrice.Some? then u.actualPrice else Some(a.estimatedPrice))
            && c'.appt == a.(status := c'.appt.status, arrivedAt := c'.appt.arrivedAt, startedAt := c'.appt.startedAt,
                             completedAt := c'.appt.completedAt, actualPrice := c'.appt.actualPrice)
            && c'.lines == c.lines
            && c'.history == c.history + [HistoryEntry(Some(a.status), u.status, actor, now)]
            && (u.status !in {CancelledByClient, CancelledByDetailer} ==> c'.cancellations == c.cancellations)
            && (u.status in {CancelledByClient, CancelledByDetailer} ==>
                  && |c'.cancellations| == |c.cancellations| + 1
                  && c'.cancellations[..|c.cancellations|] == c.cancellations
                  && c'.cancellations[|c.cancellations|].actor == actor.id)
  {
  }

  /** The money of every transition but a confirmed booking's cancellation with a failed void. */
  lemma TransitionMoney(c: Case, u: Update, actor: Actor, stripe: Stripe, now: Time, policy: RefundPolicy)
    requires c.appt.status != u.status && TransitionCase(c, u, actor, stripe, now, policy).Success?
    ensures var (a, c') := (c.appt, TransitionCase(c, u, actor, stripe, now, policy).value);
            var cancels := u.status in {CancelledByClient, CancelledByDetailer};
            && (!a.intent.Intent? ==> c'.effects == c.effects)
            && (u.status == Completed && a.intent.Intent? ==>
                  c'.effects == c.effects + if stripe.captureOk
                  then [Captured(if u.actualPrice.Some? then u.actualPrice.value else a.estimatedPrice)] else [])
            && (u.status != Completed && !cancels ==> c'.effects == c.effects)
            && (cancels && a.intent.Intent? && stripe.voidOk ==> c'.effects == c.effects + [Voided])
            && (cancels && !stripe.voidOk && a.status != Confirmed ==> c'.effects == c.effects)
            && (cancels && (!a.intent.Intent? || a.status != Confirmed || stripe.voidOk) ==>
                  c'.cancellations == c.cancellations
                    + [CancellationRow(actor.id, None,
                                       if a.intent.Intent? && stripe.voidOk then AuthVoided else NoPolicy)])
  {
    EdgesClimb(c.appt.status, u.status);
  }

  /** A confirmed booking on a live intent is being cancelled, and the void has failed. */
  predicate RefundIsDue(c: Case, u: Update, actor: Actor, stripe: Stripe) {
    && !c.appt.deleted && MayTouch(c.appt, actor) && HoldsRole(c.appt.status, u.status, actor)
    && c.appt.status == Confirmed && u.status in {CancelledByClient, CancelledByDetailer}
    && c.appt.intent.Intent? && !stripe.voidOk
  }

  /** What the transition then leaves: the refund, if any, and the row that records it. */
  predicate Refunds(c: Case, c': Case, actor: Actor, cents: nat, code: PolicyCode) {
    && c'.effects == c.effects + (if cents > 0 then [Refunded(cents)] else [])
    && c'.cancellations
       == c.cancellations + [CancellationRow(actor.id, if cents > 0 then Some(cents) else None, code)]
  }

  /** At or above the full limit the whole estimate, unless Stripe refuses. */
  lemma FullWindow(c: Case, u: Update, actor: Actor, stripe: Stripe, now: Time, policy: RefundPolicy)
    requires RefundIsDue(c, u, actor, stripe)
    requires c.appt.scheduledTime - now >= policy.fullHours * HOUR
    ensures var r := TransitionCase(c, u, actor, stripe, now, policy);
            && (r.Success? <==> stripe.refundOk || c.appt.estimatedPrice == 0)
            && (r.Success? ==> Refunds(c, r.value, actor, c.appt.estimatedPrice, FullRefund))
            && (r.Failure? ==> r.error == RefundFailed)
  {
  }

  /** Below it, at or above the partial limit, the percentage of the estimate, rounded down to a cent. */
  lemma PartialWindow(c: Case, u: Update, actor: Actor, stripe: Stripe, now: Time, policy: RefundPolicy, cents: nat)
    requires RefundIsDue(c, u, actor, stripe)
    requires policy.partialHours * HOUR <= c.appt.scheduledTime - now < policy.fullHours * HOUR
    requires 100 * cents <= c.appt.estimatedPrice * policy.percent < 100 * cents + 100
    ensures var r := TransitionCase(c, u, actor, stripe, now, policy);
            && (r.Success? <==> stripe.refundOk || cents == 0)
            && (r.Success? ==> Refunds(c, r.value, actor, cents, PartialRefund))
            && (r.Failure? ==> r.error == RefundFailed)
  {
    FloorIsUnique(c.appt.estimatedPrice * policy.percent, cents);
  }

  lemma FloorIsUnique(x: nat, cents: nat)
    requires 100 * cents <= x < 100 * cents + 100
    ensures x / 100 == cents
  {
  }

  /** Below both limits nothing. */
  lemma NoRefundWindow(c: Case, u: Update, actor: Actor, stripe: Stripe, now: Time, policy: RefundPolicy)
    requires RefundIsDue(c, u, actor, stripe)
    requires c.appt.scheduledTime - now < policy.fullHours * HOUR
    requires c.appt.scheduledTime - now < policy.partialHours * HOUR
    ensures var r := TransitionCase(c, u, actor, stripe, now, policy);
            r.Success? && Refunds(c, r.value, actor, 0, NoPolicy)
  {
  }

  // ---- What every run keeps ----------------------------------------------------- //

  /** An edge its actor may take on this appointment, leading on from the previous entry. */
  predicate Follows(a: Appointment, previous: HistoryEntry, entry: HistoryEntry) {
    && entry.before == Some(previous.after)
    && HoldsRole(previous.after, entry.after, entry.actor)
    && MayTouch(a, entry.actor)
    && previous.at <= entry.at
  }

  /** The history is the path the appointment took, from nothing over Pending to its present status. */
  ghost predicate HistoryIsThePath(c: Case) {
    var h := c.history;
    && 1 <= |h| <= 5
    && h[0].before == None && h[0].after == Pending
    && (forall i :: 1 <= i < |h| ==> Follows(c.appt, h[i - 1], h[i]))
    && h[|h| - 1].after == c.appt.status
  }

  /** Entry i has climbed past rank i, which is why five entries are the most there can be. */
  ghost predicate Climbing(h: seq<HistoryEntry>, now: Time) {
    forall i :: 0 <= i < |h| ==> i < Rank(h[i].after) <= 5 && h[i].at <= now
  }

  ghost predicate TimesOrdered(a: Appointment) {
    && (a.arrivedAt.Some? && a.startedAt.Some? ==> a.arrivedAt.value <= a.startedAt.value)
    && (a.startedAt.Some? && a.completedAt.Some? ==> a.startedAt.value <= a.completedAt.value)
    && (a.completedAt.Some? ==> a.startedAt.Some?)
    && (a.completedAt.Some? <==> a.status.Completed?)
    && (a.status.Completed? <==> a.actualPrice.Some?)
  }

  /** At most one of capture, void and refund, each only where it belongs; one cancellation row that records it. */
  ghost predicate SettledOnce(c: Case) {
    && |c.effects| <= 1
    && (c.effects != [] ==>
          match c.effects[0]
          case Captured(cents) => c.appt.actualPrice == Some(cents)
          case Voided => Cancellation(c.appt.status)
          case Refunded(cents) =>
            && Cancellation(c.appt.status)
            && c.history != [] && c.history[|c.history| - 1].before == Some(Confirmed)
            && 0 < cents <= c.appt.estimatedPrice)
    && |c.cancellations| == (if Cancellation(c.appt.status) then 1 else 0)
    && (c.cancellations != [] ==>
          && c.cancellations[0].refundCents == RefundOf(c.effects)
          && (c.cancellations[0].code.AuthVoided? <==> c.effects == [Voided]))
  }

  ghost predicate Bounded(t: Option<Time>, now: Time) {
    t.Some? ==> t.value <= now
  }

  ghost predicate CaseInv(c: Case, now: Time) {
    && HistoryIsThePath(c)
    && Climbing(c.history, now)
    && TimesOrdered(c.appt)
    && SettledOnce(c)
    && (c.appt.startedAt.Some? ==> Rank(c.appt.status) >= 4)
    && (c.appt.status.InProgress? ==> c.appt.startedAt.Some?)
    && (Edge(c.appt.status, CancelledByClient) || c.appt.status.InProgress? ==> c.effects == [])
    && Bounded(c.appt.arrivedAt, now) && Bounded(c.appt.startedAt, now) && Bounded(c.appt.completedAt, now)
  }

  ghost predicate WorldInv(w: World) {
    forall id :: id in w.cases ==> CaseInv(w.cases[id], w.now)
  }

  /** Every edge of the table climbs the ranking. */
  lemma EdgesClimb(from: Status, to: Status)
    requires Edge(from, to)
    ensures Rank(from) < Rank(to) <= 5 && Rank(from) >= 1
    ensures !Terminal(from) && !from.Completed?
  {
  }

  lemma SettleEffects(a: Appointment, u: Update, stripe: Stripe, now: Time, policy: RefundPolicy)
    requires Edge(a.status, u.status) && Settle(a, u, stripe, now, policy).Success?
    ensures var s := Settle(a, u, stripe, now, policy).value;
            && |s.effects| <= 1
            && (s.code.AuthVoided? <==> s.effects == [Voided])
            && (s.effects != [] ==>
                  match s.effects[0]
                  case Captured(cents) => u.status.Completed? && Moved(a, u, now).actualPrice == Some(cents)
                  case Voided => Cancellation(u.status)
                  case Refunded(cents) =>
                    Cancellation(u.status) && a.status.Confirmed? && 0 < cents <= a.estimatedPrice)
  {
    PercentBound(a.estimatedPrice, policy.percent);
  }

  lemma TransitionKeepsHistory(c: Case, u: Update, actor: Actor, stripe: Stripe, now: Time, policy: RefundPolicy)
    requires CaseInv(c, now)
    requires c.appt.status != u.status
    requires TransitionCase(c, u, actor, stripe, now, policy).Success?
    ensures var c' := TransitionCase(c, u, actor, stripe, now, policy).value;
            HistoryIsThePath(c') && Climbing(c'.history, now)
  {
    var c' := TransitionCase(c, u, actor, stripe, now, policy).value;
    var h, h', n := c.history, c'.history, |c.history|;
    var entry := HistoryEntry(Some(c.appt.status), u.status, actor, now);
    assert h' == h + [entry];
    EdgesClimb(c.appt.status, u.status);
    assert n - 1 < Rank(h[n - 1].after);
    forall i | 1 <= i < |h'| ensures Follows(c'.appt, h'[i - 1], h'[i]) {
      if i < n {
        assert Follows(c.appt, h[i - 1], h[i]);
      } else {
        assert h'[i - 1] == h[n - 1];
      }
    }
  }

  lemma TransitionKeepsInv(c: Case, u: Update, actor: Actor, stripe: Stripe, now: Time, policy: RefundPolicy)
    requires CaseInv(c, now)
    requires TransitionCase(c, u, actor, stripe, now, policy).Success?
    ensures CaseInv(TransitionCase(c, u, actor, stripe, now, policy).value, now)
  {
    if c.appt.status != u.status {
      TransitionKeepsHistory(c, u, actor, stripe, now, policy);
      EdgesClimb(c.appt.status, u.status);
      SettleEffects(c.appt, u, stripe, now, policy);
      assert c.effects == [] && c.cancellations == [];
    }
  }

  lemma NewCaseInv(r: Booking.Request, lines: seq<Pricing.Line>, client: Actor, now: Time)
    ensures CaseInv(NewCase(r, lines, client, now), now)
  {
  }

  lemma AttachKeepsInv(c: Case, intent: Id, now: Time)
    requires CaseInv(c, now)
    ensures CaseInv(c.(appt := c.appt.(intent := Intent(intent))), now)
  {
    var c' := c.(appt := c.appt.(intent := Intent(intent)));
    forall i | 1 <= i < |c.history| ensures Follows(c'.appt, c'.history[i - 1], c'.history[i]) {
      assert Follows(c.appt, c.history[i - 1], c.history[i]);
    }
  }

  lemma TickKeepsInv(c: Case, now: Time, elapsed: nat)
    requires CaseInv(c, now)
    ensures CaseInv(c, now + elapsed)
  {
  }

  lemma OneCaseChanges(w: World, id: Id, c: Case)
    requires WorldInv(w) && CaseInv(c, w.now)
    ensures WorldInv(w.(cases := w.cases[id := c]))
  {
  }

  lemma StepKeepsInv(w: World, a: Action)
    requires WorldInv(w)
    ensures WorldInv(Step(w, a))
  {
    match a
    case Create(id, req, lines, client) =>
      NewCaseInv(req, lines, client, w.now);
      OneCaseChanges(w, id, NewCase(req, lines, client, w.now));
    case AttachIntent(id, intent) =>
      if Step(w, a) != w {
        AttachKeepsInv(w.cases[id], intent, w.now);
        OneCaseChanges(w, id, Step(w, a).cases[id]);
      }
    case Change(id, update, actor, stripe, policy) =>
      if Step(w, a) != w {
        TransitionKeepsInv(w.cases[id], update, actor, stripe, w.now, policy);
        OneCaseChanges(w, id, Step(w, a).cases[id]);
      }
    case Tick(elapsed) =>
      forall id | id in w.cases ensures CaseInv(w.cases[id], w.now + elapsed) {
        TickKeepsInv(w.cases[id], w.now, elapsed);
      }
  }

  /** An intent is attached once, while the booking is pending or confirmed, and never replaced. */
  lemma IntentIsAttachedOnce(w: World, a: Action, id: Id)
    requires id in w.cases
    ensures var (before, after) := (w.cases[id].appt, Step(w, a).cases);
            && id in after
            && (before.intent != NoIntent ==> after[id].appt.intent == before.intent)
            && (after[id].appt.intent != before.intent ==>
                  after[id].appt == before.(intent := after[id].appt.intent)
                  && after[id].appt.intent.Intent? && before.status in {Pending, Confirmed})
  {
  }

  lemma {:induction false} RunKeepsInv(w: World, actions: seq<Action>)
    requires WorldInv(w)
    ensures WorldInv(Run(w, actions))
    decreases |actions|
  {
    if actions != [] {
      StepKeepsInv(w, actions[0]);
      RunKeepsInv(Step(w, actions[0]), actions[1..]);
    }
  }

  /** Over any run from an empty database: the history is the run, the clock stamps are ordered, money settles once. */
  lemma EveryRunIsWellKept(start: Time, actions: seq<Action>, id: Id)
    requires id in Run(World(map[], start), actions).cases
    ensures var c := Run(World(map[], start), actions).cases[id];
            HistoryIsThePath(c) && TimesOrdered(c.appt) && SettledOnce(c)
  {
    RunKeepsInv(World(map[], start), actions);
  }

  // ---- The preview shown to the customer -------------------------------------------- //

  /** Cents the cancel endpoint announces before it delegates to the transition. */
  function RefundPreview(a: Appointment, now: Time, policy: RefundPolicy): nat {
    if Terminal(a.status) || a.status.Completed? then 0
    else if a.status.Pending? then a.estimatedPrice
    else TierCents(policy, a.estimatedPrice, a.scheduledTime - now)
  }

  /** What the customer is told, by status and window. */
  lemma PreviewWindows(a: Appointment, now: Time, policy: RefundPolicy)
    ensures var (until, preview) := (a.scheduledTime - now, RefundPreview(a, now, policy));
            && (a.status in {Completed, CancelledByClient, CancelledByDetailer, NoShow, NoDetailerFound} ==>
                  preview == 0)
            && (a.status == Pending ==> preview == a.estimatedPrice)
            && (a.status in {Confirmed, Arrived, InProgress, Searching} ==>
                  && (until >= policy.fullHours * HOUR ==> preview == a.estimatedPrice)
                  && (policy.partialHours * HOUR <= until < policy.fullHours * HOUR ==>
                        100 * preview <= a.estimatedPrice * policy.percent < 100 * preview + 100)
                  && (until < policy.fullHours * HOUR && until < policy.partialHours * HOUR ==> preview == 0))
  {
  }

  function RefundedCents(effects: seq<Effect>): nat {
    var r := RefundOf(effects);
    if r.Some? then r.value else 0
  }

  /**
   The preview mirrors the transition's refund exactly when it announces
   nothing, or the booking was confirmed on a real intent whose void failed.
   Otherwise it names an amount that is not refunded (the hold, if any, is
   released instead).
  */
  lemma PreviewIsExact(c: Case, actor: Actor, stripe: Stripe, now: Time, policy: RefundPolicy)
    requires CaseInv(c, now)
    requires Edge(c.appt.status, CancelledByClient)
    requires TransitionCase(c, Update(CancelledByClient, None), actor, stripe, now, policy).Success?
    ensures var refunded := RefundedCents(
                TransitionCase(c, Update(CancelledByClient, None), actor, stripe, now, policy).value.effects);
            var preview := RefundPreview(c.appt, now, policy);
            refunded == preview <==>
              preview == 0 || (c.appt.status.Confirmed? && c.appt.intent.Intent? && !stripe.voidOk)
  {
    assert c.effects == [];
  }

  /** A transition refunds only out of CONFIRMED, after the void failed, and pays exactly the tier. */
  lemma RefundIsTheTier(c: Case, u: Update, actor: Actor, stripe: Stripe, now: Time, policy: RefundPolicy, cents: nat)
    requires CaseInv(c, now) && c.effects == []
    requires TransitionCase(c, u, actor, stripe, now, policy).Success?
    ensures TransitionCase(c, u, actor, stripe, now, policy).value.effects == [Refunded(cents)] <==>
            && c.appt.status.Confirmed? && Cancellation(u.status)
            && c.appt.intent.Intent? && !stripe.voidOk
            && cents > 0 && cents == RefundPreview(c.appt, now, policy)
  {
    if c.appt.status != u.status {
      var settled := Settle(c.appt, u, stripe, now, policy).value;
      assert TransitionCase(c, u, actor, stripe, now, policy).value.effects == settled.effects;
    }
  }

  // ---- A run in which the preview is wrong --------------------------------------------- //

  lemma RunCons(w: World, a: Action, rest: seq<Action>)
    ensures Run(w, [a] + rest) == Run(Step(w, a), rest)
  {
    assert ([a] + rest)[1..] == rest;
  }

  /** A booking, paid for and confirmed at once. */
  datatype Story = Story(id: Id, req: Booking.Request, lines: seq<Pricing.Line>, client: Actor, detailer: Actor,
                         intent: Id, stripe: Stripe, policy: RefundPolicy)

  predicate Plausible(story: Story) {
    && story.client.id == story.req.client && Client in story.client.roles
    && story.detailer.id == story.req.detailer && Detailer in story.detailer.roles
  }

  function UpToConfirmed(story: Story): seq<Action> {
    [Create(story.id, story.req, story.lines, story.client), AttachIntent(story.id, story.intent),
     Change(story.id, Update(Confirmed, None), story.detailer, story.stripe, story.policy)]
  }

  function ConfirmedCase(story: Story, now: Time): Case {
    Case(Booking.NewRow(story.req).(status := Confirmed, intent := Intent(story.intent)), story.lines,
         [HistoryEntry(None, Pending, story.client, now), HistoryEntry(Some(Pending), Confirmed, story.detailer, now)],
         [], [])
  }

  lemma ConfirmedIsReachable(story: Story, now: Time, rest: seq<Action>)
    requires Plausible(story)
    ensures Run(World(map[], now), UpToConfirmed(story) + rest)
            == Run(World(map[story.id := ConfirmedCase(story, now)], now), rest)
  {
    var id := story.id;
    var c1 := NewCase(story.req, story.lines, story.client, now);
    var c2 := c1.(appt := c1.appt.(intent := Intent(story.intent)));
    var confirm := UpToConfirmed(story)[2];
    assert Step(World(map[], now), UpToConfirmed(story)[0]) == World(map[id := c1], now);
    assert map[id := c1][id := c2] == map[id := c2];
    assert Step(World(map[id := c1], now), UpToConfirmed(story)[1]) == World(map[id := c2], now);
    ConfirmingWorks(story, now);
    assert map[id := c2][id := ConfirmedCase(story, now)] == map[id := ConfirmedCase(story, now)];
    RunCons(World(map[id := c2], now), confirm, rest);
    RunCons(World(map[id := c1], now), UpToConfirmed(story)[1], [confirm] + rest);
    RunCons(World(map[], now), UpToConfirmed(story)[0], [UpToConfirmed(story)[1]] + ([confirm] + rest));
    assert UpToConfirmed(story) + rest
        == [UpToConfirmed(story)[0]] + ([UpToConfirmed(story)[1]] + ([confirm] + rest));
  }

  lemma ConfirmingWorks(story: Story, now: Time)
    requires Plausible(story)
    ensures var c := NewCase(story.req, story.lines, story.client, now);
            TransitionCase(c.(appt := c.appt.(intent := Intent(story.intent))), Update(Confirmed, None),
                           story.detailer, story.stripe, now, story.policy)
            == Success(ConfirmedCase(story, now))
  {
    assert Detailer in RolesFor(Pending, Confirmed);
    assert HoldsRole(Pending, Confirmed, story.detailer);
    var c := NewCase(story.req, story.lines, story.client, now);
    var c2 := c.(appt := c.appt.(intent := Intent(story.intent)));
    var r := TransitionCase(c2, Update(Confirmed, None), story.detailer, story.stripe, now, story.policy);
    assert MayTouch(c2.appt, story.detailer) && r.Success?;
    assert r.value.history == ConfirmedCase(story, now).history;
    assert r.value.appt == ConfirmedCase(story, now).appt;
    assert r.value.lines == story.lines && r.value.cancellations == [] && r.value.effects == [];
    assert r.value == ConfirmedCase(story, now);
  }

  /**
   From the empty database: every booking that is confirmed and then cancelled
   early, its hold released as usual, was announced a refund of its whole
   price and gets none.
  */
  lemma PreviewCanBeWrong(story: Story, now: Time)
    requires Plausible(story) && story.stripe.voidOk && story.req.price > 0
    requires story.req.start - now >= story.policy.fullHours * HOUR
    ensures var before := Run(World(map[], now), UpToConfirmed(story)).cases;
            var cancel := Change(story.id, Update(CancelledByClient, None), story.client, story.stripe, story.policy);
            var after := Run(World(map[], now), UpToConfirmed(story) + [cancel]).cases;
            && story.id in before && RefundPreview(before[story.id].appt, now, story.policy) == story.req.price
            && story.id in after && after[story.id].appt.status == CancelledByClient
            && RefundedCents(after[story.id].effects) == 0
  {
    var cancel := Change(story.id, Update(CancelledByClient, None), story.client, story.stripe, story.policy);
    ConfirmedIsReachable(story, now, []);
    assert UpToConfirmed(story) + [] == UpToConfirmed(story);
    ConfirmedIsReachable(story, now, [cancel]);
    RunCons(World(map[story.id := ConfirmedCase(story, now)], now), cancel, []);
    assert Client in RolesFor(Confirmed, CancelledByClient);
    assert HoldsRole(Confirmed, CancelledByClient, story.client);
    var r := TransitionCase(ConfirmedCase(story, now), cancel.update, story.client, story.stripe, now, story.policy);
    assert r.Success? && r.value.effects == [Voided];
  }
}
