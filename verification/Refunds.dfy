/**
 Refunds an administrator issues by hand, beside the refund that a
 cancellation may pay on its own.
*/
module Refunds {
  import opened Support
  import opened AppointmentModel
  import L = Lifecycle

  datatype RefundStatus = Succeeded | Waiting | Failed

  datatype Refund = Refund(appt: Id, cents: nat, status: RefundStatus)

  /** Whether Stripe issues the refund or raises. */
  datatype Answer = Issued | Raises

  datatype Error = NoSuchAppointment | NoPayment | CapExceeded | StripeError | ConstraintViolated

  /** The cap: the price after completion, or the estimate while there is none; a zero price counts as none. */
  function Cap(a: Appointment): nat {
    if a.actualPrice.Some? && a.actualPrice.value > 0 then a.actualPrice.value else a.estimatedPrice
  }

  /** Cents of the refund rows of one appointment that have not failed. */
  function Total(refunds: seq<Refund>, id: Id): nat
    decreases |refunds|
  {
    if refunds == [] then 0
    else
      var r := refunds[|refunds| - 1];
      Total(refunds[..|refunds| - 1], id) + if r.appt == id && !r.status.Failed? then r.cents else 0
  }

  /** The row a request leads to; Stripe is only asked for a positive amount on a real intent. */
  function Issue(cases: map<Id, L.Case>, refunds: seq<Refund>, id: Id, cents: int, answer: Answer)
    : Result<Refund, Error>
  {
    if id !in cases || cases[id].appt.deleted then Failure(NoSuchAppointment)
    else if cases[id].appt.intent.NoIntent? then Failure(NoPayment)
    else if Total(refunds, id) + cents > Cap(cases[id].appt) then Failure(CapExceeded)
    else if cents < 0 then Failure(ConstraintViolated)
    else if cents == 0 then Success(Refund(id, 0, Waiting))
    else if answer.Raises? && cases[id].appt.intent.Intent? then Failure(StripeError)
    else Success(Refund(id, cents, Succeeded))
  }

  /** Every answer to a request, condition by condition. */
  lemma AnsweredWhen(cases: map<Id, L.Case>, refunds: seq<Refund>, id: Id, cents: int, answer: Answer)
    ensures Issue(cases, refunds, id, cents, answer) == Failure(NoSuchAppointment) <==>
              id !in cases || cases[id].appt.deleted
    ensures id in cases && !cases[id].appt.deleted ==>
              var (a, r) := (cases[id].appt, Issue(cases, refunds, id, cents, answer));
              var cap := if a.actualPrice == None || a.actualPrice == Some(0) then a.estimatedPrice
                         else a.actualPrice.value;
              && (r == Failure(NoPayment) <==> a.intent == NoIntent)
              && (a.intent != NoIntent ==>
                    && (r == Failure(CapExceeded) <==> Total(refunds, id) + cents > cap)
                    && (Total(refunds, id) + cents <= cap ==>
                          && (cents < 0 <==> r == Failure(ConstraintViolated))
                          && (cents == 0 ==> r == Success(Refund(id, 0, Waiting)))
                          && (cents > 0 && answer == Raises && a.intent.Intent? ==> r == Failure(StripeError))
                          && (cents > 0 && (answer == Issued || a.intent == NoPayStub) ==>
                                r == Success(Refund(id, cents, Succeeded)))))
  {
  }

  // ---- Runs ------------------------------------------------------------------ //

  datatype State = State(world: L.World, refunds: seq<Refund>)

  datatype Action =
    | Appointments(action: L.Action)
    | AdminRefund(id: Id, cents: int, answer: Answer)
    | MarkFailed(index: nat)

  function Step(s: State, a: Action): State {
    match a
    case Appointments(action) => s.(world := L.Step(s.world, action))
    case AdminRefund(id, cents, answer) =>
      var r := Issue(s.world.cases, s.refunds, id, cents, answer);
      if r.Success? then s.(refunds := s.refunds + [r.value]) else s
    case MarkFailed(i) =>
      if i < |s.refunds| then s.(refunds := s.refunds[i := s.refunds[i].(status := Failed)]) else s
  }

  function Run(s: State, actions: seq<Action>): State
    decreases |actions|
  {
    if actions == [] then s else Step(Run(s, actions[..|actions| - 1]), actions[|actions| - 1])
  }

  function Empty(now: Time): State {
    State(L.World(map[], now), [])
  }

  // ---- The cap over runs -------------------------------------------------------- //

  /** The larger of the two prices an appointment can have had. */
  function Ceiling(a: Appointment): nat {
    Max(a.estimatedPrice, if a.actualPrice.Some? then a.actualPrice.value else 0)
  }

  ghost predicate Capped(cases: map<Id, L.Case>, refunds: seq<Refund>) {
    && (forall id :: id in cases ==> Total(refunds, id) <= Ceiling(cases[id].appt))
    && (forall id :: id !in cases ==> Total(refunds, id) == 0)
  }

  ghost predicate Inv(s: State) {
    L.WorldInv(s.world) && Capped(s.world.cases, s.refunds)
  }

  lemma TotalOfOneMore(refunds: seq<Refund>, r: Refund, id: Id)
    ensures Total(refunds + [r], id)
            == Total(refunds, id) + if r.appt == id && !r.status.Failed? then r.cents else 0
  {
    assert (refunds + [r])[..|refunds|] == refunds;
  }

  lemma {:induction false} FailingLowersTotal(refunds: seq<Refund>, i: nat, id: Id)
    requires i < |refunds|
    ensures Total(refunds[i := refunds[i].(status := Failed)], id) <= Total(refunds, id)
    decreases |refunds|
  {
    var after, n := refunds[i := refunds[i].(status := Failed)], |refunds| - 1;
    if i == n {
      assert after[..n] == refunds[..n];
    } else {
      assert after[..n] == refunds[..n][i := refunds[i].(status := Failed)];
      FailingLowersTotal(refunds[..n], i, id);
    }
  }

  lemma TransitionRaisesCeiling(c: L.Case, u: L.Update, actor: L.Actor, stripe: L.Stripe, now: Time,
                                policy: L.RefundPolicy)
    requires L.CaseInv(c, now) && L.TransitionCase(c, u, actor, stripe, now, policy).Success?
    ensures var after := L.TransitionCase(c, u, actor, stripe, now, policy).value.appt;
            && Ceiling(c.appt) <= Ceiling(after) && after.estimatedPrice == c.appt.estimatedPrice
            && (c.appt.actualPrice.Some? ==> after.actualPrice == c.appt.actualPrice)
  {
    if c.appt.status != u.status {
      L.EdgesClimb(c.appt.status, u.status);
      assert c.appt.actualPrice.None?;
    }
  }

  /** Nothing lowers the ceiling: the estimate is fixed and the final price is set once. */
  lemma CeilingOnlyRises(w: L.World, a: L.Action, id: Id)
    requires L.WorldInv(w) && id in w.cases
    ensures var w' := L.Step(w, a);
            && id in w'.cases && Ceiling(w.cases[id].appt) <= Ceiling(w'.cases[id].appt)
            && w'.cases[id].appt.estimatedPrice == w.cases[id].appt.estimatedPrice
            && (w.cases[id].appt.actualPrice.Some? ==>
                  w'.cases[id].appt.actualPrice == w.cases[id].appt.actualPrice)
  {
    if a.Change? && a.id == id
       && L.TransitionCase(w.cases[id], a.update, a.actor, a.stripe, w.now, a.policy).Success? {
      TransitionRaisesCeiling(w.cases[id], a.update, a.actor, a.stripe, w.now, a.policy);
    }
  }

  lemma AppointmentStepKeepsInv(s: State, a: L.Action)
    requires Inv(s)
    ensures Inv(Step(s, Appointments(a)))
  {
    L.StepKeepsInv(s.world, a);
    var after := L.Step(s.world, a);
    forall id | id in s.world.cases
      ensures id in after.cases && Ceiling(s.world.cases[id].appt) <= Ceiling(after.cases[id].appt)
    {
      CeilingOnlyRises(s.world, a, id);
    }
  }

  lemma RefundKeepsCapped(cases: map<Id, L.Case>, refunds: seq<Refund>, id: Id, cents: int, answer: Answer)
    requires Capped(cases, refunds) && Issue(cases, refunds, id, cents, answer).Success?
    ensures Capped(cases, refunds + [Issue(cases, refunds, id, cents, answer).value])
  {
    var row := Issue(cases, refunds, id, cents, answer).value;
    forall i ensures Total(refunds + [row], i) == Total(refunds, i) + if i == id then row.cents else 0 {
      TotalOfOneMore(refunds, row, i);
    }
  }

  lemma FailureKeepsCapped(cases: map<Id, L.Case>, refunds: seq<Refund>, i: nat)
    requires Capped(cases, refunds) && i < |refunds|
    ensures Capped(cases, refunds[i := refunds[i].(status := Failed)])
  {
    forall id ensures Total(refunds[i := refunds[i].(status := Failed)], id) <= Total(refunds, id) {
      FailingLowersTotal(refunds, i, id);
    }
  }

  lemma StepKeepsInv(s: State, a: Action)
    requires Inv(s)
    ensures Inv(Step(s, a))
  {
    match a
    case Appointments(action) => AppointmentStepKeepsInv(s, action);
    case AdminRefund(id, cents, answer) =>
      if Issue(s.world.cases, s.refunds, id, cents, answer).Success? {
        RefundKeepsCapped(s.world.cases, s.refunds, id, cents, answer);
      }
    case MarkFailed(i) =>
      if i < |s.refunds| {
        FailureKeepsCapped(s.world.cases, s.refunds, i);
      }
  }

  lemma {:induction false} RunKeepsInv(s: State, actions: seq<Action>)
    requires Inv(s)
    ensures Inv(Run(s, actions))
    decreases |actions|
  {
    if actions != [] {
      RunKeepsInv(s, actions[..|actions| - 1]);
      StepKeepsInv(Run(s, actions[..|actions| - 1]), actions[|actions| - 1]);
    }
  }

  /**
   Through any run of bookings, transitions and refund requests, refund rows
   that have not failed never add up to more than the larger of the estimate
   and the final price, though the cap itself may fall at completion.
  */
  lemma RefundsStayWithinThePrice(start: Time, actions: seq<Action>, id: Id)
    ensures var s := Run(Empty(start), actions);
            && (id !in s.world.cases ==> Total(s.refunds, id) == 0)
            && (id in s.world.cases ==>
                  || Total(s.refunds, id) <= s.world.cases[id].appt.estimatedPrice
                  || (s.world.cases[id].appt.actualPrice.Some?
                      && Total(s.refunds, id) <= s.world.cases[id].appt.actualPrice.value))
  {
    RunKeepsInv(Empty(start), actions);
  }

  lemma PricedIffCompleted(start: Time, actions: seq<Action>, id: Id)
    ensures var cases := Run(Empty(start), actions).world.cases;
            id in cases ==> (cases[id].appt.status.Completed? <==> cases[id].appt.actualPrice.Some?)
  {
    RunKeepsInv(Empty(start), actions);
    var s := Run(Empty(start), actions);
    assert id in s.world.cases ==> L.CaseInv(s.world.cases[id], s.world.now);
  }

  /** What the cap amounts to over any run: the final price once completed, unless it is zero, and else the estimate. */
  lemma AcceptedWhen(start: Time, actions: seq<Action>, id: Id, cents: int)
    requires cents > 0
    ensures var s := Run(Empty(start), actions);
            Issue(s.world.cases, s.refunds, id, cents, Issued).Success? <==>
              && id in s.world.cases
              && var a := s.world.cases[id].appt;
                 && !a.deleted && !a.intent.NoIntent?
                 && if a.status.Completed? && a.actualPrice != Some(0)
                    then a.actualPrice.Some? && Total(s.refunds, id) + cents <= a.actualPrice.value
                    else Total(s.refunds, id) + cents <= a.estimatedPrice
  {
    PricedIffCompleted(start, actions, id);
  }

  // ---- Together with the refund of a cancellation ------------------------------------ //

  /** Everything the customer got back: refund rows and the cancellation's own refund. */
  function PaidBack(s: State, id: Id): nat
    requires id in s.world.cases
  {
    Total(s.refunds, id) + L.RefundedCents(s.world.cases[id].effects)
  }

  /** Over any run: the two kinds of refund together, bounded separately but not jointly. */
  lemma PaidBackBound(start: Time, actions: seq<Action>, id: Id)
    requires id in Run(Empty(start), actions).world.cases
    ensures var s := Run(Empty(start), actions);
            var c := s.world.cases[id];
            && (L.RefundedCents(c.effects) == 0 ==>
                  || PaidBack(s, id) <= c.appt.estimatedPrice
                  || (c.appt.actualPrice.Some? && PaidBack(s, id) <= c.appt.actualPrice.value))
            && (L.RefundedCents(c.effects) > 0 ==>
                  Cancellation(c.appt.status) && PaidBack(s, id) <= 2 * c.appt.estimatedPrice)
  {
    RunKeepsInv(Empty(start), actions);
    var s := Run(Empty(start), actions);
    assert L.CaseInv(s.world.cases[id], s.world.now);
  }

  /**
   A cancellation writes no refund row, so the cap does not see what it paid.
   Every request the cap lets through keeps the customer within the cap if and
   only if the cancellation paid nothing, or the rows have used the cap up.
  */
  lemma CapMissesTheCancellation(s: State, id: Id)
    requires id in s.world.cases && !s.world.cases[id].appt.deleted && !s.world.cases[id].appt.intent.NoIntent?
    ensures var c := s.world.cases[id];
            (forall cents :: cents > 0 && Issue(s.world.cases, s.refunds, id, cents, Issued).Success? ==>
              PaidBack(s, id) + cents <= Cap(c.appt))
            <==> L.RefundedCents(c.effects) == 0 || Total(s.refunds, id) >= Cap(c.appt)
  {
    var c := s.world.cases[id];
    var left := Cap(c.appt) - Total(s.refunds, id);
    if left > 0 {
      assert Issue(s.world.cases, s.refunds, id, left, Issued).Success?;
    }
  }

  /** Early enough, with the void refused, a customer's cancellation refunds the whole estimate. */
  predicate RefundsInFull(c: L.Case, client: L.Actor, stripe: L.Stripe, now: Time, policy: L.RefundPolicy) {
    && c.appt.status.Confirmed? && !c.appt.deleted && c.appt.intent.Intent?
    && c.appt.estimatedPrice > 0 && c.appt.actualPrice.None?
    && c.appt.client == client.id && Client in client.roles
    && c.appt.scheduledTime - now >= policy.fullHours * HOUR
    && !stripe.voidOk && stripe.refundOk
    && c.effects == []
  }

  lemma CancelledInFull(c: L.Case, client: L.Actor, stripe: L.Stripe, now: Time, policy: L.RefundPolicy)
    requires RefundsInFull(c, client, stripe, now, policy)
    ensures var r := L.TransitionCase(c, L.Update(CancelledByClient, None), client, stripe, now, policy);
            && r.Success? && r.value.appt == c.appt.(status := CancelledByClient)
            && r.value.effects == [L.Refunded(c.appt.estimatedPrice)]
  {
    assert Client in RolesFor(Confirmed, CancelledByClient);
    assert L.HoldsRole(Confirmed, CancelledByClient, client);
  }

  /** Refunded by hand after that, the customer is paid the price twice. */
  lemma CancelledThenRefundedTwice(s: State, id: Id, client: L.Actor, stripe: L.Stripe, policy: L.RefundPolicy)
    requires id in s.world.cases && RefundsInFull(s.world.cases[id], client, stripe, s.world.now, policy)
    requires Total(s.refunds, id) == 0
    ensures var price := s.world.cases[id].appt.estimatedPrice;
            var cancel := Appointments(L.Change(id, L.Update(CancelledByClient, None), client, stripe, policy));
            var end := Step(Step(s, cancel), AdminRefund(id, price, Issued));
            id in end.world.cases && PaidBack(end, id) == 2 * price
  {
    CancelledInFull(s.world.cases[id], client, stripe, s.world.now, policy);
    TotalOfOneMore(s.refunds, Refund(id, s.world.cases[id].appt.estimatedPrice, Succeeded), id);
  }

  lemma {:induction false} AppointmentRun(w: L.World, actions: seq<L.Action>)
    ensures Run(State(w, []), Lifted(actions)) == State(L.Run(w, actions), [])
    decreases |actions|
  {
    if actions != [] {
      var n := |actions| - 1;
      AppointmentRun(w, actions[..n]);
      assert Lifted(actions)[..n] == Lifted(actions[..n]);
      LastStep(w, actions);
    }
  }

  function Lifted(actions: seq<L.Action>): seq<Action> {
    seq(|actions|, i requires 0 <= i < |actions| => Appointments(actions[i]))
  }

  lemma {:induction false} LastStep(w: L.World, actions: seq<L.Action>)
    requires actions != []
    ensures L.Run(w, actions) == L.Step(L.Run(w, actions[..|actions| - 1]), actions[|actions| - 1])
    decreases |actions|
  {
    if |actions| > 1 {
      LastStep(L.Step(w, actions[0]), actions[1..]);
      assert actions[1..][..|actions| - 2] == actions[..|actions| - 1][1..];
    } else {
      assert actions[..0] == [] && actions[1..] == [];
    }
  }

  /** Book, confirm, cancel early with the void refused, refund by hand: the price is paid back twice. */
  lemma PaidBackTwice(story: L.Story, now: Time)
    requires L.Plausible(story) && !story.stripe.voidOk && story.stripe.refundOk && story.req.price > 0
    requires story.req.start - now >= story.policy.fullHours * HOUR
    ensures var u := L.Update(CancelledByClient, None);
            var cancel := L.Change(story.id, u, story.client, story.stripe, story.policy);
            var end := Run(Empty(now), Lifted(L.UpToConfirmed(story))
                                       + [Appointments(cancel), AdminRefund(story.id, story.req.price, Issued)]);
            story.id in end.world.cases && PaidBack(end, story.id) == 2 * story.req.price
  {
    var cancel := L.Change(story.id, L.Update(CancelledByClient, None), story.client, story.stripe, story.policy);
    var refund := AdminRefund(story.id, story.req.price, Issued);
    var start := Lifted(L.UpToConfirmed(story));
    AppointmentRun(L.World(map[], now), L.UpToConfirmed(story));
    L.ConfirmedIsReachable(story, now, []);
    assert L.UpToConfirmed(story) + [] == L.UpToConfirmed(story);
    var s := Run(Empty(now), start);
    assert s == State(L.World(map[story.id := L.ConfirmedCase(story, now)], now), []);
    CancelledThenRefundedTwice(s, story.id, story.client, story.stripe, story.policy);
    var all := start + [Appointments(cancel), refund];
    assert all[..|all| - 1] == start + [Appointments(cancel)];
    assert (start + [Appointments(cancel)])[..|start|] == start;
  }

  // ---- The repository -------------------------------------------------------------------- //

  datatype AuditRow =
    | IntentRefunded(intent: Intent, cents: nat)
    | AppointmentRefunded(appt: Id, cents: nat, prior: nat)

  class AdminRepository {
    var world: L.World
    var refunds: seq<Refund>
    var audit: seq<AuditRow>

    constructor (world: L.World)
      ensures this.world == world && refunds == [] && audit == []
    {
      this.world, refunds, audit := world, [], [];
    }

    ghost function Model(): State
      reads this
    {
      State(world, refunds)
    }

    /** refund_appointment: one refund row and its audit rows, or nothing at all. */
    method RefundAppointment(id: Id, cents: int, answer: Answer) returns (r: Result<Refund, Error>)
      modifies this`refunds, this`audit
      ensures r == Issue(world.cases, old(refunds), id, cents, answer)
      ensures Model() == Step(old(Model()), AdminRefund(id, cents, answer))
      ensures r.Failure? ==> audit == old(audit)
      ensures r.Success? ==>
                audit == old(audit)
                  + (if cents > 0 then [IntentRefunded(world.cases[id].appt.intent, cents)] else [])
                  + [AppointmentRefunded(id, cents, Total(old(refunds), id))]
    {
      if id !in world.cases || world.cases[id].appt.deleted {
        return Failure(NoSuchAppointment);
      }
      var appt := world.cases[id].appt;
      if appt.intent.NoIntent? {
        return Failure(NoPayment);
      }
      var prior := Total(refunds, id);
      if prior + cents > Cap(appt) {
        return Failure(CapExceeded);
      }
      var status := Waiting;
      var log := audit;
      if cents > 0 {
        if answer.Raises? && appt.intent.Intent? {
          return Failure(StripeError);
        }
        status := Succeeded;
        log := log + [IntentRefunded(appt.intent, cents)];
      }
      if cents < 0 {
        return Failure(ConstraintViolated);
      }
      var row := Refund(id, cents, status);
      refunds := refunds + [row];
      audit := log + [AppointmentRefunded(id, cents, prior)];
      return Success(row);
    }
  }
}
