/** The appointment service, statement by statement over its tables. */
module AppointmentService {
  import opened Support
  import opened AppointmentModel
  import opened Lifecycle
  import opened Pricing
  import opened Creation

  /** The cancel endpoint answers with a preview or with its own refusals. */
  datatype CancelError = CancelNotFound | NotTheCustomer | AlreadyTerminal | Refused(error: TransitionError)

  class Service {
    var cases: map<Id, Case>
    var now: Time

    constructor (now: Time)
      ensures cases == map[] && this.now == now
    {
      cases := map[];
      this.now := now;
    }

    /** Validates in the order the endpoint does, with its three loops. */
    method FindProblem(p: Payload, client: Actor, dir: Directory) returns (problem: Option<CreateError>)
      ensures problem == Problem(p, client, dir)
    {
      if Client !in client.roles {
        return Some(NotAClient);
      }
      if p.detailer == client.id {
        return Some(SelfBooking);
      }
      if p.detailer !in dir.activeDetailers {
        return Some(DetailerMissing);
      }
      for i := 0 to |p.vehicles|
        invariant forall k :: 0 <= k < i ==> p.vehicles[k].service in dir.services
      {
        if p.vehicles[i].service !in dir.services {
          return Some(ServiceMissing);
        }
      }
      for i := 0 to |p.vehicles|
        invariant VehicleProblem(dir, client.id, p.vehicles) == VehicleProblem(dir, client.id, p.vehicles[i..])
      {
        assert p.vehicles[i..][1..] == p.vehicles[i + 1..];
        if p.vehicles[i].vehicle !in dir.vehicles {
          return Some(VehicleMissing);
        }
        if dir.vehicles[p.vehicles[i].vehicle].owner != client.id {
          return Some(VehicleNotOwned);
        }
      }
      for i := 0 to |p.vehicles|
        invariant forall k, j :: 0 <= k < i && 0 <= j < |p.vehicles[k].addons| ==> p.vehicles[k].addons[j] in dir.addons
      {
        for j := 0 to |p.vehicles[i].addons|
          invariant forall m :: 0 <= m < j ==> p.vehicles[i].addons[m] in dir.addons
        {
          if p.vehicles[i].addons[j] !in dir.addons {
            return Some(AddonMissing);
          }
        }
      }
      return None;
    }

    /** create_appointment inside one transaction: a failure leaves every table as it was. */
    method CreateAppointment(p: Payload, client: Actor, dir: Directory, bufferMinutes: nat, newId: Id)
      returns (r: Result<Id, CreateError>)
      requires newId !in cases
      modifies this`cases
      ensures var spec := CreateSpec(old(cases), now, p, client, dir, bufferMinutes, newId);
              match spec
              case Success(cases') => r == Success(newId) && cases == cases'
              case Failure(e) => r == Failure(e) && cases == old(cases)
    {
      var problem := FindProblem(p, client, dir);
      if problem.Some? {
        return Failure(problem.value);
      }
      var entries := Entries(dir, p.vehicles);
      var totalPriceCents, totalDurationMins := BookingTotals(dir.addons, entries);
      var estimatedEnd := p.scheduledTime + totalDurationMins * MINUTE;
      var bufferEnd := estimatedEnd + bufferMinutes * MINUTE;
      var conflictCount := |Conflicts(Table(cases), p.detailer, p.scheduledTime, bufferEnd)|;
      assert bufferEnd == RequestOf(p, client, dir, bufferMinutes).end;
      if conflictCount > 0 {
        return Failure(SlotTaken);
      }
      var row := Appointment(client.id, Some(p.detailer), p.scheduledTime, Some(bufferEnd), Pending, false,
                             totalPriceCents, None, NoIntent, None, None, None);
      var lines := WriteLines(dir.addons, entries);
      if !LinesStorable(lines) {
        return Failure(RowRejected);
      }
      cases := cases[newId := Case(row, lines, [HistoryEntry(None, Pending, client, now)], [], [])];
      return Success(newId);
    }

    /** The Stripe calls of a transition: capture on completion, else void, else refund by tier. */
    method MoveMoney(before: Appointment, stamped: Appointment, u: Update, stripe: Stripe, policy: RefundPolicy)
      returns (r: Result<Settlement, TransitionError>)
      requires Edge(before.status, u.status)
      requires stamped.actualPrice == Moved(before, u, now).actualPrice
      ensures r == Settle(before, u, stripe, now, policy)
      ensures Cancellation(u.status) && before.status == Confirmed && before.intent.Intent? && !stripe.voidOk ==>
                var (until, price) := (before.scheduledTime - now, before.estimatedPrice);
                && (until >= policy.fullHours * HOUR ==>
                      r == if price == 0 then Success(Settlement([], FullRefund))
                           else if stripe.refundOk then Success(Settlement([Refunded(price)], FullRefund))
                           else Failure(RefundFailed))
                && (policy.partialHours * HOUR <= until < policy.fullHours * HOUR ==>
                      || (r == Failure(RefundFailed) && !stripe.refundOk && price * policy.percent >= 100)
                      || (r == Success(Settlement([], PartialRefund)) && price * policy.percent < 100)
                      || (&& stripe.refundOk && r.Success? && |r.value.effects| == 1
                          && r.value.code == PartialRefund && r.value.effects[0].Refunded?
                          && 0 < 100 * r.value.effects[0].cents <= price * policy.percent
                               < 100 * r.value.effects[0].cents + 100))
                && (until < policy.fullHours * HOUR && until < policy.partialHours * HOUR ==>
                      r == Success(Settlement([], NoPolicy)))
      ensures Cancellation(u.status) && before.intent.Intent? && stripe.voidOk ==>
                r == Success(Settlement([Voided], AuthVoided))
      ensures u.status == Completed && before.intent.Intent? && stripe.captureOk ==>
                r == Success(Settlement([Captured(if u.actualPrice.Some? then u.actualPrice.value
                                                  else before.estimatedPrice)], NoPolicy))
    {
      EdgesClimb(before.status, u.status);
      var live := before.intent.Intent?;
      var made: seq<Effect> := [];
      if u.status == Completed && live && stripe.captureOk {
        made := [Captured(stamped.actualPrice.value)];
      }
      var refundAmountCents: nat, code, authVoided := 0, NoPolicy, false;
      if Cancellation(u.status) && live && before.status != Completed && stripe.voidOk {
        made := [Voided];
        authVoided, code := true, AuthVoided;
      }
      if Cancellation(u.status) && !authVoided && before.status == Confirmed && live {
        var untilStart := before.scheduledTime - now;
        if untilStart >= policy.fullHours * HOUR {
          refundAmountCents, code := before.estimatedPrice, FullRefund;
        } else if untilStart >= policy.partialHours * HOUR {
          refundAmountCents, code := before.estimatedPrice * policy.percent / 100, PartialRefund;
        }
        assert refundAmountCents == TierCents(policy, before.estimatedPrice, untilStart);
        if refundAmountCents > 0 {
          if !stripe.refundOk {
            return Failure(RefundFailed);
          }
          made := [Refunded(refundAmountCents)];
        }
      }
      return Success(Settlement(made, code));
    }

    /** transition_status: stamps, money, then the status, its history and its cancellation row. */
    method TransitionStatus(id: Id, u: Update, actor: Actor, stripe: Stripe, policy: RefundPolicy)
      returns (r: Result<Case, TransitionError>)
      modifies this`cases
      ensures id !in old(cases) ==> r == Failure(NotFound) && cases == old(cases)
      ensures id in old(cases) ==>
                && r == TransitionCase(old(cases)[id], u, actor, stripe, now, policy)
                && cases == if r.Success? then old(cases)[id := r.value] else old(cases)
    {
      if id !in cases || cases[id].appt.deleted {
        return Failure(NotFound);
      }
      var appt := cases[id].appt;
      var current := appt.status;
      if !Participant(appt, actor) && Admin !in actor.roles {
        return Failure(NotParticipant);
      }
      if current == u.status {
        assert cases[id := cases[id]] == cases;
        return Success(cases[id]);
      }
      if RolesFor(current, u.status) == {} {
        return Failure(InvalidEdge);
      }
      if actor.roles * RolesFor(current, u.status) == {} {
        forall role | role in actor.roles ensures role !in RolesFor(current, u.status) {
          assert role !in actor.roles * RolesFor(current, u.status);
        }
        return Failure(WrongRole);
      }
      var role :| role in actor.roles * RolesFor(current, u.status);
      assert HoldsRole(current, u.status, actor);

      if u.status == Completed {
        appt := appt.(actualPrice := if u.actualPrice.Some? then u.actualPrice else Some(appt.estimatedPrice));
        appt := appt.(completedAt := Some(now));
      }
      if u.status == Arrived {
        appt := appt.(arrivedAt := Some(now));
      }
      if u.status == InProgress {
        appt := appt.(startedAt := Some(now));
      }

      var money := MoveMoney(cases[id].appt, appt, u, stripe, policy);
      if money.Failure? {
        return Failure(money.error);
      }
      var effects := cases[id].effects + money.value.effects;

      appt := appt.(status := u.status);
      var history := cases[id].history + [HistoryEntry(Some(current), u.status, actor, now)];
      var cancellations := cases[id].cancellations;
      if Cancellation(u.status) {
        cancellations := cancellations
                         + [CancellationRow(actor.id, RefundOf(money.value.effects), money.value.code)];
      }
      var c := Case(appt, cases[id].lines, history, cancellations, effects);
      cases := cases[id := c];
      return Success(c);
    }

    /** The customer's cancel endpoint: preview first, then the transition. */
    method CancelAppointment(id: Id, customer: Actor, stripe: Stripe, policy: RefundPolicy)
      returns (r: Result<nat, CancelError>)
      modifies this`cases
      ensures r.Success? ==>
                && id in old(cases) && id in cases
                && r.value == RefundPreview(old(cases)[id].appt, now, policy)
                && cases[id].appt.status == CancelledByClient
                && TransitionCase(old(cases)[id], Update(CancelledByClient, None), customer, stripe, now, policy)
                     == Success(cases[id])
                && cases == old(cases)[id := cases[id]]
      ensures r.Failure? ==> cases == old(cases)
      ensures r == Failure(CancelNotFound) <==> id !in old(cases) || old(cases)[id].appt.deleted
      ensures r == Failure(NotTheCustomer) <==>
                && id in old(cases) && !old(cases)[id].appt.deleted
                && old(cases)[id].appt.client != customer.id
      ensures r == Failure(AlreadyTerminal) <==>
                && id in old(cases) && !old(cases)[id].appt.deleted
                && old(cases)[id].appt.client == customer.id
                && old(cases)[id].appt.status in {CancelledByClient, CancelledByDetailer, NoShow, NoDetailerFound}
    {
      if id !in cases || cases[id].appt.deleted {
        return Failure(CancelNotFound);
      }
      if cases[id].appt.client != customer.id {
        return Failure(NotTheCustomer);
      }
      if Terminal(cases[id].appt.status) {
        return Failure(AlreadyTerminal);
      }
      var refundCents := RefundPreview(cases[id].appt, now, policy);
      var moved := TransitionStatus(id, Update(CancelledByClient, None), customer, stripe, policy);
      if moved.Failure? {
        return Failure(Refused(moved.error));
      }
      return Success(refundCents);
    }
  }
}
