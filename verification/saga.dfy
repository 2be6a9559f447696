/** The gateway's three writing workflows as functions of the services' stores: each step is
    one call, a failed step ends the workflow, and the steps already done are undone by hand,
    latest first. An outcome also lists the writes the gateway sent, in order. */
module Saga {
  import opened Calendar
  import opened Pricing
  import opened Schemas
  import opened Downstream

  datatype Outcome<T> = Outcome(stores: Stores, reply: Reply<T>, writes: seq<Write>)

  /** How each call of a create goes, and the ids the payment service and the ledger
      assign. `release` and `refund` are the compensating calls. */
  datatype CreateNet = CreateNet(
    car: Link, payment: Link, reserve: Link, ledger: Link,
    release: Link, refund: Link,
    paymentUid: PaymentId, rentalUid: RentalId)

  datatype CancelNet = CancelNet(lookup: Link, ledger: Link, release: Link, refund: Link)

  datatype FinishNet = FinishNet(lookup: Link, ledger: Link, release: Link)

  /** POST /api/v1/rental: look the car up, price the rental, charge, reserve the car,
      record the rental. */
  function CreateRental(s: Stores, user: Username, req: CreateRentalRequest, net: CreateNet): Outcome<CreateRentalResponse> {
    match GetCar(s, req.carUid, net.car)
    case None => Outcome(s, Fail(404), [])
    case Some(car) =>
      // an unparsable date raises before any write; the framework answers 500
      if !IsValid(req.dateFrom) || !IsValid(req.dateTo) then Outcome(s, Fail(500), [])
      else
        var total := TotalPrice(req.dateFrom, req.dateTo, car.price);
        var pid := net.paymentUid;
        var charged := PostPayment(s, pid, total, net.payment);
        var charge := [PaymentPost(total)];
        if charged.status != 200 then Outcome(charged.stores, Fail(500), charge)
        else
          var payment := charged.stores.payments[pid];
          var reserved := PatchAvailability(charged.stores, req.carUid, false, net.reserve);
          var reserve := charge + [AvailabilityPatch(req.carUid, false)];
          if reserved.status != 200 then
            var refunded := DeletePayment(reserved.stores, pid, net.refund);
            Outcome(refunded.stores, Fail(500), reserve + [PaymentDelete(pid)])
          else
            var booked := PostRental(reserved.stores, net.rentalUid, user, pid, req.carUid, req.dateFrom, req.dateTo, net.ledger);
            var book := reserve + [RentalPost(user, pid, req.carUid, req.dateFrom, req.dateTo)];
            if booked.status != 200 then
              var released := PatchAvailability(booked.stores, req.carUid, true, net.release);
              var refunded := DeletePayment(released.stores, pid, net.refund);
              Outcome(refunded.stores, Fail(500), book + [AvailabilityPatch(req.carUid, true), PaymentDelete(pid)])
            else
              var rental := booked.stores.rentals[net.rentalUid];
              var response := CreateRentalResponse(net.rentalUid, rental.status, req.carUid, req.dateFrom, req.dateTo,
                                                   PaymentInfo(pid, payment.status, payment.price));
              Outcome(booked.stores, Ok(response), book)
  }

  /** DELETE /api/v1/rental/{id}: look the rental up, cancel it in the ledger, then release
      the car and cancel the payment without looking at either answer. */
  function CancelRental(s: Stores, rid: RentalId, user: Username, net: CancelNet): Outcome<()> {
    match GetRental(s, rid, user, net.lookup)
    // 404 is answered as 404 and any other failure with its own status
    case Fail(code) => Outcome(s, Fail(code), [])
    case Ok(r) =>
      var canceled := DeleteRental(s, rid, user, net.ledger);
      var cancel := [RentalDelete(rid, user)];
      if canceled.status != 204 then Outcome(canceled.stores, Fail(canceled.status), cancel)
      else
        var released := PatchAvailability(canceled.stores, r.carUid, true, net.release);
        var refunded := DeletePayment(released.stores, r.paymentUid, net.refund);
        Outcome(refunded.stores, Ok(()), cancel + [AvailabilityPatch(r.carUid, true), PaymentDelete(r.paymentUid)])
  }

  /** POST /api/v1/rental/{id}/finish: look the rental up, finish it in the ledger, then
      release the car without looking at the answer. */
  function FinishRental(s: Stores, rid: RentalId, user: Username, net: FinishNet): Outcome<()> {
    match GetRental(s, rid, user, net.lookup)
    case Fail(code) => Outcome(s, Fail(code), [])
    case Ok(r) =>
      var finished := PostFinish(s, rid, user, net.ledger);
      var finish := [RentalFinishPost(rid, user)];
      if finished.status != 204 then Outcome(finished.stores, Fail(finished.status), finish)
      else
        var released := PatchAvailability(finished.stores, r.carUid, true, net.release);
        Outcome(released.stores, Ok(()), finish + [AvailabilityPatch(r.carUid, true)])
  }

  // ---- create, branch by branch

  predicate CarFound(s: Stores, req: CreateRentalRequest, net: CreateNet) {
    net.car.Up? && req.carUid in s.cars
  }

  predicate DatesValid(req: CreateRentalRequest) {
    IsValid(req.dateFrom) && IsValid(req.dateTo)
  }

  /** The price a create charges for a car the inventory has. */
  function Charge(s: Stores, req: CreateRentalRequest): int
    requires req.carUid in s.cars && DatesValid(req)
  {
    TotalPrice(req.dateFrom, req.dateTo, s.cars[req.carUid].price)
  }

  /** A car the inventory does not return: 404, and nothing is written. */
  lemma CreateCarNotFound(s: Stores, user: Username, req: CreateRentalRequest, net: CreateNet)
    requires !CarFound(s, req, net)
    ensures CreateRental(s, user, req, net) == Outcome(s, Fail(404), [])
  {
  }

  /** A date that is not a calendar date: 500 before anything is written. */
  lemma CreateInvalidDates(s: Stores, user: Username, req: CreateRentalRequest, net: CreateNet)
    requires CarFound(s, req, net) && !DatesValid(req)
    ensures CreateRental(s, user, req, net) == Outcome(s, Fail(500), [])
  {
  }

  /** The payment service fails: 500; the car and the ledger are untouched. */
  lemma CreatePaymentFailure(s: Stores, user: Username, req: CreateRentalRequest, net: CreateNet)
    requires CarFound(s, req, net) && DatesValid(req)
    requires net.payment.Down?
    ensures CreateRental(s, user, req, net) == Outcome(s, Fail(500), [PaymentPost(Charge(s, req))])
  {
  }

  /** Reserving the car fails after the charge: the payment is deleted, whether or not that
      delete succeeds the answer is 500, and no rental is recorded. */
  lemma CreateReservationFailure(s: Stores, user: Username, req: CreateRentalRequest, net: CreateNet)
    requires CarFound(s, req, net) && DatesValid(req)
    requires net.payment.Up? && net.reserve.Down?
    ensures var o := CreateRental(s, user, req, net);
      && o.reply == Fail(500)
      && o.stores.cars == s.cars
      && o.stores.rentals == s.rentals
      && o.stores.payments == s.payments[net.paymentUid := Payment(if net.refund.Up? then PaymentStatus.Canceled else Paid, Charge(s, req))]
      && o.writes == [PaymentPost(Charge(s, req)), AvailabilityPatch(req.carUid, false), PaymentDelete(net.paymentUid)]
  {
  }

  /** Recording the rental fails: the car is released first and the payment deleted after,
      the answer is 500 whatever those two calls answer, and no rental is recorded. */
  lemma CreateLedgerFailure(s: Stores, user: Username, req: CreateRentalRequest, net: CreateNet)
    requires CarFound(s, req, net) && DatesValid(req)
    requires net.payment.Up? && net.reserve.Up? && net.ledger.Down?
    ensures var o := CreateRental(s, user, req, net);
      && o.reply == Fail(500)
      && o.stores.cars == s.cars[req.carUid := s.cars[req.carUid].(available := net.release.Up?)]
      && o.stores.rentals == s.rentals
      && o.stores.payments == s.payments[net.paymentUid := Payment(if net.refund.Up? then PaymentStatus.Canceled else Paid, Charge(s, req))]
      && o.writes == [PaymentPost(Charge(s, req)), AvailabilityPatch(req.carUid, false),
                      RentalPost(user, net.paymentUid, req.carUid, req.dateFrom, req.dateTo),
                      AvailabilityPatch(req.carUid, true), PaymentDelete(net.paymentUid)]
  {
  }

  /** Every call succeeds: the car is reserved, one PAID payment of the computed total is
      recorded, and an IN_PROGRESS rental links that payment, the car, the caller and the
      dates; the answer echoes them. */
  lemma CreateSuccess(s: Stores, user: Username, req: CreateRentalRequest, net: CreateNet)
    requires CarFound(s, req, net) && DatesValid(req)
    requires net.payment.Up? && net.reserve.Up? && net.ledger.Up?
    ensures var o := CreateRental(s, user, req, net);
      && o.reply == Ok(CreateRentalResponse(net.rentalUid, InProgress, req.carUid, req.dateFrom, req.dateTo,
                                            PaymentInfo(net.paymentUid, Paid, Charge(s, req))))
      && o.stores.cars == s.cars[req.carUid := s.cars[req.carUid].(available := false)]
      && o.stores.payments == s.payments[net.paymentUid := Payment(Paid, Charge(s, req))]
      && o.stores.rentals == s.rentals[net.rentalUid := Rental(user, net.paymentUid, req.carUid, req.dateFrom, req.dateTo, InProgress)]
      && o.writes == [PaymentPost(Charge(s, req)), AvailabilityPatch(req.carUid, false),
                      RentalPost(user, net.paymentUid, req.carUid, req.dateFrom, req.dateTo)]
  {
  }

  /** A create succeeds without the car being available: the gateway never reads the
      availability flag it is about to set. */
  lemma CreateIgnoresAvailability(s: Stores, user: Username, req: CreateRentalRequest, net: CreateNet)
    requires CarFound(s, req, net) && DatesValid(req)
    requires !s.cars[req.carUid].available
    requires net.payment.Up? && net.reserve.Up? && net.ledger.Up?
    ensures CreateRental(s, user, req, net).reply.Ok?
  {
  }

  /** After a create, the ledger returns the new rental to its owner as IN_PROGRESS, with the
      car and the payment of the create. */
  lemma CreateThenGet(s: Stores, user: Username, req: CreateRentalRequest, net: CreateNet)
    requires CarFound(s, req, net) && DatesValid(req)
    requires net.payment.Up? && net.reserve.Up? && net.ledger.Up?
    ensures var o := CreateRental(s, user, req, net);
      && GetRental(o.stores, net.rentalUid, user, Up).Ok?
      && var r := GetRental(o.stores, net.rentalUid, user, Up).body;
      && r.status == InProgress && r.carUid == req.carUid && r.paymentUid == net.paymentUid
  {
  }

  // ---- cancel and finish

  /** The ledger has the rental for this user. */
  predicate Owned(s: Stores, rid: RentalId, user: Username) {
    rid in s.rentals && s.rentals[rid].username == user
  }

  /** A rental the ledger does not return for this user (missing, or another user's): 404,
      and nothing is written. */
  lemma CancelNotFound(s: Stores, rid: RentalId, user: Username, net: CancelNet)
    requires net.lookup.Up? && !Owned(s, rid, user)
    ensures CancelRental(s, rid, user, net) == Outcome(s, Fail(404), [])
  {
  }

  /** The lookup itself fails: its status is passed on, and nothing is written. */
  lemma CancelLookupFailure(s: Stores, rid: RentalId, user: Username, net: CancelNet)
    requires net.lookup.Down?
    ensures CancelRental(s, rid, user, net) == Outcome(s, Fail(net.lookup.status), [])
  {
  }

  /** The ledger refuses the cancel: its status is passed on; car and payment are untouched. */
  lemma CancelLedgerFailure(s: Stores, rid: RentalId, user: Username, net: CancelNet)
    requires net.lookup.Up? && Owned(s, rid, user) && net.ledger.Down?
    ensures CancelRental(s, rid, user, net) == Outcome(s, Fail(net.ledger.status), [RentalDelete(rid, user)])
  {
  }

  /** The ledger cancels: the answer is 204 whatever the two clean-up calls answer; the car
      is released and the payment canceled when those calls go through. */
  lemma CancelSuccess(s: Stores, rid: RentalId, user: Username, net: CancelNet)
    requires net.lookup.Up? && Owned(s, rid, user) && net.ledger.Up?
    ensures var o := CancelRental(s, rid, user, net);
      var r := s.rentals[rid];
      && o.reply == Ok(())
      && o.stores.rentals == s.rentals[rid := r.(status := RentalStatus.Canceled)]
      && o.stores.cars == (if net.release.Up? && r.carUid in s.cars
                           then s.cars[r.carUid := s.cars[r.carUid].(available := true)] else s.cars)
      && o.stores.payments == (if net.refund.Up? && r.paymentUid in s.payments
                               then s.payments[r.paymentUid := s.payments[r.paymentUid].(status := PaymentStatus.Canceled)]
                               else s.payments)
      && o.writes == [RentalDelete(rid, user), AvailabilityPatch(r.carUid, true), PaymentDelete(r.paymentUid)]
  {
  }

  lemma FinishNotFound(s: Stores, rid: RentalId, user: Username, net: FinishNet)
    requires net.lookup.Up? && !Owned(s, rid, user)
    ensures FinishRental(s, rid, user, net) == Outcome(s, Fail(404), [])
  {
  }

  lemma FinishLookupFailure(s: Stores, rid: RentalId, user: Username, net: FinishNet)
    requires net.lookup.Down?
    ensures FinishRental(s, rid, user, net) == Outcome(s, Fail(net.lookup.status), [])
  {
  }

  lemma FinishLedgerFailure(s: Stores, rid: RentalId, user: Username, net: FinishNet)
    requires net.lookup.Up? && Owned(s, rid, user) && net.ledger.Down?
    ensures FinishRental(s, rid, user, net) == Outcome(s, Fail(net.ledger.status), [RentalFinishPost(rid, user)])
  {
  }

  /** The ledger finishes: 204; the car is released when that call goes through, and the
      payment is never touched. */
  lemma FinishSuccess(s: Stores, rid: RentalId, user: Username, net: FinishNet)
    requires net.lookup.Up? && Owned(s, rid, user) && net.ledger.Up?
    ensures var o := FinishRental(s, rid, user, net);
      var r := s.rentals[rid];
      && o.reply == Ok(())
      && o.stores.rentals == s.rentals[rid := r.(status := Finished)]
      && o.stores.cars == (if net.release.Up? && r.carUid in s.cars
                           then s.cars[r.carUid := s.cars[r.carUid].(available := true)] else s.cars)
      && o.stores.payments == s.payments
      && o.writes == [RentalFinishPost(rid, user), AvailabilityPatch(r.carUid, true)]
  {
  }

  /** A created rental, canceled with every call going through, is CANCELED, its car is
      available again and its payment is CANCELED. */
  lemma {:induction false} CreateThenCancel(s: Stores, user: Username, req: CreateRentalRequest, net: CreateNet, net': CancelNet)
    requires CarFound(s, req, net) && DatesValid(req)
    requires net.payment.Up? && net.reserve.Up? && net.ledger.Up?
    requires net' == CancelNet(Up, Up, Up, Up)
    ensures var o := CreateRental(s, user, req, net);
      var c := CancelRental(o.stores, net.rentalUid, user, net');
      && c.reply == Ok(())
      && c.stores.rentals[net.rentalUid].status == RentalStatus.Canceled
      && c.stores.cars[req.carUid].available
      && c.stores.payments[net.paymentUid].status == PaymentStatus.Canceled
  {
    CreateSuccess(s, user, req, net);
    var o := CreateRental(s, user, req, net);
    CancelSuccess(o.stores, net.rentalUid, user, net');
  }

  /** A created rental, finished with every call going through, is FINISHED and reads back
      so, its car is available again and its payment stays PAID. */
  lemma {:induction false} CreateThenFinish(s: Stores, user: Username, req: CreateRentalRequest, net: CreateNet, net': FinishNet)
    requires CarFound(s, req, net) && DatesValid(req)
    requires net.payment.Up? && net.reserve.Up? && net.ledger.Up?
    requires net' == FinishNet(Up, Up, Up)
    ensures var o := CreateRental(s, user, req, net);
      var f := FinishRental(o.stores, net.rentalUid, user, net');
      && f.reply == Ok(())
      && GetRental(f.stores, net.rentalUid, user, Up).Ok?
      && GetRental(f.stores, net.rentalUid, user, Up).body.status == Finished
      && f.stores.cars[req.carUid].available
      && f.stores.payments[net.paymentUid].status == Paid
  {
    CreateSuccess(s, user, req, net);
    var o := CreateRental(s, user, req, net);
    FinishSuccess(o.stores, net.rentalUid, user, net');
  }
}
