/** The gateway's handlers, run step by step against the three services' stores. Each
    state-changing call is a method that updates the store it reaches and logs the request;
    each workflow method is proved to do what the matching function of Saga says, and the
    read paths are proved against Enrichment.View. */
module GatewayService {
  import opened Calendar
  import opened Pricing
  import opened Schemas
  import opened Downstream
  import opened Enrichment
  import Saga

  /** How the calls of GET /api/v1/rental/{id} go. */
  datatype LookupNet = LookupNet(ledger: Link, car: Link, payment: Link)

  /** How the calls of GET /api/v1/rental go: the ledger's order over rental ids, and how
      the car and payment lookups for the k-th listed rental go. */
  datatype ListNet = ListNet(ledger: Link, order: seq<RentalId>, car: nat -> Link, payment: nat -> Link)

  /** One listed rental of the ledger, enriched with the car and payment lookups made for it. */
  function EntryView(s: Stores, entry: (RentalId, Rental), car: Link, payment: Link): RentalView {
    View(entry.0, entry.1, GetCar(s, entry.1.carUid, car), GetPayment(s, entry.1.paymentUid, payment))
  }

  /** The loop of GET /api/v1/rental: each listed rental in turn, enriched with the k-th
      car and payment lookups. */
  method EnrichAll(s: Stores, listed: seq<(RentalId, Rental)>, car: nat -> Link, payment: nat -> Link)
    returns (views: seq<RentalView>)
    ensures |views| == |listed|
    ensures forall k :: 0 <= k < |listed| ==> views[k] == EntryView(s, listed[k], car(k), payment(k))
  {
    views := [];
    for k := 0 to |listed|
      invariant |views| == k
      invariant forall j :: 0 <= j < k ==> views[j] == EntryView(s, listed[j], car(j), payment(j))
    {
      var (uid, rental) := listed[k];
      var found := GetCar(s, rental.carUid, car(k));
      var paid := GetPayment(s, rental.paymentUid, payment(k));
      views := views + [View(uid, rental, found, paid)];
    }
  }

  class Gateway {
    var cars: map<CarId, Car>
    var payments: map<PaymentId, Payment>
    var rentals: map<RentalId, Rental>
    /** Every write sent downstream so far, oldest first. */
    ghost var sent: seq<Write>

    function State(): Stores
      reads this
    {
      Stores(cars, payments, rentals)
    }

    constructor (s: Stores)
      ensures State() == s && sent == []
    {
      cars, payments, rentals := s.cars, s.payments, s.rentals;
      sent := [];
    }

    // ---- state-changing calls to the services

    method PatchAvailability(id: CarId, available: bool, link: Link) returns (status: int)
      modifies this
      ensures Effect(State(), status) == Downstream.PatchAvailability(old(State()), id, available, link)
      ensures sent == old(sent) + [AvailabilityPatch(id, available)]
    {
      sent := sent + [AvailabilityPatch(id, available)];
      match link
      case Down(code) => status := code;
      case Up =>
        if id in cars {
          cars := cars[id := cars[id].(available := available)];
          status := 200;
        } else {
          status := 404;
        }
    }

    method PostPayment(pid: PaymentId, price: int, link: Link) returns (status: int)
      modifies this
      ensures Effect(State(), status) == Downstream.PostPayment(old(State()), pid, price, link)
      ensures sent == old(sent) + [PaymentPost(price)]
    {
      sent := sent + [PaymentPost(price)];
      match link
      case Down(code) => status := code;
      case Up =>
        payments := payments[pid := Payment(Paid, price)];
        status := 200;
    }

    method DeletePayment(pid: PaymentId, link: Link) returns (status: int)
      modifies this
      ensures Effect(State(), status) == Downstream.DeletePayment(old(State()), pid, link)
      ensures sent == old(sent) + [PaymentDelete(pid)]
    {
      sent := sent + [PaymentDelete(pid)];
      match link
      case Down(code) => status := code;
      case Up =>
        if pid in payments {
          payments := payments[pid := payments[pid].(status := PaymentStatus.Canceled)];
          status := 204;
        } else {
          status := 404;
        }
    }

    method PostRental(rid: RentalId, user: Username, pid: PaymentId, car: CarId, from: Date, to: Date, link: Link)
      returns (status: int)
      modifies this
      ensures Effect(State(), status) == Downstream.PostRental(old(State()), rid, user, pid, car, from, to, link)
      ensures sent == old(sent) + [RentalPost(user, pid, car, from, to)]
    {
      sent := sent + [RentalPost(user, pid, car, from, to)];
      match link
      case Down(code) => status := code;
      case Up =>
        rentals := rentals[rid := Rental(user, pid, car, from, to, InProgress)];
        status := 200;
    }

    /** The ledger moving a rental of `user` to `target`. */
    method Transition(rid: RentalId, user: Username, target: RentalStatus, link: Link) returns (status: int)
      modifies this
      ensures Effect(State(), status) == Downstream.Transition(old(State()), rid, user, target, link)
      ensures sent == old(sent)
    {
      match link
      case Down(code) => status := code;
      case Up =>
        if rid in rentals && rentals[rid].username == user {
          rentals := rentals[rid := rentals[rid].(status := target)];
          status := 204;
        } else {
          status := 404;
        }
    }

    method DeleteRental(rid: RentalId, user: Username, link: Link) returns (status: int)
      modifies this
      ensures Effect(State(), status) == Downstream.DeleteRental(old(State()), rid, user, link)
      ensures sent == old(sent) + [RentalDelete(rid, user)]
    {
      sent := sent + [RentalDelete(rid, user)];
      status := Transition(rid, user, RentalStatus.Canceled, link);
    }

    method PostFinish(rid: RentalId, user: Username, link: Link) returns (status: int)
      modifies this
      ensures Effect(State(), status) == Downstream.PostFinish(old(State()), rid, user, link)
      ensures sent == old(sent) + [RentalFinishPost(rid, user)]
    {
      sent := sent + [RentalFinishPost(rid, user)];
      status := Transition(rid, user, Finished, link);
    }

    // ---- the workflows

    /** POST /api/v1/rental. */
    method CreateRental(user: Username, req: CreateRentalRequest, net: Saga.CreateNet)
      returns (reply: Reply<CreateRentalResponse>)
      modifies this
      ensures var o := Saga.CreateRental(old(State()), user, req, net);
        State() == o.stores && reply == o.reply && sent == old(sent) + o.writes
    {
      var car := GetCar(State(), req.carUid, net.car);
      if car.None? {
        return Fail(404);
      }
      if !IsValid(req.dateFrom) || !IsValid(req.dateTo) {
        return Fail(500);
      }
      var total := TotalPrice(req.dateFrom, req.dateTo, car.value.price);

      var status := PostPayment(net.paymentUid, total, net.payment);
      if status != 200 {
        return Fail(500);
      }
      var payment := payments[net.paymentUid];

      status := PatchAvailability(req.carUid, false, net.reserve);
      if status != 200 {
        // undo the charge; the answer is not looked at
        var _ := DeletePayment(net.paymentUid, net.refund);
        return Fail(500);
      }

      status := PostRental(net.rentalUid, user, net.paymentUid, req.carUid, req.dateFrom, req.dateTo, net.ledger);
      if status != 200 {
        // undo the reservation, then the charge; the answers are not looked at
        var _ := PatchAvailability(req.carUid, true, net.release);
        var _ := DeletePayment(net.paymentUid, net.refund);
        return Fail(500);
      }
      var rental := rentals[net.rentalUid];
      reply := Ok(CreateRentalResponse(net.rentalUid, rental.status, req.carUid, req.dateFrom, req.dateTo,
                                       PaymentInfo(net.paymentUid, payment.status, payment.price)));
    }

    /** DELETE /api/v1/rental/{id}. */
    method CancelRental(rid: RentalId, user: Username, net: Saga.CancelNet) returns (reply: Reply<()>)
      modifies this
      ensures var o := Saga.CancelRental(old(State()), rid, user, net);
        State() == o.stores && reply == o.reply && sent == old(sent) + o.writes
    {
      var lookup := Downstream.GetRental(State(), rid, user, net.lookup);
      if lookup.Fail? && lookup.status == 404 {
        return Fail(404);
      }
      if lookup.Fail? {
        return Fail(lookup.status);
      }
      var rental := lookup.body;

      var status := DeleteRental(rid, user, net.ledger);
      if status != 204 {
        return Fail(status);
      }
      // release the car and cancel the payment; the answers are not looked at
      var _ := PatchAvailability(rental.carUid, true, net.release);
      var _ := DeletePayment(rental.paymentUid, net.refund);
      reply := Ok(());
    }

    /** POST /api/v1/rental/{id}/finish. */
    method FinishRental(rid: RentalId, user: Username, net: Saga.FinishNet) returns (reply: Reply<()>)
      modifies this
      ensures var o := Saga.FinishRental(old(State()), rid, user, net);
        State() == o.stores && reply == o.reply && sent == old(sent) + o.writes
    {
      var lookup := Downstream.GetRental(State(), rid, user, net.lookup);
      if lookup.Fail? && lookup.status == 404 {
        return Fail(404);
      }
      if lookup.Fail? {
        return Fail(lookup.status);
      }
      var rental := lookup.body;

      var status := PostFinish(rid, user, net.ledger);
      if status != 204 {
        return Fail(status);
      }
      // release the car; the answer is not looked at
      var _ := PatchAvailability(rental.carUid, true, net.release);
      reply := Ok(());
    }

    /** GET /api/v1/rental/{id}: the rental of `user`, enriched. Another user's rental is not
        found; a failing car or payment lookup falls back without failing the request. */
    method GetRental(rid: RentalId, user: Username, net: LookupNet) returns (reply: Reply<RentalView>)
      ensures net.ledger.Down? ==> reply == Fail(net.ledger.status)
      ensures net.ledger.Up? && !Saga.Owned(State(), rid, user) ==> reply == Fail(404)
      ensures net.ledger.Up? && Saga.Owned(State(), rid, user) ==>
        var r := rentals[rid];
        reply == Ok(View(rid, r, GetCar(State(), r.carUid, net.car), GetPayment(State(), r.paymentUid, net.payment)))
    {
      var lookup := Downstream.GetRental(State(), rid, user, net.ledger);
      if lookup.Fail? && lookup.status == 404 {
        return Fail(404);
      }
      if lookup.Fail? {
        return Fail(lookup.status);
      }
      var rental := lookup.body;
      var car := GetCar(State(), rental.carUid, net.car);
      var payment := GetPayment(State(), rental.paymentUid, net.payment);
      reply := Ok(View(rid, rental, car, payment));
    }

    /** GET /api/v1/rental: the rentals of `user` in the ledger's order, each enriched on
        its own. */
    method GetUserRentals(user: Username, net: ListNet) returns (reply: Reply<seq<RentalView>>)
      ensures net.ledger.Down? ==> reply == Fail(net.ledger.status)
      ensures net.ledger.Up? ==> reply.Ok?
      ensures net.ledger.Up? ==>
        var listed := UserRentals(rentals, user, net.order);
        && |reply.body| == |listed|
        && forall k :: 0 <= k < |listed| ==> reply.body[k] == EntryView(State(), listed[k], net.car(k), net.payment(k))
      ensures reply.Ok? ==> forall k :: 0 <= k < |reply.body| ==>
        reply.body[k].rentalUid in rentals && rentals[reply.body[k].rentalUid].username == user
    {
      var listing := ListRentals(State(), user, net.order, net.ledger);
      if listing.Fail? {
        return Fail(listing.status);
      }
      var views := EnrichAll(State(), listing.body, net.car, net.payment);
      reply := Ok(views);
    }
  }
}
