/** What the three stores should agree on between workflows, and which workflows keep it:
    a car is unavailable exactly while one IN_PROGRESS rental holds it, every rental has its
    own payment, a payment is CANCELED exactly when its rental is, and no PAID payment
    belongs to no rental. The workflows keep it when their compensating calls go through and
    the car asked for is free; the lemmas at the end show how it breaks otherwise. */
module Consistency {
  import opened Schemas
  import opened Downstream
  import opened Saga

  /** Every rental names a car and a payment the services have. */
  ghost predicate Linked(s: Stores) {
    forall id :: id in s.rentals ==> s.rentals[id].carUid in s.cars && s.rentals[id].paymentUid in s.payments
  }

  /** The car of every IN_PROGRESS rental is unavailable. */
  ghost predicate Reserved(s: Stores)
    requires Linked(s)
  {
    forall id :: id in s.rentals && s.rentals[id].status.InProgress? ==> !s.cars[s.rentals[id].carUid].available
  }

  /** Every unavailable car is held by some IN_PROGRESS rental. */
  ghost predicate Held(s: Stores) {
    forall c :: c in s.cars && !s.cars[c].available ==>
      exists id :: id in s.rentals && s.rentals[id].status.InProgress? && s.rentals[id].carUid == c
  }

  /** No two IN_PROGRESS rentals hold the same car. */
  ghost predicate Exclusive(s: Stores) {
    forall i, j :: i in s.rentals && j in s.rentals && i != j
                   && s.rentals[i].status.InProgress? && s.rentals[j].status.InProgress?
                   ==> s.rentals[i].carUid != s.rentals[j].carUid
  }

  /** No two rentals share a payment. */
  ghost predicate OwnPayments(s: Stores) {
    forall i, j :: i in s.rentals && j in s.rentals && i != j ==> s.rentals[i].paymentUid != s.rentals[j].paymentUid
  }

  /** The payment status a rental in `status` should have. */
  function PaymentFor(status: RentalStatus): PaymentStatus {
    if status.Canceled? then PaymentStatus.Canceled else Paid
  }

  /** Each rental's payment is CANCELED exactly when the rental is. */
  ghost predicate Settled(s: Stores)
    requires Linked(s)
  {
    forall id :: id in s.rentals ==> s.payments[s.rentals[id].paymentUid].status == PaymentFor(s.rentals[id].status)
  }

  /** Every PAID payment belongs to a rental. */
  ghost predicate NoOrphan(s: Stores) {
    forall p :: p in s.payments && s.payments[p].status.Paid? ==>
      exists id :: id in s.rentals && s.rentals[id].paymentUid == p
  }

  ghost predicate Consistent(s: Stores) {
    && Linked(s) && Reserved(s) && Held(s) && Exclusive(s)
    && OwnPayments(s) && Settled(s) && NoOrphan(s)
  }

  /** Recording a new payment as CANCELED keeps the stores consistent. */
  lemma AddCanceledPayment(s: Stores, pid: PaymentId, price: int)
    requires Consistent(s) && pid !in s.payments
    ensures Consistent(s.(payments := s.payments[pid := Payment(PaymentStatus.Canceled, price)]))
  {
    var s' := s.(payments := s.payments[pid := Payment(PaymentStatus.Canceled, price)]);
    forall p | p in s'.payments && s'.payments[p].status.Paid?
      ensures exists id :: id in s'.rentals && s'.rentals[id].paymentUid == p
    {
      assert p != pid && p in s.payments && s.payments[p].status.Paid?;
    }
  }

  /** Reserving a free car, charging a fresh payment and recording a fresh IN_PROGRESS
      rental of both keeps the stores consistent. */
  lemma AddRental(s: Stores, rid: RentalId, pid: PaymentId, c: CarId, rental: Rental, price: int)
    requires Consistent(s)
    requires rid !in s.rentals && pid !in s.payments
    requires c in s.cars && s.cars[c].available
    requires rental.paymentUid == pid && rental.carUid == c && rental.status.InProgress?
    ensures Consistent(Stores(s.cars[c := s.cars[c].(available := false)],
                              s.payments[pid := Payment(Paid, price)],
                              s.rentals[rid := rental]))
  {
    var s' := Stores(s.cars[c := s.cars[c].(available := false)],
                     s.payments[pid := Payment(Paid, price)],
                     s.rentals[rid := rental]);
    assert Linked(s');
    forall id | id in s'.rentals && s'.rentals[id].status.InProgress?
      ensures !s'.cars[s'.rentals[id].carUid].available
    {
      if id != rid {
        assert s'.rentals[id] == s.rentals[id];
      }
    }
    forall c' | c' in s'.cars && !s'.cars[c'].available
      ensures exists id :: id in s'.rentals && s'.rentals[id].status.InProgress? && s'.rentals[id].carUid == c'
    {
      if c' == c {
        assert s'.rentals[rid].carUid == c';
      } else {
        var id :| id in s.rentals && s.rentals[id].status.InProgress? && s.rentals[id].carUid == c';
        assert s'.rentals[id] == s.rentals[id];
      }
    }
    forall i, j | i in s'.rentals && j in s'.rentals && i != j
                  && s'.rentals[i].status.InProgress? && s'.rentals[j].status.InProgress?
      ensures s'.rentals[i].carUid != s'.rentals[j].carUid
    {
      // the car was free, so no earlier IN_PROGRESS rental holds it
      if i == rid {
        assert s.rentals[j].carUid != c;
      } else if j == rid {
        assert s.rentals[i].carUid != c;
      }
    }
    forall i, j | i in s'.rentals && j in s'.rentals && i != j
      ensures s'.rentals[i].paymentUid != s'.rentals[j].paymentUid
    {
      // every earlier rental's payment is in the payment store, so it is not the fresh one
      if i == rid {
        assert s.rentals[j].paymentUid in s.payments;
      } else if j == rid {
        assert s.rentals[i].paymentUid in s.payments;
      }
    }
    forall id | id in s'.rentals
      ensures s'.payments[s'.rentals[id].paymentUid].status == PaymentFor(s'.rentals[id].status)
    {
      if id != rid {
        assert s.rentals[id].paymentUid in s.payments;
      }
    }
    forall p | p in s'.payments && s'.payments[p].status.Paid?
      ensures exists id :: id in s'.rentals && s'.rentals[id].paymentUid == p
    {
      if p == pid {
        assert s'.rentals[rid].paymentUid == p;
      } else {
        var id :| id in s.rentals && s.rentals[id].paymentUid == p;
        assert s'.rentals[id] == s.rentals[id];
      }
    }
  }

  /** Ending an IN_PROGRESS rental in `status`, releasing its car and, when `status` is
      CANCELED, canceling its payment keeps the stores consistent. */
  lemma EndRental(s: Stores, rid: RentalId, status: RentalStatus)
    requires Consistent(s)
    requires rid in s.rentals && s.rentals[rid].status.InProgress? && !status.InProgress?
    ensures var r := s.rentals[rid];
      Consistent(Stores(s.cars[r.carUid := s.cars[r.carUid].(available := true)],
                        if status.Canceled?
                        then s.payments[r.paymentUid := s.payments[r.paymentUid].(status := PaymentStatus.Canceled)]
                        else s.payments,
                        s.rentals[rid := r.(status := status)]))
  {
    var r := s.rentals[rid];
    var c, pid := r.carUid, r.paymentUid;
    var s' := Stores(s.cars[c := s.cars[c].(available := true)],
                     if status.Canceled? then s.payments[pid := s.payments[pid].(status := PaymentStatus.Canceled)] else s.payments,
                     s.rentals[rid := r.(status := status)]);
    assert Linked(s');
    forall id | id in s'.rentals && s'.rentals[id].status.InProgress?
      ensures !s'.cars[s'.rentals[id].carUid].available
    {
      assert id != rid && s'.rentals[id] == s.rentals[id];
      // another IN_PROGRESS rental holds another car
      assert s.rentals[id].carUid != c;
    }
    forall c' | c' in s'.cars && !s'.cars[c'].available
      ensures exists id :: id in s'.rentals && s'.rentals[id].status.InProgress? && s'.rentals[id].carUid == c'
    {
      assert c' != c;
      var id :| id in s.rentals && s.rentals[id].status.InProgress? && s.rentals[id].carUid == c';
      assert id != rid;
      assert s'.rentals[id] == s.rentals[id];
    }
    forall i, j | i in s'.rentals && j in s'.rentals && i != j
                  && s'.rentals[i].status.InProgress? && s'.rentals[j].status.InProgress?
      ensures s'.rentals[i].carUid != s'.rentals[j].carUid
    {
      assert s'.rentals[i] == s.rentals[i] && s'.rentals[j] == s.rentals[j];
    }
    forall i, j | i in s'.rentals && j in s'.rentals && i != j
      ensures s'.rentals[i].paymentUid != s'.rentals[j].paymentUid
    {
      assert s.rentals[i].paymentUid != s.rentals[j].paymentUid;
    }
    forall id | id in s'.rentals
      ensures s'.payments[s'.rentals[id].paymentUid].status == PaymentFor(s'.rentals[id].status)
    {
      if id != rid {
        // another rental has another payment
        assert s.rentals[id].paymentUid != pid;
      }
    }
    forall p | p in s'.payments && s'.payments[p].status.Paid?
      ensures exists id :: id in s'.rentals && s'.rentals[id].paymentUid == p
    {
      var id :| id in s.rentals && s.rentals[id].paymentUid == p;
      assert s'.rentals[id].paymentUid == p;
    }
  }

  /** A create keeps the stores consistent when the car asked for is free, the ids the
      services assign are new, and the compensating calls, if any run, go through. */
  lemma CreatePreserves(s: Stores, user: Username, req: CreateRentalRequest, net: CreateNet)
    requires Consistent(s)
    requires net.paymentUid !in s.payments && net.rentalUid !in s.rentals
    requires req.carUid in s.cars ==> s.cars[req.carUid].available
    requires net.release.Up? && net.refund.Up?
    ensures Consistent(CreateRental(s, user, req, net).stores)
  {
    if !CarFound(s, req, net) || !DatesValid(req) || net.payment.Down? {
      return;
    }
    var c, pid, rid := req.carUid, net.paymentUid, net.rentalUid;
    if net.reserve.Down? {
      CreateReservationFailure(s, user, req, net);
      AddCanceledPayment(s, pid, Charge(s, req));
    } else if net.ledger.Down? {
      CreateLedgerFailure(s, user, req, net);
      assert s.cars[c := s.cars[c].(available := true)] == s.cars;
      AddCanceledPayment(s, pid, Charge(s, req));
    } else {
      CreateSuccess(s, user, req, net);
      AddRental(s, rid, pid, c, Rental(user, pid, c, req.dateFrom, req.dateTo, InProgress), Charge(s, req));
    }
  }

  /** The ledger answers 204 to a cancel or finish only for an IN_PROGRESS rental. */
  predicate LedgerGuards(s: Stores, rid: RentalId, user: Username, ledger: Link) {
    ledger.Up? && Owned(s, rid, user) ==> s.rentals[rid].status.InProgress?
  }

  /** A cancel keeps the stores consistent when the ledger only cancels IN_PROGRESS rentals
      and the clean-up calls go through. */
  lemma CancelPreserves(s: Stores, rid: RentalId, user: Username, net: CancelNet)
    requires Consistent(s)
    requires LedgerGuards(s, rid, user, net.ledger)
    requires net.release.Up? && net.refund.Up?
    ensures Consistent(CancelRental(s, rid, user, net).stores)
  {
    if net.lookup.Up? && Owned(s, rid, user) && net.ledger.Up? {
      CancelSuccess(s, rid, user, net);
      EndRental(s, rid, RentalStatus.Canceled);
    }
  }

  /** A finish keeps the stores consistent when the ledger only finishes IN_PROGRESS rentals
      and the car release goes through. */
  lemma FinishPreserves(s: Stores, rid: RentalId, user: Username, net: FinishNet)
    requires Consistent(s)
    requires LedgerGuards(s, rid, user, net.ledger)
    requires net.release.Up?
    ensures Consistent(FinishRental(s, rid, user, net).stores)
  {
    if net.lookup.Up? && Owned(s, rid, user) && net.ledger.Up? {
      FinishSuccess(s, rid, user, net);
      EndRental(s, rid, Finished);
    }
  }

  /** Creating a rental of a car that an IN_PROGRESS rental already holds succeeds, and then
      two IN_PROGRESS rentals hold the same car. */
  lemma CreateDoubleBooks(s: Stores, user: Username, req: CreateRentalRequest, net: CreateNet, held: RentalId)
    requires Consistent(s)
    requires held in s.rentals && s.rentals[held].status.InProgress? && s.rentals[held].carUid == req.carUid
    requires net.rentalUid !in s.rentals
    requires net.car.Up? && DatesValid(req)
    requires net.payment.Up? && net.reserve.Up? && net.ledger.Up?
    ensures CreateRental(s, user, req, net).reply.Ok?
    ensures !Exclusive(CreateRental(s, user, req, net).stores)
  {
    CreateSuccess(s, user, req, net);
    var s' := CreateRental(s, user, req, net).stores;
    assert s'.rentals[held] == s.rentals[held];
    assert s'.rentals[net.rentalUid].carUid == req.carUid;
  }

  /** Creating a rental of a car that an IN_PROGRESS rental already holds, when recording
      the rental fails, runs the compensating release on that car: it ends up available
      while the earlier rental still holds it. */
  lemma CreateReleasesHeldCar(s: Stores, user: Username, req: CreateRentalRequest, net: CreateNet, held: RentalId)
    requires Consistent(s)
    requires held in s.rentals && s.rentals[held].status.InProgress? && s.rentals[held].carUid == req.carUid
    requires net.car.Up? && DatesValid(req)
    requires net.payment.Up? && net.reserve.Up? && net.ledger.Down? && net.release.Up?
    ensures CreateRental(s, user, req, net).reply == Fail(500)
    ensures var s' := CreateRental(s, user, req, net).stores;
      && s'.rentals[held].status.InProgress? && s'.cars[req.carUid].available
      && Linked(s') && !Reserved(s')
  {
    assert req.carUid in s.cars;
    CreateLedgerFailure(s, user, req, net);
    var s' := CreateRental(s, user, req, net).stores;
    assert s'.rentals[held] == s.rentals[held];
    forall id | id in s'.rentals ensures s'.rentals[id].carUid in s'.cars && s'.rentals[id].paymentUid in s'.payments {
      assert s'.rentals[id] == s.rentals[id];
    }
  }

  /** When reserving the car fails and the compensating delete fails too, the create still
      answers 500 and leaves a PAID payment that no rental owns. */
  lemma CreateLeavesOrphanPayment(s: Stores, user: Username, req: CreateRentalRequest, net: CreateNet)
    requires Consistent(s) && net.paymentUid !in s.payments
    requires CarFound(s, req, net) && DatesValid(req)
    requires net.payment.Up? && net.reserve.Down? && net.refund.Down?
    ensures CreateRental(s, user, req, net).reply == Fail(500)
    ensures !NoOrphan(CreateRental(s, user, req, net).stores)
  {
    CreateReservationFailure(s, user, req, net);
    var s' := CreateRental(s, user, req, net).stores;
    var pid := net.paymentUid;
    assert pid in s'.payments && s'.payments[pid].status.Paid?;
    forall id | id in s'.rentals ensures s'.rentals[id].paymentUid != pid {
      assert s.rentals[id].paymentUid in s.payments;
    }
  }

  /** When recording the rental fails and releasing the car fails too, the create answers
      500 and leaves the car unavailable with no rental holding it. */
  lemma CreateLeavesStuckReservation(s: Stores, user: Username, req: CreateRentalRequest, net: CreateNet)
    requires Consistent(s)
    requires CarFound(s, req, net) && DatesValid(req) && s.cars[req.carUid].available
    requires net.payment.Up? && net.reserve.Up? && net.ledger.Down? && net.release.Down?
    ensures CreateRental(s, user, req, net).reply == Fail(500)
    ensures !Held(CreateRental(s, user, req, net).stores)
  {
    CreateLedgerFailure(s, user, req, net);
    var s' := CreateRental(s, user, req, net).stores;
    var c := req.carUid;
    assert c in s'.cars && !s'.cars[c].available;
    forall id | id in s'.rentals && s'.rentals[id].status.InProgress? ensures s'.rentals[id].carUid != c {
      assert !s.cars[s.rentals[id].carUid].available;
    }
  }

  /** When the ledger cancels but the payment delete fails, the cancel still answers 204 and
      the CANCELED rental keeps a PAID payment. */
  lemma CancelLeavesPaidPayment(s: Stores, rid: RentalId, user: Username, net: CancelNet)
    requires Consistent(s)
    requires Owned(s, rid, user) && s.rentals[rid].status.InProgress?
    requires net.lookup.Up? && net.ledger.Up? && net.refund.Down?
    ensures CancelRental(s, rid, user, net).reply == Ok(())
    ensures var s' := CancelRental(s, rid, user, net).stores;
      && s'.rentals[rid].status.Canceled?
      && s'.payments[s.rentals[rid].paymentUid].status.Paid?
      && Linked(s') && !Settled(s')
  {
    CancelSuccess(s, rid, user, net);
    var s' := CancelRental(s, rid, user, net).stores;
    assert s'.rentals[rid].status.Canceled?;
    assert s'.payments[s'.rentals[rid].paymentUid].status.Paid?;
  }
}
