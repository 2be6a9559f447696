/** The three services the gateway calls, seen from the gateway: each call either reaches a
    service that answers from its own store, or fails with an error status and changes
    nothing. Each function here is one HTTP call of the gateway. */
module Downstream {
  import opened Calendar
  import opened Schemas

  /** What the car inventory, the payment service and the rental ledger hold. */
  datatype Stores = Stores(
    cars: map<CarId, Car>,
    payments: map<PaymentId, Payment>,
    rentals: map<RentalId, Rental>)

  /** A status that is neither 200 nor 204. */
  type ErrorStatus = c: int | c != 200 && c != 204 witness 500

  /** How one call goes: the service answers from its store (Up), or the call comes back
      with an error status and the service changes nothing (Down). */
  datatype Link = Up | Down(status: ErrorStatus)

  /** A state-changing request the gateway sends to a service, as sent. */
  datatype Write =
    | PaymentPost(price: int)
    | PaymentDelete(paymentUid: PaymentId)
    | AvailabilityPatch(carUid: CarId, available: bool)
    | RentalPost(username: Username, paymentUid: PaymentId, carUid: CarId, dateFrom: Date, dateTo: Date)
    | RentalDelete(rentalUid: RentalId, username: Username)
    | RentalFinishPost(rentalUid: RentalId, username: Username)

  /** The stores after a write, and the status the service answered with. */
  datatype Effect = Effect(stores: Stores, status: int)

  /** GET /api/v1/cars/{id}: the car when the inventory has it. */
  function GetCar(s: Stores, id: CarId, link: Link): (r: Option<Car>)
    ensures r.Some? <==> link.Up? && id in s.cars
    ensures r.Some? ==> r.value == s.cars[id]
  {
    if link.Up? && id in s.cars then Some(s.cars[id]) else None
  }

  /** GET /api/v1/payment/{id}. */
  function GetPayment(s: Stores, id: PaymentId, link: Link): (r: Option<Payment>)
    ensures r.Some? <==> link.Up? && id in s.payments
    ensures r.Some? ==> r.value == s.payments[id]
  {
    if link.Up? && id in s.payments then Some(s.payments[id]) else None
  }

  /** GET /api/v1/rental/{id}?username=: the ledger answers 404 unless the rental exists
      and belongs to `user`. */
  function GetRental(s: Stores, id: RentalId, user: Username, link: Link): (r: Reply<Rental>)
    ensures link.Down? ==> r == Fail(link.status)
    ensures link.Up? && r.Fail? ==> r.status == 404
    ensures r.Ok? <==> link.Up? && id in s.rentals && s.rentals[id].username == user
    ensures r.Ok? ==> r.body == s.rentals[id]
  {
    match link
    case Down(code) => Fail(code)
    case Up =>
      if id in s.rentals && s.rentals[id].username == user then Ok(s.rentals[id]) else Fail(404)
  }

  /** The rentals of `user` in the order the ledger keeps them, `order` being that order
      over rental ids. */
  function UserRentals(rentals: map<RentalId, Rental>, user: Username, order: seq<RentalId>): (l: seq<(RentalId, Rental)>)
    ensures |l| <= |order|
    ensures forall k :: 0 <= k < |l| ==> l[k].0 in rentals && rentals[l[k].0] == l[k].1 && l[k].1.username == user
    ensures forall id :: id in order && id in rentals && rentals[id].username == user ==> (id, rentals[id]) in l
    decreases |order|
  {
    if order == [] then []
    else
      var rest := UserRentals(rentals, user, order[1..]);
      var id := order[0];
      if id in rentals && rentals[id].username == user then [(id, rentals[id])] + rest else rest
  }

  /** `x` occurs in `order` at an earlier place than some occurrence of `y`. */
  predicate Before(order: seq<RentalId>, x: RentalId, y: RentalId)
    decreases |order|
  {
    order != [] && ((order[0] == x && y in order[1..]) || Before(order[1..], x, y))
  }

  /** Every listed rental is one the ledger's order names. */
  lemma {:induction false} UserRentalsFromOrder(rentals: map<RentalId, Rental>, user: Username, order: seq<RentalId>,
                                                k: nat)
    requires k < |UserRentals(rentals, user, order)|
    ensures UserRentals(rentals, user, order)[k].0 in order
    decreases |order|
  {
    var id, rest := order[0], order[1..];
    var l, l' := UserRentals(rentals, user, order), UserRentals(rentals, user, rest);
    if id in rentals && rentals[id].username == user {
      if k > 0 {
        UserRentalsFromOrder(rentals, user, rest, k - 1);
        assert l[k] == l'[k - 1];
      }
    } else {
      UserRentalsFromOrder(rentals, user, rest, k);
      assert l[k] == l'[k];
    }
  }

  /** An order over rental ids that a ledger can produce: it names every rental it has, and
      each only once. */
  predicate LedgerOrder(rentals: map<RentalId, Rental>, order: seq<RentalId>) {
    && (forall id :: id in rentals ==> id in order)
    && (forall a, b :: 0 <= a < b < |order| ==> order[a] != order[b])
  }

  /** In an order without repeats, no id comes before itself. */
  lemma {:induction false} NotBeforeItself(order: seq<RentalId>, x: RentalId)
    requires forall a, b :: 0 <= a < b < |order| ==> order[a] != order[b]
    ensures !Before(order, x, x)
    decreases |order|
  {
    if order != [] {
      var rest := order[1..];
      forall a, b | 0 <= a < b < |rest| ensures rest[a] != rest[b] {
        assert rest[a] == order[a + 1] && rest[b] == order[b + 1];
      }
      NotBeforeItself(rest, x);
    }
  }

  /** Over a ledger's order, the listing names every rental of the user exactly once. */
  lemma UserRentalsExactlyOnce(rentals: map<RentalId, Rental>, user: Username, order: seq<RentalId>)
    requires LedgerOrder(rentals, order)
    ensures var l := UserRentals(rentals, user, order);
      && (forall id :: id in rentals && rentals[id].username == user ==> (id, rentals[id]) in l)
      && (forall k, j :: 0 <= k < j < |l| ==> l[k].0 != l[j].0)
  {
    var l := UserRentals(rentals, user, order);
    forall k, j | 0 <= k < j < |l| ensures l[k].0 != l[j].0 {
      UserRentalsInOrder(rentals, user, order, k, j);
      if l[k].0 == l[j].0 {
        NotBeforeItself(order, l[k].0);
      }
    }
  }

  /** The listing keeps the ledger's order: of two listed rentals, the earlier one comes
      from an earlier place in `order`. */
  lemma {:induction false} UserRentalsInOrder(rentals: map<RentalId, Rental>, user: Username, order: seq<RentalId>,
                                              k: nat, j: nat)
    requires k < j < |UserRentals(rentals, user, order)|
    ensures var l := UserRentals(rentals, user, order);
      Before(order, l[k].0, l[j].0)
    decreases |order|
  {
    var id, rest := order[0], order[1..];
    var l, l' := UserRentals(rentals, user, order), UserRentals(rentals, user, rest);
    if id in rentals && rentals[id].username == user {
      if k == 0 {
        // the first entry is the first id; the later one comes from the rest
        UserRentalsFromOrder(rentals, user, rest, j - 1);
        assert l[k].0 == id && l[j] == l'[j - 1];
      } else {
        UserRentalsInOrder(rentals, user, rest, k - 1, j - 1);
        assert l[k] == l'[k - 1] && l[j] == l'[j - 1];
      }
    } else {
      UserRentalsInOrder(rentals, user, rest, k, j);
      assert l[k] == l'[k] && l[j] == l'[j];
    }
  }

  /** GET /api/v1/rental?username=. */
  function ListRentals(s: Stores, user: Username, order: seq<RentalId>, link: Link): (r: Reply<seq<(RentalId, Rental)>>)
    ensures r.Ok? <==> link.Up?
    ensures link.Down? ==> r == Fail(link.status)
    ensures r.Ok? ==> forall k :: 0 <= k < |r.body| ==> r.body[k].0 in s.rentals && r.body[k].1.username == user
  {
    match link
    case Down(code) => Fail(code)
    case Up => Ok(UserRentals(s.rentals, user, order))
  }

  /** PATCH /api/v1/cars/{id}/availability?available=. */
  function PatchAvailability(s: Stores, id: CarId, available: bool, link: Link): Effect {
    match link
    case Down(code) => Effect(s, code)
    case Up =>
      if id in s.cars then Effect(s.(cars := s.cars[id := s.cars[id].(available := available)]), 200)
      else Effect(s, 404)
  }

  /** POST /api/v1/payment: the service records a PAID payment under the id it assigns,
      `pid`. */
  function PostPayment(s: Stores, pid: PaymentId, price: int, link: Link): Effect {
    match link
    case Down(code) => Effect(s, code)
    case Up => Effect(s.(payments := s.payments[pid := Payment(Paid, price)]), 200)
  }

  /** DELETE /api/v1/payment/{id}: the payment becomes CANCELED. */
  function DeletePayment(s: Stores, pid: PaymentId, link: Link): Effect {
    match link
    case Down(code) => Effect(s, code)
    case Up =>
      if pid in s.payments then Effect(s.(payments := s.payments[pid := s.payments[pid].(status := PaymentStatus.Canceled)]), 204)
      else Effect(s, 404)
  }

  /** POST /api/v1/rental: the ledger records an IN_PROGRESS rental under the id it assigns,
      `rid`. */
  function PostRental(s: Stores, rid: RentalId, user: Username, pid: PaymentId, car: CarId, from: Date, to: Date, link: Link): Effect {
    match link
    case Down(code) => Effect(s, code)
    case Up => Effect(s.(rentals := s.rentals[rid := Rental(user, pid, car, from, to, InProgress)]), 200)
  }

  /** The ledger moving a rental of `user` to `status`; 404 for a rental it does not have
      for that user. */
  function Transition(s: Stores, rid: RentalId, user: Username, status: RentalStatus, link: Link): Effect {
    match link
    case Down(code) => Effect(s, code)
    case Up =>
      if rid in s.rentals && s.rentals[rid].username == user
      then Effect(s.(rentals := s.rentals[rid := s.rentals[rid].(status := status)]), 204)
      else Effect(s, 404)
  }

  /** DELETE /api/v1/rental/{id}?username=: the rental becomes CANCELED. */
  function DeleteRental(s: Stores, rid: RentalId, user: Username, link: Link): Effect {
    Transition(s, rid, user, RentalStatus.Canceled, link)
  }

  /** POST /api/v1/rental/{id}/finish?username=: the rental becomes FINISHED. */
  function PostFinish(s: Stores, rid: RentalId, user: Username, link: Link): Effect {
    Transition(s, rid, user, Finished, link)
  }
}
