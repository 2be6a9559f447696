/** The read paths' view of one rental: the ledger's record, enriched by a car lookup and a
    payment lookup, each of which may fail on its own without failing the request. */
module Enrichment {
  import opened Schemas

  /** The car summary: the looked-up car, or the rental's car id with empty fields. */
  function CarSummary(r: Rental, car: Option<Car>): (c: CarInfo)
    ensures c.carUid == r.carUid
    ensures car.None? ==> c.brand == "" && c.model == "" && c.registrationNumber == ""
    ensures car.Some? ==> c.brand == car.value.brand && c.model == car.value.model
                          && c.registrationNumber == car.value.registrationNumber
  {
    match car
    case Some(c) => CarInfo(r.carUid, c.brand, c.model, c.registrationNumber)
    case None => CarInfo(r.carUid, "", "", "")
  }

  /** The payment summary: the looked-up payment, or the rental's payment id as PAID at
      price 0. */
  function PaymentSummary(r: Rental, payment: Option<Payment>): (p: PaymentInfo)
    ensures p.paymentUid == r.paymentUid
    ensures payment.None? ==> p.status == Paid && p.price == 0
    ensures payment.Some? ==> p.status == payment.value.status && p.price == payment.value.price
  {
    match payment
    case Some(p) => PaymentInfo(r.paymentUid, p.status, p.price)
    case None => PaymentInfo(r.paymentUid, Paid, 0)
  }

  /** The view of rental `uid`, given what the car and payment lookups returned. */
  function View(uid: RentalId, r: Rental, car: Option<Car>, payment: Option<Payment>): (v: RentalView)
    ensures v.rentalUid == uid && v.status == r.status && v.dateFrom == r.dateFrom && v.dateTo == r.dateTo
    ensures v.car.carUid == r.carUid && v.payment.paymentUid == r.paymentUid
    ensures car.None? ==> v.car.brand == "" && v.car.model == "" && v.car.registrationNumber == ""
    ensures car.Some? ==> v.car.brand == car.value.brand && v.car.model == car.value.model
                          && v.car.registrationNumber == car.value.registrationNumber
    ensures payment.None? ==> v.payment.status == Paid && v.payment.price == 0
    ensures payment.Some? ==> v.payment.status == payment.value.status && v.payment.price == payment.value.price
  {
    RentalView(uid, r.status, r.dateFrom, r.dateTo, CarSummary(r, car), PaymentSummary(r, payment))
  }

  /** The two fallbacks are independent: the car summary does not depend on the payment
      lookup, nor the payment summary on the car lookup. */
  lemma FallbacksIndependent(uid: RentalId, r: Rental, car: Option<Car>, car': Option<Car>,
                             payment: Option<Payment>, payment': Option<Payment>)
    ensures View(uid, r, car, payment).car == View(uid, r, car, payment').car
    ensures View(uid, r, car, payment).payment == View(uid, r, car', payment).payment
  {
  }
}
