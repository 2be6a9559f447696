/** The entities the gateway passes between the car inventory, the payment service and the
    rental ledger, and the bodies of its own replies. Identifiers are UUID strings. */
module Schemas {
  import opened Calendar

  datatype Option<T> = None | Some(value: T)

  type CarId = string
  type PaymentId = string
  type RentalId = string
  type Username = string

  datatype CarType = Sedan | Suv | Minivan | Roadster

  datatype PaymentStatus = Paid | Canceled

  /** IN_PROGRESS leads to FINISHED or CANCELED; both of those are terminal. */
  datatype RentalStatus = InProgress | Finished | Canceled

  /** A car of the inventory; `price` is per day. */
  datatype Car = Car(
    brand: string,
    model: string,
    registrationNumber: string,
    power: Option<int>,
    price: int,
    carType: CarType,
    available: bool)

  datatype Payment = Payment(status: PaymentStatus, price: int)

  /** A rental of the ledger; the dates are the ones the caller asked for. */
  datatype Rental = Rental(
    username: Username,
    paymentUid: PaymentId,
    carUid: CarId,
    dateFrom: Date,
    dateTo: Date,
    status: RentalStatus)

  /** The car summary embedded in a rental view. */
  datatype CarInfo = CarInfo(carUid: CarId, brand: string, model: string, registrationNumber: string)

  /** The payment summary embedded in rental views and in the create reply. */
  datatype PaymentInfo = PaymentInfo(paymentUid: PaymentId, status: PaymentStatus, price: int)

  /** What the gateway returns for one rental on its read paths. */
  datatype RentalView = RentalView(
    rentalUid: RentalId,
    status: RentalStatus,
    dateFrom: Date,
    dateTo: Date,
    car: CarInfo,
    payment: PaymentInfo)

  datatype CreateRentalRequest = CreateRentalRequest(carUid: CarId, dateFrom: Date, dateTo: Date)

  datatype CreateRentalResponse = CreateRentalResponse(
    rentalUid: RentalId,
    status: RentalStatus,
    carUid: CarId,
    dateFrom: Date,
    dateTo: Date,
    payment: PaymentInfo)

  /** An HTTP answer of the gateway: a body with status 200 (204 when the body is `()`),
      or an error status. */
  datatype Reply<T> = Ok(body: T) | Fail(status: int)
}
