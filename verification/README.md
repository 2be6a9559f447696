# Car-rental gateway: the rental workflows

The gateway of this car-rental platform fronts three services that share no transaction:
the car inventory (cars and their availability flag), the payment service (payments, PAID
or CANCELED) and the rental ledger (rentals, IN_PROGRESS, FINISHED or CANCELED). To create,
cancel or finish a rental, it sends a fixed sequence of calls to them. When a later step of
a create fails, it undoes the earlier steps by hand, latest first. This project models those
workflows, the price computation and the two read paths, and proves what each one does on
every branch.

Layout, one module per file:

- `calendar.dfy` (`Calendar`): dates, numbered the way Python's `date.toordinal` numbers
  them. `NextDay` is an independent, month-by-month successor that the day numbers are proved
  to agree with.
- `pricing.dfy` (`Pricing`): the absolute day count times the daily rate, and its properties.
- `schemas.dfy` (`Schemas`): the entities, the status enums, the car-type enum and the reply
  bodies.
- `downstream.dfy` (`Downstream`): the services as maps. Each HTTP call the gateway makes is a
  function of those maps and of a `Link`. `Up` means the service answers from its store.
  `Down(status)` means the call returns that error status and changes nothing.
- `enrichment.dfy` (`Enrichment`): the view the read paths build from one rental, with a car
  fallback and a payment fallback that apply independently.
- `saga.dfy` (`Saga`): create, cancel and finish as functions. Each returns the new stores,
  the reply, and the writes sent downstream in order. The module also holds one lemma per
  branch of each workflow.
- `consistency.dfy` (`Consistency`): what the stores should agree on between workflows:
  - a car is unavailable exactly while one IN_PROGRESS rental holds it;
  - every rental has its own payment;
  - a payment is CANCELED exactly when its rental is;
  - no PAID payment is left without a rental.

  Each workflow is proved to keep this under stated hypotheses:
  - create: the car is free, the payment and rental ids are fresh, and the compensating
    calls go through;
  - cancel and finish: the ledger accepts them only for an IN_PROGRESS rental
    (`LedgerGuards`), and the clean-up calls go through.

  Without `LedgerGuards`, canceling a FINISHED rental whose car another IN_PROGRESS
  rental now holds would release that car. Further lemmas show how the invariant breaks
  when compensating calls fail, or when a car that is already rented is booked again.
- `gateway.dfy` (`GatewayService`): class `Gateway` holds the three maps and a ghost log of
  the writes sent. Each state-changing call is a method. The workflow methods make the calls
  one step at a time with early returns, and are proved equal to the `Saga` functions: same
  stores, same reply, same writes in the same order. The two read handlers change nothing.
  The list handler enriches the listed rentals one by one in a loop (`EnrichAll`).

Parameters stand in for what the gateway does not control:
- how each call goes (a `Link` per call);
- the ids the payment service and the ledger assign;
- the order in which the ledger lists a user's rentals.

## Model

| member | source | states |
|---|---|---|
| Calendar.Ordinal | services/gateway_service/main.py:57-59 | a date's day number is at least 1 (0001-01-01 is day 1) |
| Calendar.YearLength | services/gateway_service/main.py:59 | a Gregorian year has 366 days when leap and 365 otherwise |
| Calendar.OrdinalNextDay | services/gateway_service/main.py:59 | the day number of the calendar's next day is one more |
| Calendar.OrdinalLater | services/gateway_service/main.py:59 | the date n days later has a day number exactly n larger |
| Calendar.OrdinalOrder | services/gateway_service/main.py:59 | day numbers follow calendar order, and distinct dates get distinct numbers |
| Calendar.Later | services/gateway_service/main.py:59 | the reference definition of "n days later" (n steps of `NextDay`), which gives `.days` its meaning in `PriceOfDays`. Counting days forward from a calendar date gives a calendar date |
| Pricing.TotalPrice | services/gateway_service/main.py:59-60 | the absolute number of days between the two dates, times the daily rate. The result is the same with the dates swapped, and zero for equal dates. `PriceNonNegative`, `PriceOfDays` and `PriceZero` carry its other properties |
| Pricing.PriceNonNegative | services/gateway_service/main.py:59-60 | with a non-negative daily rate the total is never negative |
| Pricing.PriceOfDays | services/gateway_service/main.py:57-60 | a rental over n days costs n times the rate, in either date order |
| Pricing.PriceZero | services/gateway_service/main.py:59-60 | the total is zero iff the dates are the same day or the rate is zero |
| Pricing.PriceExample | test_main.py:68-72 | 2021-10-08 to 2021-10-11 at 100 per day costs 300 |
| Downstream.UserRentals | services/gateway_service/main.py:122-129 | the ledger lists only this user's rentals, each with its record, and lists every one of them that `order` names. `UserRentalsFromOrder` and `UserRentalsInOrder` state where the entries come from and their order. `UserRentalsExactlyOnce` covers an order that names every rental once |
| Downstream.UserRentalsFromOrder | services/gateway_service/main.py:122-129 | every listed rental is one that the ledger's order names |
| Downstream.UserRentalsExactlyOnce | services/gateway_service/main.py:122-129 | when `order` names every rental of the ledger once (`LedgerOrder`), the listing names every rental of the user exactly once |
| Downstream.UserRentalsInOrder | services/gateway_service/main.py:122-129 | the listing keeps the ledger's order: an earlier entry's id comes before a later entry's id in that order |
| Downstream.GetCar | services/gateway_service/main.py:48-52 | the car lookup returns the car exactly when the call goes through and the inventory has that id |
| Downstream.GetPayment | services/gateway_service/main.py:190-194 | the payment lookup returns the payment exactly when the call goes through and the service has that id |
| Downstream.GetRental | services/gateway_service/main.py:173-180 | a failed call gives its own status. When the call goes through, the ledger returns the rental exactly when it exists and belongs to the user, and 404 otherwise |
| Downstream.ListRentals | services/gateway_service/main.py:122-127 | the listing succeeds exactly when the call goes through, and a failed call gives its own status. Every entry is a rental of the user that the ledger has |
| Enrichment.CarSummary | services/gateway_service/main.py:150-155 | the car id is always the rental's own. A failed lookup gives empty brand, model and registration. Otherwise the looked-up values are shown |
| Enrichment.PaymentSummary | services/gateway_service/main.py:156-160 | the payment id is always the rental's own. A failed lookup gives status PAID and price 0. Otherwise the looked-up status and price are shown |
| Enrichment.View | services/gateway_service/main.py:145-160 | the id, status and dates come from the ledger, and the car and payment ids are always the rental's own. A failed car lookup gives empty brand, model and registration. A failed payment lookup gives status PAID and price 0. Otherwise the looked-up values are shown |
| Enrichment.FallbacksIndependent | services/gateway_service/main.py:133-143 | the car summary does not depend on the payment lookup, and the payment summary does not depend on the car lookup |
| Saga.CreateRental | services/gateway_service/main.py:41-115 | the create workflow as a function: new stores, reply, and the ordered writes sent. It has no contract of its own. Its branches are stated by `CreateCarNotFound`, `CreateInvalidDates`, `CreatePaymentFailure`, `CreateReservationFailure`, `CreateLedgerFailure` and `CreateSuccess`, and they cover every input |
| Saga.CreateCarNotFound | services/gateway_service/main.py:48-52 | if the car lookup fails, the reply is 404, nothing changes and nothing is written |
| Saga.CreateInvalidDates | services/gateway_service/main.py:57-58 | a date that does not parse fails the request with 500 before any write |
| Saga.CreatePaymentFailure | services/gateway_service/main.py:62-68 | if the payment call fails, the reply is 500, the stores are unchanged, and only the payment request was sent |
| Saga.CreateReservationFailure | services/gateway_service/main.py:72-80 | if reserving fails, the payment is deleted and the reply is 500 whatever the delete answers. No rental is made and the cars are unchanged |
| Saga.CreateLedgerFailure | services/gateway_service/main.py:82-100 | if recording the rental fails, the car is set available and then the payment is deleted. The reply is 500 whatever those calls answer, and no rental exists |
| Saga.CreateSuccess | services/gateway_service/main.py:62-115 | the car becomes unavailable, one PAID payment of the computed total is added, and an IN_PROGRESS rental links that payment, the car, the caller and the dates. The reply echoes them |
| Saga.CreateIgnoresAvailability | services/gateway_service/main.py:54-76 | create succeeds even for a car that is already unavailable |
| Saga.CreateThenGet | services/gateway_service/main.py:83-106 | after a create, the ledger returns the rental to its owner as IN_PROGRESS, with the create's car and payment |
| Saga.CancelRental | services/gateway_service/main.py:215-250 | the cancel workflow as a function. It has no contract of its own. Its branches are stated by `CancelNotFound`, `CancelLookupFailure`, `CancelLedgerFailure` and `CancelSuccess`, and they cover every input |
| Saga.CancelNotFound | services/gateway_service/main.py:222-227 | a rental that is missing or belongs to another user gives 404, with no change and no write |
| Saga.CancelLookupFailure | services/gateway_service/main.py:228-229 | any other failed lookup passes its status on, with no change |
| Saga.CancelLedgerFailure | services/gateway_service/main.py:233-239 | if the ledger does not answer 204, its status is passed on and the car and payment are untouched |
| Saga.CancelSuccess | services/gateway_service/main.py:233-250 | the rental is CANCELED and the reply is 204. The car is then released and the payment deleted, in that order, and their answers are ignored |
| Saga.FinishRental | services/gateway_service/main.py:253-285 | the finish workflow as a function. It has no contract of its own. Its branches are stated by `FinishNotFound`, `FinishLookupFailure`, `FinishLedgerFailure` and `FinishSuccess`, and they cover every input |
| Saga.FinishNotFound | services/gateway_service/main.py:260-265 | a rental that is missing or belongs to another user gives 404, with no change |
| Saga.FinishLookupFailure | services/gateway_service/main.py:266-267 | any other failed lookup passes its status on, with no change |
| Saga.FinishLedgerFailure | services/gateway_service/main.py:271-277 | if the ledger does not answer 204, its status is passed on and the car is untouched |
| Saga.FinishSuccess | services/gateway_service/main.py:271-285 | the rental is FINISHED and the reply is 204. The car is released and the payment is never touched |
| Saga.CreateThenCancel | services/gateway_service/main.py:216-250 | after create and then cancel, the rental is CANCELED, the car is available and the payment is CANCELED |
| Saga.CreateThenFinish | test_main.py:96-121 | after create and then finish, the rental reads back as FINISHED, the car is available and the payment stays PAID |
| Consistency.AddRental | services/gateway_service/main.py:73-92 | reserving a free car, adding a fresh PAID payment and adding a fresh IN_PROGRESS rental keeps the stores consistent |
| Consistency.EndRental | services/gateway_service/main.py:233-248 | ending an IN_PROGRESS rental keeps the stores consistent if its car is released and, on cancel, its payment is canceled |
| Consistency.CreatePreserves | services/gateway_service/main.py:46-115 | a create on a free car with fresh ids, whose compensating calls go through, keeps the stores consistent on every branch |
| Consistency.CancelPreserves | services/gateway_service/main.py:220-250 | a cancel keeps the stores consistent if the ledger only cancels IN_PROGRESS rentals and the clean-up calls go through |
| Consistency.FinishPreserves | services/gateway_service/main.py:258-285 | a finish keeps the stores consistent if the ledger only finishes IN_PROGRESS rentals and the release goes through |
| Consistency.CreateDoubleBooks | services/gateway_service/main.py:48-92 | booking a car that an IN_PROGRESS rental already holds succeeds, and leaves two IN_PROGRESS rentals on one car |
| Consistency.CreateReleasesHeldCar | services/gateway_service/main.py:54-100 | create on a car that an IN_PROGRESS rental holds, where the ledger call fails and the release goes through, answers 500. It marks that car available while the earlier rental still holds it, which breaks `Reserved` |
| Consistency.CreateLeavesOrphanPayment | services/gateway_service/main.py:77-80 | if both the reservation and its compensating delete fail, the reply is 500 and a PAID payment belongs to no rental |
| Consistency.CreateLeavesStuckReservation | services/gateway_service/main.py:93-100 | if both the ledger and the car release fail, the reply is 500 and an unavailable car has no rental |
| Consistency.CancelLeavesPaidPayment | services/gateway_service/main.py:238-248 | if the ledger cancels but the payment delete fails, the reply is still 204 and a CANCELED rental keeps a PAID payment |
| GatewayService.Gateway.PatchAvailability | services/gateway_service/main.py:73-76 | the inventory sets the flag of a car it has and answers 200. Otherwise 404, or the failed call's status, with no change. The request is logged |
| GatewayService.Gateway.PostPayment | services/gateway_service/main.py:63-66 | the payment service adds a PAID payment of the given price and answers 200. A failed call changes nothing. The request is logged |
| GatewayService.Gateway.DeletePayment | services/gateway_service/main.py:79 | the payment service sets a payment it has to CANCELED. Otherwise nothing changes. The request is logged |
| GatewayService.Gateway.PostRental | services/gateway_service/main.py:83-92 | the ledger adds an IN_PROGRESS rental linking the user, payment, car and dates and answers 200. A failed call changes nothing. The request is logged |
| GatewayService.Gateway.DeleteRental | services/gateway_service/main.py:234-237 | the ledger sets this user's rental to CANCELED and answers 204. Otherwise 404 or the failed call's status |
| GatewayService.Gateway.PostFinish | services/gateway_service/main.py:272-275 | the ledger sets this user's rental to FINISHED and answers 204. Otherwise 404 or the failed call's status |
| GatewayService.Gateway.CreateRental | services/gateway_service/main.py:41-115 | the new stores, the reply and the ordered writes are exactly those of `Saga.CreateRental` |
| GatewayService.Gateway.CancelRental | services/gateway_service/main.py:215-250 | the new stores, the reply and the ordered writes are exactly those of `Saga.CancelRental` |
| GatewayService.Gateway.FinishRental | services/gateway_service/main.py:253-285 | the new stores, the reply and the ordered writes are exactly those of `Saga.FinishRental` |
| GatewayService.Gateway.GetRental | services/gateway_service/main.py:166-212 | another user's rental, or a missing one, gives 404, and any other ledger failure passes its status on. Otherwise the reply is the enriched view of the rental, built from that call's car and payment lookups |
| GatewayService.EntryView | services/gateway_service/main.py:132-161 | one listed rental enriched: `Enrichment.View` of the rental with the car and payment lookups made for it. It has no contract of its own |
| GatewayService.EnrichAll | services/gateway_service/main.py:130-163 | the loop yields one view per listed rental. Entry k is the k-th rental enriched with the k-th car and payment lookups |
| GatewayService.Gateway.GetUserRentals | services/gateway_service/main.py:118-163 | a ledger failure passes its status on. Otherwise entry k is the k-th rental of the ledger's listing (`UserRentals`), enriched with the k-th lookups. The list has the listing's length, and every entry is a rental of the caller |

## Left out

- HTTP routing, header and query parsing, the mapping of exceptions to responses, the
  HTTP client, server start-up and base-URL configuration: every call is reduced to its
  outcome (a `Link`).
- `health_check` and `get_cars`: they only forward the inventory's answer.
- Calls that raise instead of answering (connection errors, timeouts): the model assumes
  every call returns an HTTP status. In the source, such an exception inside a compensation
  or a clean-up call would also skip the calls after it and answer 500.
- Concurrency: each workflow runs as one sequential call. The race between two concurrent
  creates on one car is not modelled. `Saga.CreateIgnoresAvailability` and
  `Consistency.CreateDoubleBooks` show the sequential form of the same gap: create never
  reads the availability flag.
- Date strings: a date is a (year, month, day) triple, and the parser is not modelled.
  Times of day and time zones are not modelled. A string that does not parse is modelled
  as a triple that is not a calendar date in years 1 to 9999.
- The services' own storage, validation and ids:
  - stores are plain maps;
  - the payment and rental ids are inputs;
  - the ledger's listing order is an input.
- The ledger's own rule that only an IN_PROGRESS rental can be canceled or finished is
  not modelled: a ledger call that goes through applies the transition. The preservation
  lemmas take the rule as the hypothesis `LedgerGuards`.
- Downstream.UserRentals: the ledger's listing order `order` is an unconstrained input. It may leave out rental ids or repeat them, and then the listing leaves out or repeats rentals. Completeness and uniqueness are proved only for an order that satisfies `LedgerOrder` (`UserRentalsExactlyOnce`).
- Pricing.PriceNonNegative: holds only for a non-negative daily rate. The inventory types
  a car's price as an unconstrained integer, and the gateway does not check its sign.
- Pydantic validation and serialisation of requests and replies.
- The model follows the code in these places:
  - a failed payment call ends a create with 500 (main.py:67-68);
  - the price sent for payment may be zero or negative (main.py:59-60);
  - failed compensations and clean-up calls are ignored, not reported separately
    (main.py:77-100);
  - a ledger lookup that fails with a status other than 404 passes that status on
    (main.py:228-229).
