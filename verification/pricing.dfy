/** The price of a rental: the number of days between its two dates, whichever way round
    they are given, times the car's price per day. */
module Pricing {
  import opened Calendar

  function Abs(x: int): (a: nat)
    ensures a == x || a == -x
  {
    if x < 0 then -x else x
  }

  /** `(to - from).days` for two dates: negative when `to` comes first. */
  function DaysBetween(from: Date, to: Date): int
    requires WellFormed(from) && WellFormed(to)
  {
    Ordinal(to) - Ordinal(from)
  }

  /** The total the gateway charges: the absolute day count times the daily rate. */
  function TotalPrice(from: Date, to: Date, rate: int): (p: int)
    requires WellFormed(from) && WellFormed(to)
    ensures from == to ==> p == 0
    ensures p == Abs(DaysBetween(to, from)) * rate
  {
    Abs(DaysBetween(from, to)) * rate
  }

  /** Signs of a product of a day count and a rate. */
  lemma ProductSigns(days: nat, rate: int)
    ensures rate >= 0 ==> days * rate >= 0
    ensures days * rate == 0 <==> days == 0 || rate == 0
  {
  }

  /** With a non-negative rate the total is never negative. */
  lemma PriceNonNegative(from: Date, to: Date, rate: int)
    requires WellFormed(from) && WellFormed(to)
    requires rate >= 0
    ensures TotalPrice(from, to, rate) >= 0
  {
    ProductSigns(Abs(DaysBetween(from, to)), rate);
  }

  /** A rental over `n` consecutive days costs `n` times the rate, in either direction. */
  lemma PriceOfDays(from: Date, n: nat, rate: int)
    requires WellFormed(from)
    ensures TotalPrice(from, Later(from, n), rate) == n * rate
    ensures TotalPrice(Later(from, n), from, rate) == n * rate
  {
    OrdinalLater(from, n);
  }

  /** The total is zero exactly when the two dates are the same day or the rate is zero. */
  lemma PriceZero(from: Date, to: Date, rate: int)
    requires WellFormed(from) && WellFormed(to)
    ensures TotalPrice(from, to, rate) == 0 <==> from == to || rate == 0
  {
    OrdinalOrder(from, to);
    ProductSigns(Abs(DaysBetween(from, to)), rate);
  }

  /** From 2021-10-08 to 2021-10-11 at 100 per day the total is 300. */
  lemma PriceExample()
    ensures TotalPrice(Date(2021, 10, 8), Date(2021, 10, 11), 100) == 300
  {
  }
}
