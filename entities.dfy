/**
 * The records the projection engine reads and produces.
 *
 * Calendar dates are day offsets from "today": today is day 0 and the
 * horizon date is day `horizonDays`. Currency amounts are integer cents.
 * Only the amount, schedule and date fields of the stored records take part
 * in a projection; identifiers, owners and time stamps are dropped.
 */
module Entities {
  datatype Option<T> = None | Some(value: T)

  /** A calendar date, as a number of days after today (negative: in the past). */
  type Day = int

  datatype Account = Account(currentBalance: int)

  datatype Paycheck = Paycheck(amount: int, schedule: string, nextDate: Day)

  datatype CreditCard = CreditCard(nextDueDate: Day, nextDueAmount: int, avgFutureAmount: int)

  /** `kind` is the free-text `type` field of a life event. */
  datatype LifeEvent = LifeEvent(kind: string, amount: int, startDate: Day, endDate: Option<Day>, recurrence: string)

  /** One dated, signed cash flow produced by expanding a recurring source. */
  datatype Entry = Entry(date: Day, amount: int)

  datatype ProjectionPoint = ProjectionPoint(date: Day, balance: int, inflow: int, outflow: int)

  datatype ProjectionResult = ProjectionResult(
    series: seq<ProjectionPoint>,
    lowestBalance: int,
    lowestDate: Day,
    endingBalance: int)

  function Min(a: int, b: int): int
  {
    if a <= b then a else b
  }
}
