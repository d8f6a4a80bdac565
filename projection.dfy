/**
 * The projection itself: expand every source, walk the days from today to
 * the horizon inclusive keeping a running balance and its lowest point, and
 * package the series with its summary figures.
 */
module Projection {
  import opened Entities
  import opened Expansion
  import opened Aggregation

  /** The sum of the accounts' current balances. */
  function StartBalance(accounts: seq<Account>): int
  {
    if accounts == [] then 0
    else StartBalance(accounts[..|accounts| - 1]) + accounts[|accounts| - 1].currentBalance
  }

  function TotalInflow(series: seq<ProjectionPoint>): int
  {
    if series == [] then 0 else TotalInflow(series[..|series| - 1]) + series[|series| - 1].inflow
  }

  function TotalOutflow(series: seq<ProjectionPoint>): int
  {
    if series == [] then 0 else TotalOutflow(series[..|series| - 1]) + series[|series| - 1].outflow
  }

  /** The point for day `d`: its date, the balance after it, and its inflow and outflow. */
  function PointFor(start: int, pay: seq<Entry>, life: seq<Entry>, cards: seq<Entry>, d: nat): ProjectionPoint
  {
    ProjectionPoint(d, BalanceAfter(start, pay, life, cards, d + 1), Inflow(pay, life, d), Outflow(cards, life, d))
  }

  /** The points for days 0 .. n-1, in date order. */
  function Series(start: int, pay: seq<Entry>, life: seq<Entry>, cards: seq<Entry>, n: nat): seq<ProjectionPoint>
  {
    if n == 0 then [] else Series(start, pay, life, cards, n - 1) + [PointFor(start, pay, life, cards, n - 1)]
  }

  /** The series has one point per day, and the point at index d is the point for day d. */
  lemma {:induction false} SeriesAt(start: int, pay: seq<Entry>, life: seq<Entry>, cards: seq<Entry>, n: nat)
    ensures |Series(start, pay, life, cards, n)| == n
    ensures forall d :: 0 <= d < n ==> Series(start, pay, life, cards, n)[d] == PointFor(start, pay, life, cards, d)
  {
    if n > 0 {
      SeriesAt(start, pay, life, cards, n - 1);
    }
  }

  /**
   * `lowest` is the smaller of `start` and every balance in `series`, and
   * `date` is the first day whose balance is that lowest one when it is below
   * `start`, or today when the balance never drops below `start`.
   */
  ghost predicate IsLowest(series: seq<ProjectionPoint>, start: int, lowest: int, date: Day)
  {
    && lowest <= start
    && (forall d :: 0 <= d < |series| ==> lowest <= series[d].balance)
    && (lowest < start ==>
          && 0 <= date < |series|
          && series[date].balance == lowest
          && forall d :: 0 <= d < date ==> series[d].balance > lowest)
    && (lowest == start ==> date == 0)
  }

  /**
   * The loop's update keeps the lowest balance: a new point replaces it only
   * when strictly below it, so an equal later balance keeps the earlier date.
   */
  lemma LowestStep(series: seq<ProjectionPoint>, p: ProjectionPoint, start: int, lowest: int, date: Day)
    requires IsLowest(series, start, lowest, date)
    ensures p.balance < lowest ==> IsLowest(series + [p], start, p.balance, |series|)
    ensures p.balance >= lowest ==> IsLowest(series + [p], start, lowest, date)
  {
  }

  /**
   * `r` is the projection of the expanded entries over days 0 .. horizonDays
   * from balance `start`: the points for those days, the balance after the
   * last day, and the lowest balance with the first day it was reached.
   */
  ghost predicate IsProjection(r: ProjectionResult, start: int, pay: seq<Entry>, life: seq<Entry>, cards: seq<Entry>,
                               horizonDays: nat)
  {
    && r.series == Series(start, pay, life, cards, horizonDays + 1)
    && |r.series| == horizonDays + 1
    && r.endingBalance == BalanceAfter(start, pay, life, cards, horizonDays + 1)
    && IsLowest(r.series, start, r.lowestBalance, r.lowestDate)
  }

  /** The balance after n days is the start balance plus the inflows minus the outflows of their points. */
  lemma {:induction false} BalanceIsRunningSum(start: int, pay: seq<Entry>, life: seq<Entry>, cards: seq<Entry>, n: nat)
    ensures var s := Series(start, pay, life, cards, n);
      BalanceAfter(start, pay, life, cards, n) == start + TotalInflow(s) - TotalOutflow(s)
  {
    if n > 0 {
      BalanceIsRunningSum(start, pay, life, cards, n - 1);
      var s := Series(start, pay, life, cards, n);
      assert s[..|s| - 1] == Series(start, pay, life, cards, n - 1);
    }
  }

  /**
   * The series has one point per day from today to the horizon, in date
   * order, each with the balance after that day; the ending balance is
   * the last point's balance and equals the start balance plus all inflows
   * minus all outflows; the lowest balance is the start balance or some
   * point's balance, whichever is smaller.
   */
  lemma ProjectionSummary(r: ProjectionResult, start: int, pay: seq<Entry>, life: seq<Entry>, cards: seq<Entry>,
                          horizonDays: nat)
    requires IsProjection(r, start, pay, life, cards, horizonDays)
    ensures |r.series| == horizonDays + 1
    ensures forall d :: 0 <= d <= horizonDays ==> r.series[d] == PointFor(start, pay, life, cards, d)
    ensures forall d :: 0 <= d <= horizonDays ==> r.series[d].date == d
    ensures r.endingBalance == r.series[horizonDays].balance
    ensures r.endingBalance == start + TotalInflow(r.series) - TotalOutflow(r.series)
    ensures r.lowestBalance == start || exists d :: 0 <= d <= horizonDays && r.series[d].balance == r.lowestBalance
  {
    SeriesAt(start, pay, life, cards, horizonDays + 1);
    BalanceIsRunningSum(start, pay, life, cards, horizonDays + 1);
    assert r.series[horizonDays] == PointFor(start, pay, life, cards, horizonDays);
  }

  /** Two projections of the same entries are equal: the result is a function of the inputs. */
  lemma ProjectionUnique(r1: ProjectionResult, r2: ProjectionResult, start: int, pay: seq<Entry>, life: seq<Entry>,
                         cards: seq<Entry>, horizonDays: nat)
    requires IsProjection(r1, start, pay, life, cards, horizonDays)
    requires IsProjection(r2, start, pay, life, cards, horizonDays)
    ensures r1 == r2
  {
    SeriesAt(start, pay, life, cards, horizonDays + 1);
    if r1.lowestBalance < start {
      assert r2.lowestBalance <= r1.series[r1.lowestDate].balance;
    }
    if r2.lowestBalance < start {
      assert r1.lowestBalance <= r2.series[r2.lowestDate].balance;
    }
    assert r1.lowestBalance == r2.lowestBalance;
    if r1.lowestBalance < start {
      assert r2.series[r1.lowestDate].balance == r2.lowestBalance;
      assert r1.series[r2.lowestDate].balance == r1.lowestBalance;
    }
  }

  method BuildProjection(accounts: seq<Account>, paychecks: seq<Paycheck>, creditCards: seq<CreditCard>,
                         lifeEvents: seq<LifeEvent>, horizonDays: nat) returns (r: ProjectionResult)
    ensures IsProjection(r, StartBalance(accounts), AllPaycheckEntries(paychecks, horizonDays),
                         AllLifeEventEntries(lifeEvents, horizonDays), AllCardEntries(creditCards, horizonDays), horizonDays)
  {
    var startBalance := StartBalance(accounts);
    var paycheckEvents := ExpandPaychecks(paychecks, horizonDays);
    var lifeEventEntries := ExpandLifeEvents(lifeEvents, horizonDays);
    var cardCharges := ExpandCreditCards(creditCards, horizonDays);
    r := Aggregate(startBalance, paycheckEvents, lifeEventEntries, cardCharges, horizonDays);
  }

  method Aggregate(startBalance: int, paycheckEvents: seq<Entry>, lifeEventEntries: seq<Entry>, cardCharges: seq<Entry>,
                   horizonDays: nat) returns (r: ProjectionResult)
    ensures IsProjection(r, startBalance, paycheckEvents, lifeEventEntries, cardCharges, horizonDays)
  {
    var balance := startBalance;
    var lowestBalance := startBalance;
    var lowestDate: Day := 0;
    var points: seq<ProjectionPoint> := [];

    for cursor := 0 to horizonDays + 1
      invariant points == Series(startBalance, paycheckEvents, lifeEventEntries, cardCharges, cursor)
      invariant |points| == cursor
      invariant balance == BalanceAfter(startBalance, paycheckEvents, lifeEventEntries, cardCharges, cursor)
      invariant IsLowest(points, startBalance, lowestBalance, lowestDate)
    {
      var inflow := Inflow(paycheckEvents, lifeEventEntries, cursor);
      var outflow := Outflow(cardCharges, lifeEventEntries, cursor);
      balance := balance + inflow - outflow;
      assert ProjectionPoint(cursor, balance, inflow, outflow)
        == PointFor(startBalance, paycheckEvents, lifeEventEntries, cardCharges, cursor);
      var point := ProjectionPoint(cursor, balance, inflow, outflow);
      LowestStep(points, point, startBalance, lowestBalance, lowestDate);
      if balance < lowestBalance {
        lowestBalance := balance;
        lowestDate := cursor;
      }
      points := points + [point];
    }

    r := ProjectionResult(points, lowestBalance, lowestDate, balance);
  }
}
