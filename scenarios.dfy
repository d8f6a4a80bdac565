/**
 * Worked examples of the engine's behaviour over concrete inputs, amounts in
 * cents.
 */
module Scenarios {
  import opened Entities
  import opened Text
  import opened Expansion
  import opened Aggregation
  import opened Projection

  /** A weekly paycheck due today is paid today, every 7 days after, and up to the horizon inclusive. */
  lemma WeeklyPaycheckFromToday(amount: int, horizonDays: nat)
    ensures var r := PaycheckEntries(Paycheck(amount, "Weekly", 0), horizonDays);
      && (forall k :: 0 <= k < |r| ==> r[k] == Entry(7 * k, amount))
      && (forall k :: 0 <= k < |r| ==> 7 * k <= horizonDays)
      && 7 * |r| > horizonDays
  {
    var p := Paycheck(amount, "Weekly", 0);
    assert Lower("Weekly") == "weekly";
    assert PaycheckStep(p.schedule) == 7;
    PaycheckEntriesShape(p, horizonDays);
    var r := PaycheckEntries(p, horizonDays);
    forall k | 0 <= k < |r|
      ensures 7 * k <= horizonDays
    {
      assert r[k].date == DateAt(0, 7, k) == 7 * k;
    }
  }

  /** "Bonus" is an income type, whatever its case. */
  lemma BonusIsIncome()
    ensures IsIncomeLifeEvent("Bonus")
  {
    assert Lower("Bonus") == "bonus";
    assert "bonus" in IncomeWords && Includes("bonus", "bonus");
  }

  /** "rent" is not an income type: no income word fits in four letters except "gift", which differs. */
  lemma RentIsNotIncome()
    ensures !IsIncomeLifeEvent("rent")
  {
    assert Lower("rent") == "rent";
    forall w | w in IncomeWords
      ensures !Includes("rent", w)
    {
      assert |w| >= 4;
    }
  }

  lemma OnceDoesNotRepeat()
    ensures RecurrenceStep("once").None?
  {
    assert Lower("once") == "once";
  }

  /** A one-off bonus today gives exactly one inflow today, whatever the horizon. */
  lemma BonusOnceToday(horizonDays: nat)
    ensures LifeEventEntries(LifeEvent("Bonus", 50000, 0, None, "once"), horizonDays) == [Entry(0, 50000)]
  {
    BonusIsIncome();
    OnceDoesNotRepeat();
    LifeEventEntriesShape(LifeEvent("Bonus", 50000, 0, None, "once"), horizonDays);
  }

  /** A card due today, 300 now and 200 later, over 65 days: charges on days 0, 30 and 60 only. */
  lemma CardOverSixtyFiveDays()
    ensures CardEntries(CreditCard(0, 30000, 20000), 65) == [Entry(0, -30000), Entry(30, -20000), Entry(60, -20000)]
  {
    assert Run(90, CardCycle, -20000, 65) == [];
    assert Run(60, CardCycle, -20000, 65) == [Entry(60, -20000)];
  }

  /**
   * A "once" event that started before today comes round again one horizon
   * later, so its second occurrence falls inside the window.
   */
  lemma PastOnceEventRecurs()
    ensures LifeEventEntries(LifeEvent("rent", 10000, -5, None, "once"), 10) == [Entry(-5, -10000), Entry(6, -10000)]
  {
    RentIsNotIncome();
    OnceDoesNotRepeat();
    assert LifeEventStep("once", 10) == 11;
    assert Run(17, 11, -10000, 10) == [];
  }

  /** Monthly rent of 1000 from today, expanded over a 35-day horizon: charged on day 0 and day 30. */
  lemma RentEntries()
    ensures AllLifeEventEntries([LifeEvent("rent", 100000, 0, None, "monthly")], 35)
      == [Entry(0, -100000), Entry(30, -100000)]
  {
    assert [LifeEvent("rent", 100000, 0, None, "monthly")][..0] == [];
    RentIsNotIncome();
    assert Lower("monthly") == "monthly";
    assert LifeEventStep("monthly", 35) == 30;
    assert Run(60, 30, -100000, 35) == [];
    assert Run(30, 30, -100000, 35) == [Entry(30, -100000)];
  }

  const RentCharges: seq<Entry> := [Entry(0, -100000), Entry(30, -100000)]

  /** In the rent scenario nothing comes in, and 1000 goes out on days 0 and 30 only. */
  lemma RentDay(d: Day)
    ensures Inflow([], RentCharges, d) == 0
    ensures Outflow([], RentCharges, d) == if d == 0 || d == 30 then 100000 else 0
  {
    var today := On(RentCharges, d);
    if d == 0 || d == 30 {
      assert today == [Entry(d, -100000)];
      assert Positive(today) == [];
      assert Negative(today) == [Entry(d, -100000)];
    } else {
      OnNone(RentCharges, d);
    }
  }

  /** The daily balances of the rent scenario: 0 after days 0 .. 29, -1000 from day 30 on. */
  lemma {:induction false} RentBalances(n: nat)
    requires n <= 36
    ensures BalanceAfter(100000, [], RentCharges, [], n) == if n == 0 then 100000 else if n <= 30 then 0 else -100000
  {
    if n > 0 {
      RentBalances(n - 1);
      RentDay(n - 1);
    }
  }

  /**
   * One account of 1000, monthly rent of 1000 from today, 35 days: the
   * balance falls to 0 today and to -1000 on day 30, which is the lowest
   * balance and its date, and the ending balance.
   */
  lemma RentScenario(r: ProjectionResult, horizonDays: nat)
    requires horizonDays == 35
    requires IsProjection(r, StartBalance([Account(100000)]), AllPaycheckEntries([], horizonDays),
                          AllLifeEventEntries([LifeEvent("rent", 100000, 0, None, "monthly")], horizonDays),
                          AllCardEntries([], horizonDays), horizonDays)
    ensures r.series[0].balance == 0 && r.series[29].balance == 0 && r.series[30].balance == -100000
    ensures r.lowestBalance == -100000 && r.lowestDate == 30
    ensures r.endingBalance == -100000
  {
    RentEntries();
    assert [Account(100000)][..0] == [];
    assert StartBalance([Account(100000)]) == 100000;
    RentProjection(r, horizonDays);
  }

  lemma RentProjection(r: ProjectionResult, horizonDays: nat)
    requires horizonDays == 35
    requires IsProjection(r, 100000, [], RentCharges, [], horizonDays)
    ensures r.series[0].balance == 0 && r.series[29].balance == 0 && r.series[30].balance == -100000
    ensures r.lowestBalance == -100000 && r.lowestDate == 30
    ensures r.endingBalance == -100000
  {
    RentSeries(r, horizonDays);
    RentBalances(horizonDays + 1);
    RentLowest(r.series, r.lowestBalance, r.lowestDate);
  }

  lemma RentSeries(r: ProjectionResult, horizonDays: nat)
    requires horizonDays == 35
    requires IsProjection(r, 100000, [], RentCharges, [], horizonDays)
    ensures |r.series| == 36
    ensures forall d :: 0 <= d < 36 ==> r.series[d].balance == if d < 30 then 0 else -100000
  {
    SeriesAt(100000, [], RentCharges, [], horizonDays + 1);
    forall d | 0 <= d < 36
      ensures r.series[d].balance == if d < 30 then 0 else -100000
    {
      RentBalances(d + 1);
    }
  }

  /** With those balances, the lowest is -1000, first reached on day 30. */
  lemma RentLowest(series: seq<ProjectionPoint>, lowest: int, date: Day)
    requires |series| == 36
    requires forall d :: 0 <= d < 36 ==> series[d].balance == if d < 30 then 0 else -100000
    requires IsLowest(series, 100000, lowest, date)
    ensures lowest == -100000 && date == 30
  {
    assert lowest <= series[30].balance;
    assert series[date].balance == lowest;
    assert date >= 30;
  }
}
