/**
 * Source expansion: each paycheck, life event and credit card becomes a run
 * of dated, signed entries that stops at the horizon. Stepping is by fixed
 * day counts, never by calendar months.
 */
module Expansion {
  import opened Entities
  import opened Text

  /** Days between paychecks, keyed on the lower-cased schedule; 30 for any other schedule. */
  function PaycheckStep(schedule: string): (r: nat)
    ensures r in {7, 14, 15, 30, 90}
  {
    var s := Lower(schedule);
    if s == "weekly" then 7
    else if s == "biweekly" || s == "bi-weekly" || s == "fortnightly" then 14
    else if s == "semimonthly" || s == "semi-monthly" then 15
    else if s == "quarterly" then 90
    else 30
  }

  /** Days between life-event occurrences for the recurrences that repeat; None for any other. */
  function RecurrenceStep(recurrence: string): (r: Option<nat>)
    ensures r.Some? ==> r.value in {7, 14, 30, 365}
  {
    var s := Lower(recurrence);
    if s == "weekly" then Some(7)
    else if s == "biweekly" || s == "bi-weekly" then Some(14)
    else if s == "monthly" then Some(30)
    else if s == "yearly" || s == "annually" then Some(365)
    else None
  }

  /**
   * The step a life event's cursor takes: the recurrence's own step, or a
   * jump of `horizonDays + 1` days for any other recurrence (including "once").
   */
  function LifeEventStep(recurrence: string, horizonDays: nat): (r: nat)
    ensures r > 0
    ensures r in {7, 14, 30, 365} || r == horizonDays + 1
  {
    match RecurrenceStep(recurrence)
    case Some(step) => step
    case None => horizonDays + 1
  }

  /** Schedules and recurrences are matched after lower-casing, so their case never matters. */
  lemma StepsIgnoreCase(name: string, horizonDays: nat)
    ensures PaycheckStep(Lower(name)) == PaycheckStep(name)
    ensures LifeEventStep(Lower(name), horizonDays) == LifeEventStep(name, horizonDays)
  {
    LowerIdempotent(name);
  }

  /** Days between credit-card due dates. */
  const CardCycle: nat := 30

  /** The date `k` steps after `start`. */
  function DateAt(start: Day, step: nat, k: nat): Day
  {
    start + k * step
  }

  lemma DateAtMonotone(start: Day, step: nat, j: nat, k: nat)
    requires j <= k
    ensures DateAt(start, step, j) <= DateAt(start, step, k)
  {
  }

  /** The entries of amount `amount` dated `cursor`, `cursor + step`, ... up to `limit` inclusive. */
  function Run(cursor: Day, step: nat, amount: int, limit: Day): seq<Entry>
    requires step > 0
    decreases if cursor <= limit then limit - cursor + 1 else 0
  {
    if cursor > limit then [] else [Entry(cursor, amount)] + Run(cursor + step, step, amount, limit)
  }

  /**
   * Entry k of a run is dated k steps after its start and carries the run's
   * amount; every entry is on or before the limit, and the date one step past
   * the last entry is past the limit, so no date is missing.
   */
  lemma {:induction false} RunShape(cursor: Day, step: nat, amount: int, limit: Day)
    requires step > 0
    ensures var r := Run(cursor, step, amount, limit);
      && (forall k :: 0 <= k < |r| ==> r[k] == Entry(DateAt(cursor, step, k), amount))
      && (forall k :: 0 <= k < |r| ==> r[k].date <= limit)
      && DateAt(cursor, step, |r|) > limit
    decreases if cursor <= limit then limit - cursor + 1 else 0
  {
    if cursor <= limit {
      RunShape(cursor + step, step, amount, limit);
      var r := Run(cursor, step, amount, limit);
      var t := Run(cursor + step, step, amount, limit);
      assert r == [Entry(cursor, amount)] + t;
      forall k | 1 <= k < |r|
        ensures r[k] == Entry(DateAt(cursor, step, k), amount)
      {
        assert r[k] == t[k - 1];
        assert (k - 1) * step == k * step - step;
      }
      assert |t| * step == |r| * step - step;
    }
  }

  /** An entry belongs to a run exactly when it has the run's amount and a date on the schedule within the limit. */
  lemma RunMember(cursor: Day, step: nat, amount: int, limit: Day, e: Entry)
    requires step > 0
    ensures e in Run(cursor, step, amount, limit) <==>
      e.amount == amount && e.date <= limit && exists k: nat :: e.date == DateAt(cursor, step, k)
  {
    var r := Run(cursor, step, amount, limit);
    RunShape(cursor, step, amount, limit);
    if e in r {
      var i :| 0 <= i < |r| && r[i] == e;
      assert e.date == DateAt(cursor, step, i);
    }
    if e.amount == amount && e.date <= limit && exists k: nat :: e.date == DateAt(cursor, step, k) {
      var k: nat :| e.date == DateAt(cursor, step, k);
      if k >= |r| {
        DateAtMonotone(cursor, step, |r|, k);
      }
      assert r[k] == e;
    }
  }

  // ---- paychecks ----

  function PaycheckEntries(p: Paycheck, horizonDays: nat): seq<Entry>
  {
    Run(p.nextDate, PaycheckStep(p.schedule), p.amount, horizonDays)
  }

  /**
   * A paycheck is paid on its next date and every step after it up to the
   * horizon, each time for its amount as given; past the horizon, never.
   */
  lemma PaycheckEntriesShape(p: Paycheck, horizonDays: nat)
    ensures var r := PaycheckEntries(p, horizonDays);
      && (forall k :: 0 <= k < |r| ==> r[k] == Entry(DateAt(p.nextDate, PaycheckStep(p.schedule), k), p.amount))
      && (forall k :: 0 <= k < |r| ==> r[k].date <= horizonDays)
      && DateAt(p.nextDate, PaycheckStep(p.schedule), |r|) > horizonDays
      && (p.nextDate > horizonDays ==> r == [])
  {
    RunShape(p.nextDate, PaycheckStep(p.schedule), p.amount, horizonDays);
  }

  /** The paychecks' entries, one paycheck after another. */
  function AllPaycheckEntries(ps: seq<Paycheck>, horizonDays: nat): seq<Entry>
  {
    if ps == [] then []
    else AllPaycheckEntries(ps[..|ps| - 1], horizonDays) + PaycheckEntries(ps[|ps| - 1], horizonDays)
  }

  /**
   * Every paycheck entry is on some paycheck's schedule, at most at the
   * horizon, for that paycheck's amount; and every such date is present.
   */
  lemma {:induction false} PaycheckExpansion(ps: seq<Paycheck>, horizonDays: nat, e: Entry)
    ensures e in AllPaycheckEntries(ps, horizonDays) <==>
      exists p :: p in ps && e.amount == p.amount && e.date <= horizonDays &&
        exists k: nat :: e.date == DateAt(p.nextDate, PaycheckStep(p.schedule), k)
  {
    if ps != [] {
      var init, last := ps[..|ps| - 1], ps[|ps| - 1];
      assert ps == init + [last];
      PaycheckExpansion(init, horizonDays, e);
      RunMember(last.nextDate, PaycheckStep(last.schedule), last.amount, horizonDays, e);
    }
  }

  // ---- life events ----

  /** The explicit end date, or the horizon when there is none. */
  function LifeEventEnd(e: LifeEvent, horizonDays: nat): Day
  {
    match e.endDate
    case Some(d) => d
    case None => horizonDays
  }

  function LifeEventEntries(e: LifeEvent, horizonDays: nat): seq<Entry>
  {
    Run(e.startDate, LifeEventStep(e.recurrence, horizonDays), LifeEventSign(e.kind) * e.amount,
        Min(horizonDays, LifeEventEnd(e, horizonDays)))
  }

  /**
   * A life event occurs on its start date and every step after it, never past
   * the horizon nor past its end date, each time for its signed amount. An end
   * date before the start yields nothing; a recurrence that does not repeat,
   * started today or later and not yet ended, yields exactly one entry.
   */
  lemma LifeEventEntriesShape(e: LifeEvent, horizonDays: nat)
    ensures var r := LifeEventEntries(e, horizonDays);
      var step := LifeEventStep(e.recurrence, horizonDays);
      var amount := if IsIncomeLifeEvent(e.kind) then e.amount else -e.amount;
      && (forall k :: 0 <= k < |r| ==> r[k] == Entry(DateAt(e.startDate, step, k), amount))
      && (forall k :: 0 <= k < |r| ==> r[k].date <= horizonDays && r[k].date <= LifeEventEnd(e, horizonDays))
      && DateAt(e.startDate, step, |r|) > Min(horizonDays, LifeEventEnd(e, horizonDays))
      && (e.endDate.Some? && e.endDate.value < e.startDate ==> r == [])
      && (RecurrenceStep(e.recurrence).None? && 0 <= e.startDate <= Min(horizonDays, LifeEventEnd(e, horizonDays))
          ==> r == [Entry(e.startDate, amount)])
  {
    var step := LifeEventStep(e.recurrence, horizonDays);
    var limit := Min(horizonDays, LifeEventEnd(e, horizonDays));
    RunShape(e.startDate, step, LifeEventSign(e.kind) * e.amount, limit);
    if RecurrenceStep(e.recurrence).None? && 0 <= e.startDate <= limit {
      assert Run(e.startDate + step, step, LifeEventSign(e.kind) * e.amount, limit) == [];
    }
  }

  /** The life events' entries, one event after another. */
  function AllLifeEventEntries(es: seq<LifeEvent>, horizonDays: nat): seq<Entry>
  {
    if es == [] then []
    else AllLifeEventEntries(es[..|es| - 1], horizonDays) + LifeEventEntries(es[|es| - 1], horizonDays)
  }

  /**
   * Every life-event entry is on some event's schedule, within both the
   * horizon and that event's end, for that event's signed amount; and every
   * such date is present.
   */
  lemma {:induction false} LifeEventExpansion(es: seq<LifeEvent>, horizonDays: nat, x: Entry)
    ensures x in AllLifeEventEntries(es, horizonDays) <==>
      exists e :: e in es && x.amount == LifeEventSign(e.kind) * e.amount &&
        x.date <= horizonDays && x.date <= LifeEventEnd(e, horizonDays) &&
        exists k: nat :: x.date == DateAt(e.startDate, LifeEventStep(e.recurrence, horizonDays), k)
  {
    if es != [] {
      var init, last := es[..|es| - 1], es[|es| - 1];
      assert es == init + [last];
      LifeEventExpansion(init, horizonDays, x);
      RunMember(last.startDate, LifeEventStep(last.recurrence, horizonDays), LifeEventSign(last.kind) * last.amount,
                Min(horizonDays, LifeEventEnd(last, horizonDays)), x);
    }
  }

  // ---- credit cards ----

  /** A card's charges from `cursor`: the first for `firstAmount`, every later one for `laterAmount`. */
  function CardRun(cursor: Day, firstAmount: int, laterAmount: int, limit: Day): seq<Entry>
  {
    if cursor > limit then [] else [Entry(cursor, -firstAmount)] + Run(cursor + CardCycle, CardCycle, -laterAmount, limit)
  }

  function CardEntries(c: CreditCard, horizonDays: nat): seq<Entry>
  {
    CardRun(c.nextDueDate, c.nextDueAmount, c.avgFutureAmount, horizonDays)
  }

  /**
   * A card is charged on its next due date and every 30 days after it up to
   * the horizon: first the amount due, then the average amount each time.
   * With non-negative amounts no charge is positive.
   */
  lemma CardEntriesShape(c: CreditCard, horizonDays: nat)
    ensures var r := CardEntries(c, horizonDays);
      && (|r| > 0 ==> r[0] == Entry(c.nextDueDate, -c.nextDueAmount))
      && (forall k :: 1 <= k < |r| ==> r[k] == Entry(DateAt(c.nextDueDate, CardCycle, k), -c.avgFutureAmount))
      && (forall k :: 0 <= k < |r| ==> r[k].date <= horizonDays)
      && DateAt(c.nextDueDate, CardCycle, |r|) > horizonDays
      && (c.nextDueDate > horizonDays ==> r == [])
      && (c.nextDueAmount >= 0 && c.avgFutureAmount >= 0 ==> forall k :: 0 <= k < |r| ==> r[k].amount <= 0)
  {
    var r := CardEntries(c, horizonDays);
    if c.nextDueDate <= horizonDays {
      var t := Run(c.nextDueDate + CardCycle, CardCycle, -c.avgFutureAmount, horizonDays);
      RunShape(c.nextDueDate + CardCycle, CardCycle, -c.avgFutureAmount, horizonDays);
      assert r == [Entry(c.nextDueDate, -c.nextDueAmount)] + t;
      forall k | 1 <= k < |r|
        ensures r[k] == Entry(DateAt(c.nextDueDate, CardCycle, k), -c.avgFutureAmount)
      {
        assert r[k] == t[k - 1];
      }
    }
  }

  /** The cards' charges, one card after another. */
  function AllCardEntries(cs: seq<CreditCard>, horizonDays: nat): seq<Entry>
  {
    if cs == [] then []
    else AllCardEntries(cs[..|cs| - 1], horizonDays) + CardEntries(cs[|cs| - 1], horizonDays)
  }

  /** No charge of any card lies past the horizon; with non-negative card amounts none is positive. */
  lemma {:induction false} CardExpansionBounds(cs: seq<CreditCard>, horizonDays: nat)
    ensures forall x :: x in AllCardEntries(cs, horizonDays) ==> x.date <= horizonDays
    ensures (forall c :: c in cs ==> c.nextDueAmount >= 0 && c.avgFutureAmount >= 0) ==>
      forall x :: x in AllCardEntries(cs, horizonDays) ==> x.amount <= 0
  {
    if cs != [] {
      var init, last := cs[..|cs| - 1], cs[|cs| - 1];
      assert cs == init + [last];
      CardExpansionBounds(init, horizonDays);
      CardEntriesShape(last, horizonDays);
    }
  }

  // ---- the expansion loops ----

  lemma AllPaycheckEntriesPrefix(ps: seq<Paycheck>, i: nat, horizonDays: nat)
    requires i < |ps|
    ensures AllPaycheckEntries(ps[..i + 1], horizonDays) == AllPaycheckEntries(ps[..i], horizonDays) + PaycheckEntries(ps[i], horizonDays)
  {
    assert ps[..i + 1][..i] == ps[..i];
  }

  lemma AllLifeEventEntriesPrefix(es: seq<LifeEvent>, i: nat, horizonDays: nat)
    requires i < |es|
    ensures AllLifeEventEntries(es[..i + 1], horizonDays) == AllLifeEventEntries(es[..i], horizonDays) + LifeEventEntries(es[i], horizonDays)
  {
    assert es[..i + 1][..i] == es[..i];
  }

  lemma AllCardEntriesPrefix(cs: seq<CreditCard>, i: nat, horizonDays: nat)
    requires i < |cs|
    ensures AllCardEntries(cs[..i + 1], horizonDays) == AllCardEntries(cs[..i], horizonDays) + CardEntries(cs[i], horizonDays)
  {
    assert cs[..i + 1][..i] == cs[..i];
  }

  /** The `forEach` callback of paycheck expansion: one paycheck's entries. */
  method ExpandPaycheck(p: Paycheck, horizonDays: nat) returns (events: seq<Entry>)
    ensures events == PaycheckEntries(p, horizonDays)
  {
    events := [];
    var cursor := p.nextDate;
    var step := PaycheckStep(p.schedule);
    while cursor <= horizonDays
      invariant events + Run(cursor, step, p.amount, horizonDays) == PaycheckEntries(p, horizonDays)
      decreases horizonDays - cursor
    {
      assert Run(cursor, step, p.amount, horizonDays)
        == [Entry(cursor, p.amount)] + Run(cursor + step, step, p.amount, horizonDays);
      events := events + [Entry(cursor, p.amount)];
      cursor := cursor + step;
    }
  }

  method ExpandPaychecks(paychecks: seq<Paycheck>, horizonDays: nat) returns (events: seq<Entry>)
    ensures events == AllPaycheckEntries(paychecks, horizonDays)
  {
    events := [];
    for i := 0 to |paychecks|
      invariant events == AllPaycheckEntries(paychecks[..i], horizonDays)
    {
      var run := ExpandPaycheck(paychecks[i], horizonDays);
      AllPaycheckEntriesPrefix(paychecks, i, horizonDays);
      events := events + run;
    }
    assert paychecks[..|paychecks|] == paychecks;
  }

  /** The `forEach` callback of life-event expansion: one event's entries. */
  method ExpandLifeEvent(e: LifeEvent, horizonDays: nat) returns (items: seq<Entry>)
    ensures items == LifeEventEntries(e, horizonDays)
  {
    items := [];
    var cursor := e.startDate;
    var end := LifeEventEnd(e, horizonDays);
    var step := LifeEventStep(e.recurrence, horizonDays);
    var sign := LifeEventSign(e.kind);
    var amount := sign * e.amount;
    ghost var limit := Min(horizonDays, end);
    ghost var run := Run(cursor, step, amount, limit);
    assert run == LifeEventEntries(e, horizonDays);
    while cursor <= horizonDays && cursor <= end
      invariant items + Run(cursor, step, amount, limit) == run
      decreases horizonDays - cursor
    {
      assert Run(cursor, step, amount, limit) == [Entry(cursor, amount)] + Run(cursor + step, step, amount, limit);
      items := items + [Entry(cursor, amount)];
      cursor := cursor + step;
    }
    assert Run(cursor, step, amount, limit) == [];
  }

  method ExpandLifeEvents(lifeEvents: seq<LifeEvent>, horizonDays: nat) returns (items: seq<Entry>)
    ensures items == AllLifeEventEntries(lifeEvents, horizonDays)
  {
    items := [];
    for i := 0 to |lifeEvents|
      invariant items == AllLifeEventEntries(lifeEvents[..i], horizonDays)
    {
      var run := ExpandLifeEvent(lifeEvents[i], horizonDays);
      AllLifeEventEntriesPrefix(lifeEvents, i, horizonDays);
      items := items + run;
    }
    assert lifeEvents[..|lifeEvents|] == lifeEvents;
  }

  /** The `forEach` callback of card expansion: one card's charges. */
  method ExpandCreditCard(c: CreditCard, horizonDays: nat) returns (charges: seq<Entry>)
    ensures charges == CardEntries(c, horizonDays)
  {
    charges := [];
    var cursor := c.nextDueDate;
    var first := true;
    while cursor <= horizonDays
      invariant first ==> charges == [] && cursor == c.nextDueDate
      invariant !first ==> charges + Run(cursor, CardCycle, -c.avgFutureAmount, horizonDays) == CardEntries(c, horizonDays)
      decreases horizonDays - cursor
    {
      assert Run(cursor, CardCycle, -c.avgFutureAmount, horizonDays)
        == [Entry(cursor, -c.avgFutureAmount)] + Run(cursor + CardCycle, CardCycle, -c.avgFutureAmount, horizonDays);
      charges := charges + [Entry(cursor, -(if first then c.nextDueAmount else c.avgFutureAmount))];
      cursor := cursor + CardCycle;
      first := false;
    }
  }

  method ExpandCreditCards(cards: seq<CreditCard>, horizonDays: nat) returns (charges: seq<Entry>)
    ensures charges == AllCardEntries(cards, horizonDays)
  {
    charges := [];
    for i := 0 to |cards|
      invariant charges == AllCardEntries(cards[..i], horizonDays)
    {
      var run := ExpandCreditCard(cards[i], horizonDays);
      AllCardEntriesPrefix(cards, i, horizonDays);
      charges := charges + run;
    }
    assert cards[..|cards|] == cards;
  }
}
