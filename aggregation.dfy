/**
 * Daily aggregation: the per-day filters and sums over the expanded entries,
 * and the running balance they drive.
 */
module Aggregation {
  import opened Entities

  function Abs(x: int): nat
  {
    if x < 0 then -x else x
  }

  /** The entries dated `d`, in their original order; `OnCount` gives how often each occurs. */
  function On(es: seq<Entry>, d: Day): (r: seq<Entry>)
    ensures forall x :: x in r <==> x in es && x.date == d
  {
    if es == [] then [] else (if es[0].date == d then [es[0]] else []) + On(es[1..], d)
  }

  /** The entries with a positive amount; `PositiveCount` gives how often each occurs. */
  function Positive(es: seq<Entry>): (r: seq<Entry>)
    ensures forall x :: x in r <==> x in es && x.amount > 0
  {
    if es == [] then [] else (if es[0].amount > 0 then [es[0]] else []) + Positive(es[1..])
  }

  /** The entries with a negative amount; `NegativeCount` gives how often each occurs. */
  function Negative(es: seq<Entry>): (r: seq<Entry>)
    ensures forall x :: x in r <==> x in es && x.amount < 0
  {
    if es == [] then [] else (if es[0].amount < 0 then [es[0]] else []) + Negative(es[1..])
  }

  /** The sum of the amounts. */
  function Total(es: seq<Entry>): int
  {
    if es == [] then 0 else es[0].amount + Total(es[1..])
  }

  /** The sum of the magnitudes of the amounts. */
  function AbsTotal(es: seq<Entry>): (r: int)
    ensures r >= 0
    ensures r >= Total(es) && r >= -Total(es)
  {
    if es == [] then 0 else Abs(es[0].amount) + AbsTotal(es[1..])
  }

  /** Money in on day `d`: paychecks as given, plus life events with a positive amount. */
  function Inflow(pay: seq<Entry>, life: seq<Entry>, d: Day): int
  {
    Total(On(pay, d)) + Total(Positive(On(life, d)))
  }

  /** Money out on day `d`: card charges by magnitude, plus life events with a negative amount, by magnitude. */
  function Outflow(cards: seq<Entry>, life: seq<Entry>, d: Day): (r: int)
    ensures r >= 0
  {
    AbsTotal(On(cards, d)) + AbsTotal(Negative(On(life, d)))
  }

  /** The balance after the first `n` days (days 0 .. n-1) starting from `start`. */
  function BalanceAfter(start: int, pay: seq<Entry>, life: seq<Entry>, cards: seq<Entry>, n: nat): int
  {
    if n == 0 then start
    else BalanceAfter(start, pay, life, cards, n - 1) + Inflow(pay, life, n - 1) - Outflow(cards, life, n - 1)
  }

  // ---- the filters keep every occurrence ----

  /** Each entry occurs in the day-`d` filter exactly as often as in the list when dated `d`, and otherwise not at all. */
  lemma {:induction false} OnCount(es: seq<Entry>, d: Day, x: Entry)
    ensures multiset(On(es, d))[x] == if x.date == d then multiset(es)[x] else 0
  {
    if es != [] {
      assert es == [es[0]] + es[1..];
      OnCount(es[1..], d, x);
    }
  }

  /** Each entry occurs in the positive filter exactly as often as in the list when its amount is positive, and otherwise not at all. */
  lemma {:induction false} PositiveCount(es: seq<Entry>, x: Entry)
    ensures multiset(Positive(es))[x] == if x.amount > 0 then multiset(es)[x] else 0
  {
    if es != [] {
      assert es == [es[0]] + es[1..];
      PositiveCount(es[1..], x);
    }
  }

  /** Each entry occurs in the negative filter exactly as often as in the list when its amount is negative, and otherwise not at all. */
  lemma {:induction false} NegativeCount(es: seq<Entry>, x: Entry)
    ensures multiset(Negative(es))[x] == if x.amount < 0 then multiset(es)[x] else 0
  {
    if es != [] {
      assert es == [es[0]] + es[1..];
      NegativeCount(es[1..], x);
    }
  }

  // ---- properties of the sums ----

  lemma TotalCons(x: Entry, r: seq<Entry>)
    ensures Total([x] + r) == x.amount + Total(r)
    ensures AbsTotal([x] + r) == Abs(x.amount) + AbsTotal(r)
  {
  }

  lemma {:induction false} TotalAppend(a: seq<Entry>, b: seq<Entry>)
    ensures Total(a + b) == Total(a) + Total(b)
  {
    if a == [] {
      assert a + b == b;
    } else {
      assert (a + b)[1..] == a[1..] + b;
      TotalAppend(a[1..], b);
    }
  }

  lemma {:induction false} OnAppend(a: seq<Entry>, b: seq<Entry>, d: Day)
    ensures On(a + b, d) == On(a, d) + On(b, d)
  {
    if a == [] {
      assert a + b == b;
    } else {
      assert (a + b)[1..] == a[1..] + b;
      OnAppend(a[1..], b, d);
    }
  }

  /** An amount summed from positive entries only is never negative. */
  lemma {:induction false} TotalPositiveNonNegative(es: seq<Entry>)
    ensures Total(Positive(es)) >= 0
  {
    if es != [] {
      TotalPositiveNonNegative(es[1..]);
      if es[0].amount > 0 {
        TotalCons(es[0], Positive(es[1..]));
      } else {
        assert Positive(es) == Positive(es[1..]);
      }
    }
  }

  /** A sum of non-negative amounts is non-negative. */
  lemma {:induction false} TotalNonNegative(es: seq<Entry>)
    requires forall x :: x in es ==> x.amount >= 0
    ensures Total(es) >= 0
  {
    if es != [] {
      TotalNonNegative(es[1..]);
    }
  }

  /**
   * Splitting life events into positive inflow and negative outflow loses
   * nothing: their difference is the plain signed sum, and zero amounts
   * count on neither side.
   */
  lemma {:induction false} LifeEventNet(es: seq<Entry>)
    ensures Total(Positive(es)) - AbsTotal(Negative(es)) == Total(es)
  {
    if es != [] {
      LifeEventNet(es[1..]);
      var x, rest := es[0], es[1..];
      if x.amount > 0 {
        TotalCons(x, Positive(rest));
        assert Negative(es) == Negative(rest);
      } else if x.amount < 0 {
        TotalCons(x, Negative(rest));
        assert Positive(es) == Positive(rest);
      } else {
        assert Positive(es) == Positive(rest);
        assert Negative(es) == Negative(rest);
      }
    }
  }

  /** When every charge is non-positive, its magnitude sum is the negated signed sum. */
  lemma {:induction false} ChargesNet(es: seq<Entry>)
    requires forall x :: x in es ==> x.amount <= 0
    ensures AbsTotal(es) == -Total(es)
  {
    if es != [] {
      ChargesNet(es[1..]);
    }
  }

  /** With non-negative paycheck amounts, the inflow of a day is never negative. */
  lemma InflowNonNegative(pay: seq<Entry>, life: seq<Entry>, d: Day)
    requires forall x :: x in pay ==> x.amount >= 0
    ensures Inflow(pay, life, d) >= 0
  {
    TotalNonNegative(On(pay, d));
    TotalPositiveNonNegative(On(life, d));
  }

  /** Removing the entry at index `i` takes its amount out of the sum. */
  lemma TotalRemove(es: seq<Entry>, i: nat)
    requires i < |es|
    ensures Total(es) == es[i].amount + Total(es[..i] + es[i + 1..])
  {
    assert es == es[..i] + ([es[i]] + es[i + 1..]);
    TotalAppend(es[..i], [es[i]] + es[i + 1..]);
    TotalCons(es[i], es[i + 1..]);
    TotalAppend(es[..i], es[i + 1..]);
  }

  /** The sum does not depend on the order of the entries, only on how often each occurs. */
  lemma {:induction false} TotalPermutation(a: seq<Entry>, b: seq<Entry>)
    requires multiset(a) == multiset(b)
    ensures Total(a) == Total(b)
    decreases |a|
  {
    if a == [] {
      assert |b| == |multiset(b)| == 0;
    } else {
      assert a == [a[0]] + a[1..];
      assert a[0] in multiset(b);
      var i :| 0 <= i < |b| && b[i] == a[0];
      var b' := b[..i] + b[i + 1..];
      assert b == b[..i] + [b[i]] + b[i + 1..];
      assert multiset(b') == multiset(b) - multiset{a[0]};
      TotalPermutation(a[1..], b');
      TotalRemove(b, i);
    }
  }

  /** Lists holding the same entries equally often hold the same entries of day `d` equally often. */
  lemma OnPermutation(a: seq<Entry>, b: seq<Entry>, d: Day)
    requires multiset(a) == multiset(b)
    ensures multiset(On(a, d)) == multiset(On(b, d))
  {
    forall x
      ensures multiset(On(a, d))[x] == multiset(On(b, d))[x]
    {
      OnCount(a, d, x);
      OnCount(b, d, x);
    }
  }

  /**
   * When no card charge is positive, a day's net change is the signed sum of
   * the entries dated that day, over any list holding the paycheck, life-event
   * and card entries equally often, in whatever order.
   */
  lemma DayNet(pay: seq<Entry>, life: seq<Entry>, cards: seq<Entry>, all: seq<Entry>, d: Day)
    requires forall x :: x in cards ==> x.amount <= 0
    requires multiset(all) == multiset(pay + life + cards)
    ensures Inflow(pay, life, d) - Outflow(cards, life, d) == Total(On(all, d))
  {
    LifeEventNet(On(life, d));
    ChargesNet(On(cards, d));
    OnAppend(pay, life, d);
    OnAppend(pay + life, cards, d);
    TotalAppend(On(pay, d), On(life, d));
    TotalAppend(On(pay, d) + On(life, d), On(cards, d));
    OnPermutation(all, pay + life + cards, d);
    TotalPermutation(On(all, d), On(pay + life + cards, d));
  }

  /** When no entry is dated `d`, nothing passes the filter for day `d`. */
  lemma {:induction false} OnNone(es: seq<Entry>, d: Day)
    requires forall x :: x in es ==> x.date != d
    ensures On(es, d) == []
  {
    if es != [] {
      OnNone(es[1..], d);
    }
  }

  /**
   * Paycheck, life-event and card entries not dated `d`, added to any of the
   * three lists independently, change neither the inflow nor the outflow of day `d`.
   */
  lemma DayIgnoresOthers(pay: seq<Entry>, life: seq<Entry>, cards: seq<Entry>,
                         ep: seq<Entry>, el: seq<Entry>, ec: seq<Entry>, d: Day)
    requires forall x :: x in ep ==> x.date != d
    requires forall x :: x in el ==> x.date != d
    requires forall x :: x in ec ==> x.date != d
    ensures Inflow(pay + ep, life + el, d) == Inflow(pay, life, d)
    ensures Outflow(cards + ec, life + el, d) == Outflow(cards, life, d)
  {
    OnNone(ep, d);
    OnNone(el, d);
    OnNone(ec, d);
    OnAppend(pay, ep, d);
    OnAppend(life, el, d);
    OnAppend(cards, ec, d);
    assert On(pay + ep, d) == On(pay, d);
    assert On(life + el, d) == On(life, d);
    assert On(cards + ec, d) == On(cards, d);
  }

  /** Two sets of entries with the same inflow and outflow on each of the first `n` days give the same balance after them. */
  lemma {:induction false} BalanceAgrees(start: int, pay: seq<Entry>, life: seq<Entry>, cards: seq<Entry>,
                                         pay': seq<Entry>, life': seq<Entry>, cards': seq<Entry>, n: nat)
    requires forall d :: 0 <= d < n ==> Inflow(pay', life', d) == Inflow(pay, life, d)
    requires forall d :: 0 <= d < n ==> Outflow(cards', life', d) == Outflow(cards, life, d)
    ensures BalanceAfter(start, pay', life', cards', n) == BalanceAfter(start, pay, life, cards, n)
  {
    if n > 0 {
      BalanceAgrees(start, pay, life, cards, pay', life', cards', n - 1);
    }
  }

  /**
   * Entries dated outside days 0 .. n-1 (before today, or after the window),
   * added to any of the three lists independently, leave the balance after
   * n days unchanged.
   */
  lemma BalanceIgnoresOutsideWindow(start: int, pay: seq<Entry>, life: seq<Entry>, cards: seq<Entry>,
                                    ep: seq<Entry>, el: seq<Entry>, ec: seq<Entry>, n: nat)
    requires forall x :: x in ep ==> x.date < 0 || x.date >= n
    requires forall x :: x in el ==> x.date < 0 || x.date >= n
    requires forall x :: x in ec ==> x.date < 0 || x.date >= n
    ensures BalanceAfter(start, pay + ep, life + el, cards + ec, n) == BalanceAfter(start, pay, life, cards, n)
  {
    forall d | 0 <= d < n
      ensures Inflow(pay + ep, life + el, d) == Inflow(pay, life, d)
      ensures Outflow(cards + ec, life + el, d) == Outflow(cards, life, d)
    {
      DayIgnoresOthers(pay, life, cards, ep, el, ec, d);
    }
    BalanceAgrees(start, pay, life, cards, pay + ep, life + el, cards + ec, n);
  }
}
