# Cash-flow projection engine, modelled in Dafny

This project models the projection engine of a personal cash-flow planner
(`lib/projection.ts`). Given account balances, paychecks, credit cards and
life events, the engine projects the balance day by day from today to a
horizon. It works in three stages:

1. **Source expansion.** Each recurring source becomes dated, signed entries.
   Paychecks step by a fixed day count looked up from their lower-cased
   schedule. Life events step by their recurrence and are signed by a
   keyword test on their type. Cards charge the amount due first, then the
   average amount every 30 days.
2. **Daily aggregation.** The engine walks each day from today to today +
   `horizonDays`, inclusive. For each day it sums the inflow and outflow,
   updates the running balance, and tracks the lowest balance with its date.
3. **Result assembly.** The engine returns the series with the lowest
   balance, its date, and the ending balance.

Abstractions used throughout:

- **Dates** are integer day offsets from today: today is 0 and the horizon
  is `horizonDays`. Adding days is `+`, and equal formatted dates are equal
  integers.
- **Amounts** are integer cents. The per-point rounding to cents is
  therefore the identity.
- **Start dates** may be negative (in the past) and are expanded as written.
  The aggregator never matches entries dated before day 0
  (`BalanceIgnoresOutsideWindow`).
- **`BuildProjection`** is written as the expansion calls followed by
  `Aggregate`, the daily loop. `Aggregate` keeps the source's variables
  (`balance`, `lowestBalance`, `lowestDate`, `points`).
- **`forEach` callbacks.** Each callback of the three expansion loops is its
  own method (`ExpandPaycheck`, `ExpandLifeEvent`, `ExpandCreditCard`). It
  holds the source's `while` loop over `cursor`, and the outer loop appends
  what it returns.

Files:

- `entities.dfy`: the records.
- `text.dfy`: lower-casing, substring search, the income test.
- `expansion.dfy`: step tables, runs of entries, the expansion loops.
- `aggregation.dfy`: per-day filters and sums, the running balance.
- `projection.dfy`: the daily loop and the projection's specification.
- `scenarios.dfy`: worked examples.

Facts of the code worth knowing:

- Life events accept `bi-weekly` as well as `biweekly` (lib/projection.ts:102).
- A type such as "incoming shipment" is not income: "incoming" does not
  contain "income" (lib/projection.ts:40-41).
- `lowestDate` is typed as possibly null (lib/projection.ts:35), but the
  code always sets it (lib/projection.ts:164, 192); here it is a plain day.

## Model

| member | source | states |
|---|---|---|
| `Text.Lower` | lib/projection.ts:41 | lower-casing keeps the length and lower-cases each character in place |
| `Text.LowerIdempotent` | lib/projection.ts:50 | lower-casing an already lower-cased string changes nothing |
| `Text.Includes` | lib/projection.ts:41 | the substring scan standing for `includes`: it slides `w` along `s` from the left; `Text.IncludesIff` proves it finds `w` exactly when `w` occurs at some index |
| `Text.IncludesIff` | lib/projection.ts:41 | the left-to-right scan finds `w` exactly when `w` occurs in `s` at some index |
| `Text.IsIncomeLifeEvent` | lib/projection.ts:39-42 | a type is income when some income word is found in its lower-cased form by the substring scan; `Text.IsIncomeIff` states this as an occurrence at some index |
| `Text.IsIncomeIff` | lib/projection.ts:39-42 | a type is income exactly when one of "income", "raise", "bonus", "gift", "refund" occurs in its lower-cased form |
| `Text.IsIncomeIgnoresCase` | lib/projection.ts:41 | the income test gives the same answer for a type and its lower-cased form |
| `Text.LifeEventSign` | lib/projection.ts:90 | the sign is +1 or -1, and +1 exactly when an income word occurs in the lower-cased type |
| `Expansion.PaycheckStep` | lib/projection.ts:55-74 | the paycheck step is one of 7, 14, 15, 30, 90 days |
| `Expansion.RecurrenceStep` | lib/projection.ts:97-111 | a repeating recurrence steps by 7, 14, 30 or 365 days |
| `Expansion.LifeEventStep` | lib/projection.ts:97-115 | the life-event step is positive: a repeating recurrence's step, or otherwise `horizonDays + 1` |
| `Expansion.StepsIgnoreCase` | lib/projection.ts:50 | schedule and recurrence lookups give the same step for a name and its lower-cased form |
| `Expansion.RunShape` | lib/projection.ts:53-75 | entry k of a run is dated `start + k*step` with the run's amount; all are on or before the limit; `start + |run|*step` is past the limit |
| `Expansion.RunMember` | lib/projection.ts:92-116 | an entry is in a run exactly when it has the run's amount, a date on the limit or before it, and a date `start + k*step` for some k >= 0 |
| `Expansion.PaycheckEntriesShape` | lib/projection.ts:44-79 | a paycheck emits `next_date + k*step` with its amount as given, up to the horizon inclusive, and nothing when `next_date` is past the horizon |
| `Expansion.PaycheckExpansion` | lib/projection.ts:44-79 | an entry is expanded from the paychecks exactly when some paycheck has its amount and has it on schedule by the horizon |
| `Expansion.LifeEventEnd` | lib/projection.ts:88 | a life event ends at its end date when it has one and at the horizon otherwise; `Expansion.LifeEventEntriesShape` bounds every entry by it |
| `Expansion.LifeEventEntriesShape` | lib/projection.ts:81-120 | entries step from `start_date` by the event's step with `sign * amount`, never past the horizon or the end date; nothing when the end precedes the start; one entry for a non-repeating event starting today or later within the window |
| `Expansion.LifeEventExpansion` | lib/projection.ts:81-120 | an entry is expanded from the events exactly when some event has it on schedule, within both horizon and end date, with that event's signed amount |
| `Expansion.CardEntriesShape` | lib/projection.ts:122-141 | a card charges `-next_due_amount` on its due date, then `-avg_future_amount` every 30 days up to the horizon; nothing past the horizon; no positive charge when both amounts are non-negative |
| `Expansion.CardExpansionBounds` | lib/projection.ts:127-138 | no charge from any card lies past the horizon; with non-negative card amounts no charge is positive |
| `Expansion.ExpandPaycheck` | lib/projection.ts:48-76 | one paycheck's `while` loop emits exactly that paycheck's schedule of entries, and terminates |
| `Expansion.ExpandPaychecks` | lib/projection.ts:44-79 | the loop over all paychecks returns their entries, one paycheck after another |
| `Expansion.ExpandLifeEvent` | lib/projection.ts:86-117 | one event's `while` loop, guarded by `cursor <= horizon && cursor <= end`, emits exactly that event's entries, and terminates |
| `Expansion.ExpandLifeEvents` | lib/projection.ts:81-120 | the loop over all life events returns their entries, one event after another |
| `Expansion.ExpandCreditCard` | lib/projection.ts:127-138 | one card's loop with its `first` flag emits the due amount first and the average amount after, and terminates |
| `Expansion.ExpandCreditCards` | lib/projection.ts:122-141 | the loop over all cards returns their charges, one card after another |
| `Aggregation.On` | lib/projection.ts:174 | the filtered entries are exactly the entries with the day's date |
| `Aggregation.OnCount` | lib/projection.ts:174 | the day filter keeps every occurrence: each entry dated that day occurs in it as often as in the list, any other entry not at all |
| `Aggregation.Positive` | lib/projection.ts:177 | the filtered entries are exactly the entries with a positive amount |
| `Aggregation.PositiveCount` | lib/projection.ts:177 | the positive filter keeps every occurrence of each positive entry and nothing else |
| `Aggregation.Negative` | lib/projection.ts:185 | the filtered entries are exactly the entries with a negative amount |
| `Aggregation.NegativeCount` | lib/projection.ts:185 | the negative filter keeps every occurrence of each negative entry and nothing else |
| `Aggregation.Abs` | lib/projection.ts:183-186 | the magnitude of an amount, never negative; `Aggregation.AbsTotal` states the bounds of its sum |
| `Aggregation.Total` | lib/projection.ts:175-178 | the signed sum of the amounts, as the `reduce` from 0 computes it; `Aggregation.TotalAppend`, `Aggregation.TotalPermutation` and `Aggregation.LifeEventNet` state its properties |
| `Aggregation.AbsTotal` | lib/projection.ts:183 | the sum of magnitudes is non-negative and bounds the signed sum from both sides |
| `Aggregation.Inflow` | lib/projection.ts:172-178 | a day's inflow is the paycheck entries of that day summed as given plus the positive life-event entries of that day; `Aggregation.InflowNonNegative` and `Aggregation.DayNet` state its properties |
| `Aggregation.Outflow` | lib/projection.ts:180-186 | a day's outflow is never negative |
| `Aggregation.InflowNonNegative` | lib/projection.ts:172-178 | with non-negative paycheck amounts a day's inflow is never negative (paychecks are summed as given, without abs) |
| `Aggregation.TotalPositiveNonNegative` | lib/projection.ts:176-178 | the positive life-event part of the inflow is never negative |
| `Aggregation.LifeEventNet` | lib/projection.ts:176-186 | positive minus negative life-event sums equal the signed sum; zero amounts count on neither side |
| `Aggregation.ChargesNet` | lib/projection.ts:181-183 | for non-positive charges the magnitude sum is the negated signed sum |
| `Aggregation.TotalPermutation` | lib/projection.ts:175 | a sum of amounts depends only on how often each entry occurs, not on their order |
| `Aggregation.OnPermutation` | lib/projection.ts:174 | lists holding the same entries equally often give day filters holding the same entries equally often |
| `Aggregation.DayNet` | lib/projection.ts:172-188 | with non-positive card charges, a day's inflow minus outflow is the signed sum of the entries dated that day, taken over any list holding the paycheck, life-event and card entries equally often, in any order |
| `Aggregation.DayIgnoresOthers` | lib/projection.ts:172-186 | adding entries not dated `d` to any of the paycheck, life-event and card lists, independently, changes neither inflow nor outflow of day `d` |
| `Aggregation.BalanceAfter` | lib/projection.ts:162-188 | the balance after n days starts from the start balance and adds each day's inflow minus its outflow; `Projection.BalanceIsRunningSum` ties it to the series |
| `Aggregation.BalanceAgrees` | lib/projection.ts:188 | entry lists that agree on each day's inflow and outflow give the same running balance |
| `Aggregation.BalanceIgnoresOutsideWindow` | lib/projection.ts:166-188 | entries dated before today or after the window, added to any of the three lists independently (a past-dated paycheck's early entries, say), leave the running balance unchanged |
| `Projection.StartBalance` | lib/projection.ts:150-153 | the start balance is the sum of the accounts' current balances; `Projection.BuildProjection` starts the projection from it |
| `Projection.SeriesAt` | lib/projection.ts:195-200 | the series has one point per day, and point d carries date d, the balance after day d, and day d's inflow and outflow |
| `Projection.LowestStep` | lib/projection.ts:190-193 | the strict `<` update keeps the lowest balance: a new point replaces it only when strictly lower, so ties keep the earlier date |
| `Projection.BalanceIsRunningSum` | lib/projection.ts:162-188 | the balance after n days is the start balance plus the first n points' inflows minus their outflows |
| `Projection.ProjectionSummary` | lib/projection.ts:166-208 | the series has `horizonDays + 1` points dated 0..`horizonDays` in order; the ending balance is the last point's balance and equals start + all inflows - all outflows; the lowest balance is the start balance or some point's balance |
| `Projection.ProjectionUnique` | lib/projection.ts:143-209 | two results meeting the specification for the same inputs are equal, so the engine is deterministic |
| `Projection.Aggregate` | lib/projection.ts:162-208 | the daily loop returns the specified series and ending balance; the lowest balance is at most the start and every point's balance, and its date is the first day it is reached, or today if the balance never drops below the start |
| `Projection.BuildProjection` | lib/projection.ts:143-209 | the engine returns the projection of the summed account balances over the expanded paycheck, life-event and card entries |
| `Scenarios.WeeklyPaycheckFromToday` | lib/projection.ts:56-57 | a "Weekly" paycheck due today is paid on days 0, 7, 14, ... up to the horizon inclusive |
| `Scenarios.BonusIsIncome` | lib/projection.ts:39-42 | the type "Bonus" is income |
| `Scenarios.RentIsNotIncome` | lib/projection.ts:39-42 | the type "rent" is not income |
| `Scenarios.OnceDoesNotRepeat` | lib/projection.ts:112-114 | "once" is not a repeating recurrence |
| `Scenarios.BonusOnceToday` | lib/projection.ts:81-120 | a one-off $500 bonus (50000 cents) today yields exactly one +50000 entry today |
| `Scenarios.CardOverSixtyFiveDays` | lib/projection.ts:122-141 | a card due today, $300 then $200, over 65 days: charges of -30000 cents on day 0 and -20000 on days 30 and 60, nothing else |
| `Scenarios.PastOnceEventRecurs` | lib/projection.ts:113 | a "once" event five days in the past recurs `horizonDays + 1` days later, inside the window |
| `Scenarios.RentEntries` | lib/projection.ts:105-106 | monthly rent from today over 35 days is charged on days 0 and 30 |
| `Scenarios.RentDay` | lib/projection.ts:172-186 | in the rent scenario nothing comes in, and $1000 (100000 cents) goes out on days 0 and 30 only |
| `Scenarios.RentBalances` | lib/projection.ts:188 | the rent scenario's balance is 0 after days 0..29 and -$1000 from day 30 on |
| `Scenarios.RentSeries` | lib/projection.ts:195-200 | the rent scenario's series has 36 points with those balances |
| `Scenarios.RentLowest` | lib/projection.ts:190-193 | with those balances the lowest balance is -$1000, first reached on day 30 |
| `Scenarios.RentProjection` | lib/projection.ts:203-208 | the rent projection's lowest balance is -$1000 on day 30 and its ending balance is -$1000 |
| `Scenarios.RentScenario` | lib/projection.ts:143-209 | one account of $1000 and monthly rent of $1000 over 35 days: lowest -$1000 on day 30, ending -$1000 |

## Left out

- Calendar dates, `parseISO`, `formatISO`, `differenceInCalendarDays` and the time of day of `new Date()`: dates are day offsets from today. A paycheck dated on the horizon day is included, as with the source's time-of-day comparison.
- Floating-point arithmetic, the rounding to cents at lib/projection.ts:197, and the `|| 0` fallback for a missing or NaN balance at lib/projection.ts:151: amounts are integer cents.
- `Text.Lower`: only ASCII A-Z are lower-cased; the Unicode case mapping of `toLowerCase` is not modelled.
- A null `recurrence` (lib/projection.ts:89) cannot be represented; the empty string, which the source treats the same way, can.
- An empty-string `end_date` is treated by the source like a missing one (lib/projection.ts:88); here a missing end date is `None`.
- The `scenarios` and `selectedScenarioId` inputs (lib/projection.ts:20-21): accepted by the source but unused by the engine.
- The default horizon of 120 days (lib/projection.ts:148): the model takes `horizonDays` as an explicit parameter.
- Negative horizons: the model's `horizonDays` is a `nat`, while the source accepts any number. With a negative horizon the source's series is empty. For an unrecognised or "once" life event dated on or before the horizon, the default step is `horizonDays + 1` (lib/projection.ts:113). With `horizonDays == -1` that step is 0 and the loop never ends; with a more negative horizon it steps backwards, pushing entries until the date runs out of range. The only caller passes 150 (app/page.tsx:211).
- Separate clock readings: the source calls `new Date()` four times (lib/projection.ts:46, 83, 124, 154); the model fixes one "today" for the whole call, so a call that straddles midnight is not modelled.
- The user interface, database access, sign-in and chart rendering (app/page.tsx, lib/supabaseClient.ts) are not part of this model; they only supply the inputs and display the result.
- The non-behavioural record fields (identifiers, owners, labels, time stamps) of lib/types.ts are dropped.
