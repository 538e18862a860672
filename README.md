# Medication overview: supply projection, today's reminders, medications table

This project models the three computations behind the `MedicationOverview` dashboard of the medication tracker in `test.py`:

- **Current Supply** (`medication_supply`). For each row of the medications table, it projects how many days the pills last. There are two passes:
  - The row pass adds the current quantity of every `daily` administer rule to its medication. It groups the other rules by medication, in order of first appearance.
  - The group pass simulates each group day by day, for up to 1000 passes over its repeats. It then overwrites the medication's days with the number of days the simulated date advanced.
- **Today's Medications** (`administer_reminders`). The administer rules due today (daily, or naming today's weekday) are sorted into four sections: any, morning, mid-day and night. Each non-empty section lists its medication names in row order.
- **Medications table** (`medications_table`). There is one row per medication:
  - its name;
  - `current/start`;
  - its rules as `repeat (time)`, joined with `, `;
  - its expiration date.

The model follows the code as written, including its quirks:

- The simulated date moves one day per rule inside each pass, not one day per pass.
- Every weekday group starts from the current quantity looked up for the **last** administer row, whichever medication that row names.
- The simulation's loop body runs at least once, so a group always reports at least its number of rules.
- A weekday group's result overwrites any daily contribution to the same medication.
- The errors that escape are modelled as `Result` values:
  - an administer row naming no medication (IndexError);
  - a non-daily repeat that is not a weekday name (ValueError, in the supply projection only; the reminders catch it and skip the row);
  - a time that is not one of the four keys (KeyError; in the reminders, only for rows due today).

Three consequences of the code are easy to misread, so they are stated outright:

- A weekday group's simulation starts from the quantity looked up for the last administer row (test.py:93, 104). When that starting quantity is below 1, the group still runs one pass and reports its number of rules (`SupplyLemmas.GroupSupplyWithoutPills`). A medication with only daily rules and 0 pills reports 0 (test.py:95).
- With a starting quantity of 1 and one rule, a group reports the days through the next day with that weekday, counting today. That is 1 when today has that weekday (`SupplyLemmas.SingleRuleOnePill`).
- A medication that no rule names reports 0 days (`SupplyLemmas.ProjectionUnscheduled`).

Modules:

- `Records`: the table rows and the weekday lookup.
- `Supply`: the supply projection. The methods `MedicationSupply`, `SimulateGroup`, `TakePass` and `AppendRepeat` mirror the loops. Each is proved equal to a specification function (`Projection`, `GroupSupply`, `PassHits`/`FirstUnknownWeekday`, `AddRepeat`).
- `SupplyLemmas`: what the projection promises, stated against independent reference definitions (`DailyCount`, `NondailyNames`, `Repeats`, `Distinct`, `Consumed`, `HitPositions`).
- `Reminders` and `ReminderLemmas`: today's reminders. The method `AdministerReminders` is proved equal to `TodaysReminders`.
- `MedicationTable` and `TableLemmas`: the table rows, and the proofs that the text columns read back.

## Model

| member | source | states |
|---|---|---|
| Supply.MedicationSupply | test.py:82-115 | The two passes compute exactly `Projection`: the row pass as a fold over the rows, then the group pass over the groups. The first exception ends the computation. |
| Supply.TakePass | test.py:108-111 | One pass of the inner loop raises ValueError on the first repeat that is not a weekday name. Otherwise it takes one pill per rule whose weekday matches its day, and moves the date forward by the number of rules. |
| Supply.SimulateGroup | test.py:103-114 | The nested simulation loops return `GroupSupply`: the ValueError of the first unknown repeat, or the offset reached when the pills drop below one or after 1000 passes. |
| Supply.AppendRepeat | test.py:97-102 | The membership test and the append loop compute `AddRepeat`. The repeat goes onto every group with the name, or a new group is started at the end. |
| Supply.CurrentQuantity | test.py:93 | The lookup gives None (IndexError) exactly when no medication has the name. Otherwise it gives the current quantity of the first medication with that name. |
| Supply.FirstUnknownWeekday | test.py:109 | None exactly when every repeat is a weekday name. Otherwise it gives the first repeat that is not. |
| Supply.GroupSupply | test.py:103-115 | A group's result is an error exactly when some repeat is not a weekday name. The error carries the first such repeat. |
| SupplyLemmas.ScanOkIff | test.py:90-93 | The row pass succeeds exactly when every administer row names a known medication. |
| SupplyLemmas.ScanDays | test.py:94-95 | After the row pass, each medication's days are its current quantity times the number of its daily rows. |
| SupplyLemmas.ScanGroups | test.py:96-102 | The non-daily rows form one group per medication, in order of first appearance. Each group holds all of that medication's non-daily repeats, in row order, duplicates kept. |
| SupplyLemmas.GroupNamesDistinct | test.py:97-102 | No two groups share a medication name. |
| SupplyLemmas.FillOkIff | test.py:103-115 | The group pass succeeds exactly when every group's simulation does. |
| SupplyLemmas.FillAt | test.py:115 | After the group pass, a medication with a group holds that group's simulated days. Any other medication keeps what the row pass left. |
| SupplyLemmas.ProjectionOkIff | test.py:82-115 | The projection succeeds exactly when every row names a known medication and every non-daily repeat is a weekday name. |
| SupplyLemmas.ProjectionUnknownMedication | test.py:93 | The first row that names an unknown medication raises IndexError with that name, before any simulation. |
| SupplyLemmas.ProjectionDailyOnly | test.py:94-95 | A medication with only daily rules reports its quantity times the number of those rules. |
| SupplyLemmas.ProjectionUnscheduled | test.py:84-85 | A medication that no rule names reports 0 days. |
| SupplyLemmas.ProjectionWeekdayGroup | test.py:103-115 | A medication with a weekday rule reports the simulation of all its weekday repeats. The simulation starts from the quantity of the last row's medication, and its daily contribution is overwritten. |
| SupplyLemmas.ProjectionUnknownWeekday | test.py:97-115 | When every row names a known medication, the ValueError that escapes carries the first unknown repeat of the first group that has one. Groups are ordered by their medication's first non-daily row. |
| SupplyLemmas.PassHitsCount | test.py:108-110 | The pills one pass takes equal the number of positions whose rule names the weekday of the day it is tested on. |
| SupplyLemmas.GroupStopsAtFirstExhaustion | test.py:107-113 | A group of k rules reports k*n days. n is the first pass after which fewer than one pill is left, or 1000. Every earlier pass leaves at least one pill. |
| SupplyLemmas.GroupSupplyBounds | test.py:107-114 | A group of k rules reports between k and 1000*k days, whatever the starting quantity. |
| SupplyLemmas.GroupSupplyWithoutPills | test.py:107-113 | With fewer than one pill, the loop body still runs once, so the group reports its number of rules. |
| SupplyLemmas.SingleRuleOnePill | test.py:107-114 | One pill and one weekday rule report the days up to and including the next day with that weekday (1 when that is today). |
| SupplyLemmas.SampleProjection | test.py:15-47 | On the dashboard's sample data, olanzapine reports 14 days. Sertraline is simulated from olanzapine's 14 pills, not its own 19. |
| SupplyLemmas.SundayTuesdayFromWednesday | test.py:103-115 | A group whose rules are Sunday then Tuesday, simulated from a Wednesday with q pills (1 <= q <= 284), reports 7q days when q is even and 7q - 1 when q is odd. |
| SupplyLemmas.SampleProjectionOnWednesday | test.py:15-47 | On a Wednesday the sample reports 98 days for sertraline, simulated from olanzapine's 14 pills. Its own 19 pills would have given 132. |
| Reminders.AdministerReminders | test.py:127-160 | The row loop and the four section blocks compute exactly `TodaysReminders`. |
| Reminders.Bucket | test.py:135-141 | A row is in a time's bucket exactly when it is in the table, is due today, and has that time. |
| ReminderLemmas.CollectOkIff | test.py:135-144 | The row loop succeeds exactly when every row due today has one of the four times. Rows not due today are never looked up. |
| ReminderLemmas.CollectFirstError | test.py:137-141 | The first due row with an unknown time raises KeyError with that time. |
| ReminderLemmas.CollectBuckets | test.py:130-141 | After the row loop, each time's list holds exactly the rows due today with that time, in row order. |
| ReminderLemmas.TodaysSections | test.py:145-159 | The card has one section per time with rows due today, in the order any, morning, mid-day, night. Each section has its time's heading and the names of exactly its rows, in row order. |
| ReminderLemmas.OnlyDueRowsMatter | test.py:136-144 | Rows not due today, including those whose repeat is not a weekday name, leave the card unchanged. |
| MedicationTable.MedicationsTable | test.py:60-72 | The table has one row per medication, in order. Each row is that medication's name, quantity text, joined schedule and expiration date. |
| MedicationTable.CollectSchedule | test.py:63-66 | The inner loop collects the (repeat, time) pairs of the medication's rules, in row order. |
| MedicationTable.Schedule | test.py:64-66 | A pair is in a medication's schedule exactly when some rule for that medication has that repeat and time. |
| TableLemmas.QuantityRoundTrip | test.py:69 | Splitting the quantity text at `/` gives back the current and the start quantity, negative ones included. |
| TableLemmas.ParseIntText | test.py:69 | The decimal text of an integer reads back as that integer. |
| TableLemmas.SplitJoin | test.py:70 | Joining entries without commas by `, ` and splitting them again gives the entries back. |
| TableLemmas.TakenColumn | test.py:70 | The "Taken" text is empty exactly when no rule names the medication. Otherwise, when repeats and times hold no comma, it splits back into one `repeat (time)` entry per rule, in row order. |
| Records.DayIndexIsPosition | test.py:109 | A repeat's weekday index is its position in the weekday tuple. The lookup fails exactly when the repeat is not in the tuple. |

## Left out

- The panel widgets (cards, tabs, markdown panes, checkboxes, the `DataFrame` widget) and the matplotlib bar chart (test.py:116-126) are display only. The model stops at the values they show.
- `datetime.datetime.today()` is a clock read. It becomes a `Weekday` parameter (Monday 0). Each later date is an offset in days from it, which is all the code uses dates for.
- `print(error)` in the reminders' ValueError handler is output only. The row is skipped, as in the code.
- Quantities are unbounded integers. The 64-bit width pandas gives them is not modelled, because the values the dashboard stores stay far from it.
- The expiration date is carried into the table unchanged, as a `Date` record. No date arithmetic or formatting is modelled.
- The pandas `days` column is modelled as a sequence aligned with the medications rows. A name shared by several rows updates all of them, as `.loc` does.
- The `App` class, `import_data` and the `MedicationOverview` constructor only build the tables and widgets. They appear only as the sample data of `SupplyLemmas.SampleProjection`.
- Supply.SimulateGroup: does not raise the OverflowError that `current_date += delta` (test.py:111) raises once the simulated date passes the year 9999. Dates are unbounded day offsets here. Reaching that year takes a group of more than about 2,900 rules.
- TableLemmas.TakenColumn: the round trip assumes that repeats and times hold no comma, because `', '.join` cannot be undone otherwise.
