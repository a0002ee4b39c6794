# AlphaQ staff scheduling

A Dafny model of AlphaQ's two shift-scheduling rules.

The first is the `/schedule` handler in `app.py`. It turns a day name and the numbers of male and female staff into a roster of one entry per required slot. Each entry holds:

- an id;
- a shift window;
- hour-by-hour pay;
- burnout and satisfaction scores.

The handler then sorts the roster and reports the number of vacant slots.

The second is the synthetic staff table in `dataset.py`. Its `generate_shift` rule draws inside opening hours and redraws female shifts that would end after 21:00. The table also derives burnout and the salary rule, and numbers the rows.

There are three modules:

- `Strings` models Python's `str()` of a natural number and Python's ordering of strings.
- `App` models the handler.
- `Dataset` models the table's row rules.

Every random draw of app.py and dataset.py is an explicit input:

- the day's traffic, a value in `[1, 50]`;
- one start hour for each slot, restricted to what `random.choice` can return for that kind of slot;
- the first and second draw of `generate_shift`;
- the per-row draws of the table, including the average sale per hour in [100, 600]; the workload is an unconstrained `real`.

Floats are modelled as `real`. A roster entry stores its id as an `EmployeeId` and its shift as a `Window`. `IdText` and `ShiftText` give the exact strings the response carries. The sort compares the rendered shift labels. `ShiftText` is proved injective, so two entries have equal labels exactly when they have the same window. `IdText` is proved injective too, so distinct ids are written distinctly.

Facts about the code that the model makes explicit:

- A 9:00–18:00 shift is paid 100: hours 12 and 13 at 15, the other seven at 10 (app.py:65-70).
- A 17:00 male shift ends at hour 26 and is labelled "17:00 - 26:00" (app.py:47, 80).
- The headcount depends only on the day name: 35 on Saturday and Sunday, 30 otherwise (app.py:21-25).
- With no staff at all, every slot is vacant and the workload is 0 (app.py:52-58).
- The workload divides by `num_male + num_female`, even when that is larger than the headcount (app.py:37, 58).
- In the generated table, a male shift starting at 15 ends at hour 0, because the end is a clock time (dataset.py:28-31).

## Model

| member | source | states |
|---|---|---|
| App.InAnyWindow | app.py:15-19 | the scan returns true exactly when some window `(start, end)` has `start <= hour < end` |
| App.IsPeakHourIff | app.py:12-19 | an hour is a peak hour iff `12 <= h < 14` or `18 <= h < 20`; the windows are half-open, so 14 and 20 are not peak hours |
| App.ShiftStartPeaks | app.py:39-59 | of the start hours 9, 13 and 17, only 13 is a peak hour, so only 13:00 shifts get the 1.5 peak factor |
| App.EmployeesRequired | app.py:21-25 | the headcount is 35 iff the day is "Saturday" or "Sunday", and 30 iff it is any other string |
| App.ShiftWindow | app.py:43-56 | male slot: start is the draw from {9,13,17}, end = start + 9; female slot: start from {9,13}, end = min(start + 9, 21) <= 21; vacant slot: 9–18; every window lies inside [9, 26] |
| App.ShiftTextInjective | app.py:80 | two windows with the same `"<start>:00 - <end>:00"` label are the same window |
| App.SplitAtNumeral | app.py:80 | a digit string followed by text that starts with a non-digit splits uniquely, which is how a label is read back into its hours |
| App.DigitRunOfNumeral | app.py:80 | the leading digit run of such a string is exactly the numeral |
| App.IdTextInjective | app.py:45-53 | different ids (`male_emp_<n>`, `female_emp_<n>`, `vacant`) are written as different strings |
| App.SlotIdNumbering | app.py:44-53 | slot i < num_male is `male_emp_` followed by the numeral of i + 1; a female slot is `female_emp_` followed by the numeral of i - num_male + 1; any other slot is `vacant` |
| App.SlotIdsDistinct | app.py:44-53 | two different non-vacant slots never get the same id string |
| App.ShiftSalary | app.py:62-70 | pay over the hours of [start, end) lies between 10 and 15 per hour worked |
| App.PayShift | app.py:64-70 | the hour-by-hour loop (15 in a peak hour, 10 otherwise) computes exactly the sum `ShiftSalary` over [start, end) |
| App.ShiftSalaryClosedForm | app.py:64-70 | the pay is 10 per hour worked plus 5 per hour that overlaps [12,14) or [18,20) |
| App.WindowSalaries | app.py:44-70 | the four possible windows pay 9–18: 100, 13–22: 105, 17–26: 100, 13–21: 95 |
| App.Workload | app.py:58 | the workload is 0 when there are no staff and never negative for non-negative traffic |
| App.WorkloadShare | app.py:58 | with staff present, workload times headcount gives back the day's traffic |
| App.Burnout | app.py:58-72 | burnout is 1.5 × workload when the shift starts in a peak hour, the workload itself otherwise, and never negative |
| App.Satisfaction | app.py:75 | satisfaction is positive for a positive salary and never above the salary |
| App.SatisfactionTimesBurnout | app.py:75 | satisfaction × (burnout + 1) is exactly the salary |
| App.SlotAssignmentVacant | app.py:52-56 | a slot's entry equals the shared vacant entry exactly when the slot is vacant |
| App.WindowNumerals | app.py:80 | the decimal numerals of the hours 9, 13, 17, 18, 21, 22, 26 |
| App.WindowLabels | app.py:80 | the four windows are labelled "9:00 - 18:00", "13:00 - 22:00", "17:00 - 26:00" and "13:00 - 21:00" |
| App.WindowPay | app.py:44-70 | male slots get (9–18, 100), (13–22, 105) or (17–26, 100); female slots get (9–18, 100) or (13–21, 95); vacant slots get (9–18, 100) |
| App.SlotShape | app.py:43-84 | those windows and salaries hold for the entry the loop builds for each kind of slot; a vacant slot's id is `vacant` |
| App.Roster | app.py:43-84 | the loop builds one entry per slot |
| App.RosterSnoc | app.py:77-84 | each iteration appends that slot's entry to the list built so far |
| App.RosterAt | app.py:43-84 | entry k of the built list is the entry for slot k with draw k |
| App.RosterSalaries | app.py:43-84 | every built entry has one of the four windows, at that window's salary |
| App.VacantCountShortfall | app.py:41-56 | with non-negative counts, the vacant count is max(required - (num_male + num_female), 0) |
| App.RosterVacantEntries | app.py:52-56 | the built list holds the vacant entry exactly as many times as there are vacant slots |
| App.KeyGeTotal | app.py:87 | any two entries are comparable under the (label, satisfaction) key |
| App.KeyGeTransitive | app.py:87 | the key order is transitive |
| App.SortedDescPairwise | app.py:87 | in a list sorted by the key in descending order, every entry's key is at least that of every later entry, not just the next one |
| App.Insert | app.py:87 | inserting into a sorted list adds exactly that entry and keeps the list sorted |
| App.SortDesc | app.py:87 | the sorted list is a permutation of its input, in non-increasing key order |
| App.SameKeyIff | app.py:87 | two entries have the same shift and satisfaction exactly when neither key sorts strictly before the other |
| App.InsertStable | app.py:87 | inserting an entry puts it ahead of every entry with the same key; nothing else changes among the equal-key entries |
| App.SortDescStable | app.py:87 | the sort is stable: for every key, the entries with that key appear in the same order as in the input |
| App.FemaleAfternoonBeforeAfternoon | app.py:80-87 | as strings, "13:00 - 21:00" < "13:00 - 22:00" |
| App.AfternoonBeforeEvening | app.py:80-87 | as strings, "13:00 - 22:00" < "17:00 - 26:00" |
| App.EveningBeforeMorning | app.py:80-87 | as strings, "17:00 - 26:00" < "9:00 - 18:00" |
| App.MorningLabel | app.py:80 | the 9–18 window is labelled "9:00 - 18:00" |
| App.AfternoonLabel | app.py:80 | the 13–22 window is labelled "13:00 - 22:00" |
| App.EveningLabel | app.py:80 | the 17–26 window is labelled "17:00 - 26:00" |
| App.FemaleAfternoonLabel | app.py:80 | the 13–21 window is labelled "13:00 - 21:00" |
| App.LabelOrder | app.py:80-87 | the four labels compare in that chain, so the descending sort puts 9:00 shifts first and female afternoon shifts last |
| App.PermutationKeepsPay | app.py:87 | reordering the list keeps every entry's window and salary standard |
| App.BuildSlot | app.py:43-84 | the loop body builds exactly the specified entry for slot i, and bumps the vacancy counter iff the slot is vacant |
| App.BuildRoster | app.py:36-84 | the loop yields the specified list and counts its vacant slots |
| App.GenerateSchedule | app.py:34-93 | total_required_employees is the day's headcount, and the list has that many entries; vacant_slots is max(required - (num_male + num_female), 0) for non-negative counts; the vacant entry appears vacant_slots times; the list is a permutation of the built list, sorted descending by (label, satisfaction), with equal-key entries in their built order (stability), and every entry has a standard window and salary |
| Strings.NatToDecimalDigits | app.py:45-53 | `str(n)` is a non-empty string of digits, with no leading zero when n > 0 |
| Strings.DecimalRoundTrip | app.py:45-53 | reading `str(n)` back as a decimal numeral gives n |
| Strings.NatToDecimalInjective | app.py:45-53 | different numbers print differently |
| Strings.LexLessIrreflexive | app.py:87 | no string is less than itself |
| Strings.LexLessTotal | app.py:87 | of two different strings, one is less than the other |
| Strings.LexLessAsymmetric | app.py:87 | string `<` never holds both ways |
| Strings.LexLessTransitive | app.py:87 | string `<` is transitive |
| Strings.LexLessAtFirstDifference | app.py:87 | strings that agree up to position k compare as their characters at k do |
| Strings.LexLessSharedPrefix | app.py:87 | a common prefix does not change how two strings compare |
| Dataset.GenerateShift | dataset.py:23-31 | the start hour is in [5, 15]; it is the first draw unless a female shift would end after 21, in which case it is the second draw; a male start is never redrawn; a female shift ends at start + 9 <= 21; the end is (start + 9) mod 24 and both are clock hours |
| Dataset.ShiftWrapsIff | dataset.py:24-31 | the end hour is before the start hour iff the start is 15; that happens only for a male shift, which then ends at 0 |
| Dataset.Burnout | dataset.py:44-45 | burnout and satisfaction add up to 10, so a satisfaction in [1, 10] gives a burnout in [0, 9] |
| Dataset.SalaryRate | dataset.py:54 | the rate is 10 or 15, and it is 10 exactly when the workload is below 0.5 |
| Dataset.SalaryRateMonotone | dataset.py:54 | a heavier workload never earns a lower rate |
| Dataset.MakeRow | dataset.py:40-70 | a row carries the given id and the draw's name, gender, satisfaction, restaurant, day, workload, traffic and sale per hour (in [100, 600]); its shift is `GenerateShift` of the draw's gender and start draws; its burnout is `Burnout` of the satisfaction, in [0, 9]; the shift starts in [5, 15] and ends 9 clock hours later, a female shift ends by 21, and the restaurant and day come from their lists |
| Dataset.GenerateData | dataset.py:39-70 | the table has one row per draw; row k is employee k + 1 built from draw k; ids are strictly increasing, hence unique |

## Left out

- Flask routing, the JSON request and response, and loading the `joblib` model and scaler. This is plumbing, and the model and scaler are never used by the logic; `restaurant_id` from the request is unused too.
- The `random` module itself. Each `random.randint`, `random.choice` and `random.uniform` result is an input constrained to its range. The one exception is the workload, which `calculate_workload` would produce and which is left unconstrained (see below).
- Float rounding. Workload, burnout and satisfaction are exact reals, and `round(..., 2)` is not modelled.
- `calculate_workload` in `dataset.py`. It is built on `random.uniform` and float rounding; its result is taken as a drawn `real` workload.
- The `employee_count` draw; it only feeds `calculate_workload`.
- Faker names (an input string), `datetime` formatting beyond the hour arithmetic, and the pandas DataFrame and CSV output.
- Dataset.GenerateData: the row count is the number of draws, not the fixed 50000.
- The `peak_hours` constant of `dataset.py`. Nothing in that file uses it.
- The row salary from the rule on dataset.py:54: it is computed but, as in dataset.py, never stored in a row.
- `streamlit_app.py` (a user interface) and `model.py` (scikit-learn training) are not part of this model.
