/**
 The `/schedule` handler of app.py: the peak-hour predicate, the day-of-week
 headcount table, and the roster loop that classifies each required slot
 (male, female or vacant), gives it a shift window, pays it hour by hour,
 scores it, and finally sorts the roster.

 The handler's random draws are parameters: `traffic` is the day's
 `random.randint(1, 50)`, and `draws[i]` is the start hour that
 `random.choice` picked for slot `i` (ignored for a vacant slot). Python
 floats are modelled as `real`, without rounding.
 */
module App {
  import opened Strings

  // ---------------------------------------------------------------------------
  // Peak hours and headcount
  // ---------------------------------------------------------------------------

  /** The peak windows, each a half-open range `[start, end)` of clock hours. */
  const PeakHours: seq<(int, int)> := [(12, 14), (18, 20)]

  /** Does `hour` fall in one of `windows`? `is_peak_hour` in app.py scans the list and returns on the first hit. */
  function InAnyWindow(windows: seq<(int, int)>, hour: int): (b: bool)
    ensures b <==> exists k :: 0 <= k < |windows| && windows[k].0 <= hour < windows[k].1
  {
    if windows == [] then false
    else if windows[0].0 <= hour < windows[0].1 then true
    else
      var rest := windows[1..];
      assert forall k :: 1 <= k < |windows| ==> windows[k] == rest[k - 1];
      InAnyWindow(rest, hour)
  }

  function IsPeakHour(hour: int): bool
  {
    InAnyWindow(PeakHours, hour)
  }

  /** The two windows are half-open: 14 and 20 are not peak hours. */
  lemma IsPeakHourIff(hour: int)
    ensures IsPeakHour(hour) <==> (12 <= hour < 14 || 18 <= hour < 20)
  {
    assert PeakHours[0] == (12, 14) && PeakHours[1] == (18, 20);
  }

  /** Of the start hours a slot can get, only 13 is a peak hour, so only 13:00 shifts get the 1.5 peak factor. */
  lemma ShiftStartPeaks()
    ensures !IsPeakHour(9) && IsPeakHour(13) && !IsPeakHour(17)
  {
    IsPeakHourIff(9);
    IsPeakHourIff(13);
    IsPeakHourIff(17);
  }

  /** Headcount for a day: 35 on a weekend day, 30 for any other string. */
  function EmployeesRequired(dayOfWeek: string): (n: nat)
    ensures n == 35 <==> dayOfWeek == "Saturday" || dayOfWeek == "Sunday"
    ensures n == 30 <==> !(dayOfWeek == "Saturday" || dayOfWeek == "Sunday")
  {
    if dayOfWeek in ["Saturday", "Sunday"] then 35 else 30
  }

  // ---------------------------------------------------------------------------
  // Slots and shift windows
  // ---------------------------------------------------------------------------

  /** Start hours a male slot may draw. */
  const ShiftHours: seq<int> := [9, 13, 17]
  /** Start hours a female slot may draw. */
  const FemaleShiftHours: seq<int> := [9, 13]
  const ShiftLength := 9
  /** No female shift ends after this hour. */
  const FemaleEndHour := 21

  datatype SlotKind = MaleSlot | FemaleSlot | VacantSlot

  /** Slot `i` is male while `i < numMale`, then female while `i < numMale + numFemale`, then vacant. */
  function Classify(i: int, numMale: int, numFemale: int): SlotKind
  {
    if i < numMale then MaleSlot
    else if i < numMale + numFemale then FemaleSlot
    else VacantSlot
  }

  /** The values `random.choice` can return for a slot of this kind. */
  predicate DrawAllowed(kind: SlotKind, draw: nat)
  {
    match kind
    case MaleSlot => draw in ShiftHours
    case FemaleSlot => draw in FemaleShiftHours
    case VacantSlot => true
  }

  function Min(a: int, b: int): int { if a <= b then a else b }
  function Max(a: int, b: int): int { if a <= b then b else a }
  function Clamp(x: int, lo: int, hi: int): int { Min(Max(x, lo), hi) }

  /** The clock hours `[start, end)` of a shift; `end` can pass 24 (a 17:00 shift ends at 26). */
  datatype Window = Window(start: nat, end: nat)

  /** The window a slot works, given its start-hour draw. */
  function ShiftWindow(kind: SlotKind, draw: nat): (w: Window)
    ensures kind != VacantSlot ==> w.start == draw
    ensures kind == VacantSlot ==> w == Window(9, 18)
    ensures DrawAllowed(kind, draw) ==> 9 <= w.start < w.end <= 26
    ensures kind == MaleSlot && DrawAllowed(kind, draw) ==> w.start in ShiftHours && w.end == w.start + ShiftLength
    ensures kind == FemaleSlot && DrawAllowed(kind, draw) ==>
              w.start in FemaleShiftHours && w.end <= FemaleEndHour && w.end == Min(w.start + ShiftLength, FemaleEndHour)
  {
    match kind
    case MaleSlot => Window(draw, draw + ShiftLength)
    case FemaleSlot => Window(draw, Min(draw + ShiftLength, FemaleEndHour))
    case VacantSlot => Window(9, 18)
  }

  /** The `"<start>:00 - <end>:00"` label the response carries for a window. */
  function ShiftText(w: Window): string
  {
    NatToDecimal(w.start) + (":00 - " + (NatToDecimal(w.end) + ":00"))
  }

  /** The length of the run of digits `s` starts with. */
  function DigitRun(s: string): nat
  {
    if |s| == 0 || !('0' <= s[0] <= '9') then 0 else 1 + DigitRun(s[1..])
  }

  lemma {:induction false} DigitRunOfNumeral(a: string, x: string)
    requires IsDigits(a)
    requires |x| > 0 && !('0' <= x[0] <= '9')
    ensures DigitRun(a + x) == |a|
    decreases |a|
  {
    if |a| == 0 {
      assert a + x == x;
    } else {
      assert (a + x)[1..] == a[1..] + x;
      DigitRunOfNumeral(a[1..], x);
    }
  }

  /** Two digit strings followed by text that starts with a non-digit can only agree if both parts agree. */
  lemma SplitAtNumeral(a: string, x: string, b: string, y: string)
    requires IsDigits(a) && IsDigits(b)
    requires |x| > 0 && !('0' <= x[0] <= '9') && |y| > 0 && !('0' <= y[0] <= '9')
    requires a + x == b + y
    ensures a == b && x == y
  {
    DigitRunOfNumeral(a, x);
    DigitRunOfNumeral(b, y);
    assert a == (a + x)[..|a|] && b == (b + y)[..|b|];
    assert x == (a + x)[|a|..] && y == (b + y)[|b|..];
  }

  /** Different windows get different labels, so comparing labels compares windows. */
  lemma ShiftTextInjective(v: Window, w: Window)
    requires ShiftText(v) == ShiftText(w)
    ensures v == w
  {
    var a, b := NatToDecimal(v.start), NatToDecimal(w.start);
    var c, d := NatToDecimal(v.end), NatToDecimal(w.end);
    NatToDecimalDigits(v.start);
    NatToDecimalDigits(w.start);
    NatToDecimalDigits(v.end);
    NatToDecimalDigits(w.end);
    var x, y := ":00 - " + (c + ":00"), ":00 - " + (d + ":00");
    SplitAtNumeral(a, x, b, y);
    assert c + ":00" == x[6..] && d + ":00" == y[6..];
    assert c == (c + ":00")[..|c|] && d == (d + ":00")[..|d|];
    NatToDecimalInjective(v.start, w.start);
    NatToDecimalInjective(v.end, w.end);
  }

  /** The `employee_id` of an entry: the `n`-th male or female employee, or a vacancy. */
  datatype EmployeeId = MaleEmployee(number: nat) | FemaleEmployee(number: nat) | Vacant

  /** The id as the response writes it: `male_emp_<n>`, `female_emp_<n>` or `vacant`. */
  function IdText(id: EmployeeId): string
  {
    match id
    case MaleEmployee(n) => "male_emp_" + NatToDecimal(n)
    case FemaleEmployee(n) => "female_emp_" + NatToDecimal(n)
    case Vacant => "vacant"
  }

  /** Different ids are written differently. */
  lemma IdTextInjective(a: EmployeeId, b: EmployeeId)
    requires IdText(a) == IdText(b)
    ensures a == b
  {
    var s, t := IdText(a), IdText(b);
    match a
    case MaleEmployee(m) =>
      assert s[0] == 'm';
      if b.MaleEmployee? {
        assert s[9..] == NatToDecimal(m) && t[9..] == NatToDecimal(b.number);
        NatToDecimalInjective(m, b.number);
      }
    case FemaleEmployee(m) =>
      assert s[0] == 'f';
      if b.FemaleEmployee? {
        assert s[11..] == NatToDecimal(m) && t[11..] == NatToDecimal(b.number);
        NatToDecimalInjective(m, b.number);
      }
    case Vacant =>
      assert s[0] == 'v';
  }

  /** The id app.py gives slot `i`. */
  function SlotId(i: nat, numMale: int, numFemale: int): EmployeeId
  {
    if i < numMale then MaleEmployee(i + 1)
    else if i < numMale + numFemale then FemaleEmployee(i - numMale + 1)
    else Vacant
  }

  /** Male ids count from 1 in slot order; female ids count from 1 starting at the first female slot. */
  lemma SlotIdNumbering(i: nat, numMale: int, numFemale: int)
    ensures var id := IdText(SlotId(i, numMale, numFemale));
      match Classify(i, numMale, numFemale)
      case MaleSlot =>
        |id| > 9 && id[..9] == "male_emp_" && IsDigits(id[9..]) && DecimalToNat(id[9..]) == i + 1
      case FemaleSlot =>
        |id| > 11 && id[..11] == "female_emp_" && IsDigits(id[11..]) && DecimalToNat(id[11..]) == i - numMale + 1
      case VacantSlot => id == "vacant"
  {
    var id := IdText(SlotId(i, numMale, numFemale));
    if i < numMale {
      NatToDecimalDigits(i + 1);
      assert id[9..] == NatToDecimal(i + 1);
      DecimalRoundTrip(i + 1);
    } else if i < numMale + numFemale {
      NatToDecimalDigits(i - numMale + 1);
      assert id[11..] == NatToDecimal(i - numMale + 1);
      DecimalRoundTrip(i - numMale + 1);
    }
  }

  /** Every non-vacant slot gets an id no other slot has. */
  lemma SlotIdsDistinct(i: nat, j: nat, numMale: int, numFemale: int)
    requires i != j
    requires Classify(i, numMale, numFemale) != VacantSlot && Classify(j, numMale, numFemale) != VacantSlot
    ensures IdText(SlotId(i, numMale, numFemale)) != IdText(SlotId(j, numMale, numFemale))
  {
    if IdText(SlotId(i, numMale, numFemale)) == IdText(SlotId(j, numMale, numFemale)) {
      IdTextInjective(SlotId(i, numMale, numFemale), SlotId(j, numMale, numFemale));
    }
  }

  // ---------------------------------------------------------------------------
  // Salary
  // ---------------------------------------------------------------------------

  function HourlyRate(hour: int): int
  {
    if IsPeakHour(hour) then 15 else 10
  }

  /** The pay for the hours `start, start + 1, …, end - 1` (none when `end <= start`). */
  function ShiftSalary(start: int, end: int): (r: int)
    ensures 10 * Max(end - start, 0) <= r <= 15 * Max(end - start, 0)
    decreases end - start
  {
    if end <= start then 0 else ShiftSalary(start, end - 1) + HourlyRate(end - 1)
  }

  /** The salary loop of the handler: 15 for each peak hour of `[start, end)`, 10 for each other hour. */
  method PayShift(start: int, end: int) returns (salary: int)
    ensures salary == ShiftSalary(start, end)
  {
    salary := 0;
    var hour := start;
    while hour < end
      invariant start <= hour <= Max(start, end)
      invariant salary == ShiftSalary(start, hour)
    {
      if IsPeakHour(hour) {
        salary := salary + 15;
      } else {
        salary := salary + 10;
      }
      hour := hour + 1;
    }
  }

  /** How many hours of `[s, e)` fall in `[a, b)`. */
  function Overlap(s: int, e: int, a: int, b: int): int
  {
    Max(0, Min(e, b) - Max(s, a))
  }

  /** Closed form of the salary: 10 for every hour worked, plus 5 for every hour inside a peak window. */
  lemma {:induction false} ShiftSalaryClosedForm(start: int, end: int)
    ensures ShiftSalary(start, end) ==
            10 * Max(end - start, 0) + 5 * (Overlap(start, end, 12, 14) + Overlap(start, end, 18, 20))
    decreases end - start
  {
    if end > start {
      ShiftSalaryClosedForm(start, end - 1);
      IsPeakHourIff(end - 1);
    }
  }

  /** The salaries of the four windows a slot can get. */
  lemma WindowSalaries()
    ensures ShiftSalary(9, 18) == 100
    ensures ShiftSalary(13, 22) == 105
    ensures ShiftSalary(17, 26) == 100
    ensures ShiftSalary(13, 21) == 95
  {
    ShiftSalaryClosedForm(9, 18);
    ShiftSalaryClosedForm(13, 22);
    ShiftSalaryClosedForm(17, 26);
    ShiftSalaryClosedForm(13, 21);
  }

  // ---------------------------------------------------------------------------
  // Workload, burnout, satisfaction (floats modelled as reals)
  // ---------------------------------------------------------------------------

  /** `traffic / total_employees`, or 0 when there is nobody. */
  function Workload(traffic: int, totalEmployees: int): (w: real)
    ensures totalEmployees <= 0 ==> w == 0.0
    ensures traffic >= 0 ==> w >= 0.0
  {
    if totalEmployees > 0 then traffic as real / totalEmployees as real else 0.0
  }

  /** The workload shared out: workload times headcount is the day's traffic. */
  lemma WorkloadShare(traffic: int, totalEmployees: int)
    requires totalEmployees > 0
    ensures Workload(traffic, totalEmployees) * (totalEmployees as real) == traffic as real
  {
  }

  /** `workload * peak_factor`, the peak factor being 1.5 when the shift starts in a peak hour and 1.0 otherwise. */
  function Burnout(traffic: int, totalEmployees: int, start: int): (b: real)
    ensures IsPeakHour(start) ==> b == 1.5 * Workload(traffic, totalEmployees)
    ensures !IsPeakHour(start) ==> b == Workload(traffic, totalEmployees)
    ensures traffic >= 0 ==> b >= 0.0
  {
    var workload := Workload(traffic, totalEmployees);
    if IsPeakHour(start) then 1.5 * workload else workload
  }

  /** `salary / (burnout + 1)`. */
  function Satisfaction(salary: int, burnout: real): (s: real)
    requires burnout >= 0.0
    ensures salary > 0 ==> s > 0.0
    ensures salary >= 0 ==> s <= salary as real
  {
    salary as real / (burnout + 1.0)
  }

  /** Satisfaction times `burnout + 1` gives the salary back. */
  lemma SatisfactionTimesBurnout(salary: int, burnout: real)
    requires burnout >= 0.0
    ensures Satisfaction(salary, burnout) * (burnout + 1.0) == salary as real
  {
  }

  // ---------------------------------------------------------------------------
  // The roster
  // ---------------------------------------------------------------------------

  /** One entry of the `employees` list. */
  datatype Assignment = Assignment(
    employeeId: EmployeeId,
    dayOfWeek: string,
    shift: Window,
    salary: int,
    burnout: real,
    satisfaction: real)

  /** The entry the loop body builds for slot `i`. */
  function SlotAssignment(i: nat, dayOfWeek: string, numMale: int, numFemale: int, traffic: int, draw: nat): Assignment
    requires traffic >= 0
  {
    var w := ShiftWindow(Classify(i, numMale, numFemale), draw);
    var salary := ShiftSalary(w.start, w.end);
    var burnout := Burnout(traffic, numMale + numFemale, w.start);
    Assignment(SlotId(i, numMale, numFemale), dayOfWeek, w, salary, burnout,
               Satisfaction(salary, burnout))
  }

  /** The entry every vacant slot gets. */
  function VacantAssignment(dayOfWeek: string, totalEmployees: int, traffic: int): Assignment
    requires traffic >= 0
  {
    var burnout := Burnout(traffic, totalEmployees, 9);
    Assignment(Vacant, dayOfWeek, Window(9, 18), ShiftSalary(9, 18), burnout,
               Satisfaction(ShiftSalary(9, 18), burnout))
  }

  /** A slot's entry is the vacant entry exactly when the slot is vacant. */
  lemma SlotAssignmentVacant(i: nat, dayOfWeek: string, numMale: int, numFemale: int, traffic: int, draw: nat)
    requires traffic >= 0
    ensures SlotAssignment(i, dayOfWeek, numMale, numFemale, traffic, draw) == VacantAssignment(dayOfWeek, numMale + numFemale, traffic)
            <==> Classify(i, numMale, numFemale) == VacantSlot
  {
  }

  /** The numerals the four windows' labels are made of. */
  lemma WindowNumerals()
    ensures NatToDecimal(9) == "9" && NatToDecimal(13) == "13" && NatToDecimal(17) == "17" && NatToDecimal(18) == "18"
    ensures NatToDecimal(21) == "21" && NatToDecimal(22) == "22" && NatToDecimal(26) == "26"
  {
  }

  lemma MorningLabel()
    ensures ShiftText(Window(9, 18)) == "9:00 - 18:00"
  {
    WindowNumerals();
  }

  lemma AfternoonLabel()
    ensures ShiftText(Window(13, 22)) == "13:00 - 22:00"
  {
    WindowNumerals();
  }

  lemma EveningLabel()
    ensures ShiftText(Window(17, 26)) == "17:00 - 26:00"
  {
    WindowNumerals();
  }

  lemma FemaleAfternoonLabel()
    ensures ShiftText(Window(13, 21)) == "13:00 - 21:00"
  {
    WindowNumerals();
  }

  /** The labels of the four windows a slot can get; the evening one runs past midnight as "26:00". */
  lemma WindowLabels()
    ensures ShiftText(Window(9, 18)) == "9:00 - 18:00"
    ensures ShiftText(Window(13, 22)) == "13:00 - 22:00"
    ensures ShiftText(Window(17, 26)) == "17:00 - 26:00"
    ensures ShiftText(Window(13, 21)) == "13:00 - 21:00"
  {
    MorningLabel();
    AfternoonLabel();
    EveningLabel();
    FemaleAfternoonLabel();
  }

  /** The windows a slot of each kind can get, with their salaries. */
  lemma WindowPay(kind: SlotKind, draw: nat)
    requires DrawAllowed(kind, draw)
    ensures var w := ShiftWindow(kind, draw);
      match kind
      case MaleSlot =>
        (w, ShiftSalary(w.start, w.end)) in {(Window(9, 18), 100), (Window(13, 22), 105), (Window(17, 26), 100)}
      case FemaleSlot =>
        (w, ShiftSalary(w.start, w.end)) in {(Window(9, 18), 100), (Window(13, 21), 95)}
      case VacantSlot =>
        (w, ShiftSalary(w.start, w.end)) == (Window(9, 18), 100)
  {
    WindowSalaries();
    match kind
    case MaleSlot =>
      assert draw == 9 || draw == 13 || draw == 17;
    case FemaleSlot =>
      assert draw == 9 || draw == 13;
    case VacantSlot =>
  }

  /** Window and salary of each kind of slot, for every draw the slot may make. */
  lemma SlotShape(i: nat, dayOfWeek: string, numMale: int, numFemale: int, traffic: int, draw: nat)
    requires traffic >= 0
    requires DrawAllowed(Classify(i, numMale, numFemale), draw)
    ensures var a := SlotAssignment(i, dayOfWeek, numMale, numFemale, traffic, draw);
      match Classify(i, numMale, numFemale)
      case MaleSlot =>
        (a.shift, a.salary) in {(Window(9, 18), 100), (Window(13, 22), 105), (Window(17, 26), 100)}
      case FemaleSlot =>
        (a.shift, a.salary) in {(Window(9, 18), 100), (Window(13, 21), 95)}
      case VacantSlot =>
        a.employeeId == Vacant && (a.shift, a.salary) == (Window(9, 18), 100)
  {
    WindowPay(Classify(i, numMale, numFemale), draw);
  }

  /** The list the loop builds from `draws`, one entry per slot, in slot order. */
  function Roster(dayOfWeek: string, numMale: int, numFemale: int, traffic: int, draws: seq<nat>): (r: seq<Assignment>)
    requires traffic >= 0
    ensures |r| == |draws|
    decreases |draws|
  {
    if draws == [] then []
    else
      var n := |draws| - 1;
      Roster(dayOfWeek, numMale, numFemale, traffic, draws[..n]) + [SlotAssignment(n, dayOfWeek, numMale, numFemale, traffic, draws[n])]
  }

  /** The roster of one more slot is the shorter roster plus that slot's entry. */
  lemma RosterSnoc(dayOfWeek: string, numMale: int, numFemale: int, traffic: int, draws: seq<nat>, i: nat)
    requires traffic >= 0
    requires i < |draws|
    ensures Roster(dayOfWeek, numMale, numFemale, traffic, draws[..i + 1])
            == Roster(dayOfWeek, numMale, numFemale, traffic, draws[..i]) + [SlotAssignment(i, dayOfWeek, numMale, numFemale, traffic, draws[i])]
  {
    assert draws[..i + 1][..i] == draws[..i];
  }

  lemma {:induction false} RosterAt(dayOfWeek: string, numMale: int, numFemale: int, traffic: int, draws: seq<nat>, k: nat)
    requires traffic >= 0
    requires k < |draws|
    ensures Roster(dayOfWeek, numMale, numFemale, traffic, draws)[k] == SlotAssignment(k, dayOfWeek, numMale, numFemale, traffic, draws[k])
    decreases |draws|
  {
    var n := |draws| - 1;
    var prefix := draws[..n];
    var last := SlotAssignment(n, dayOfWeek, numMale, numFemale, traffic, draws[n]);
    assert Roster(dayOfWeek, numMale, numFemale, traffic, draws) == Roster(dayOfWeek, numMale, numFemale, traffic, prefix) + [last];
    if k < n {
      RosterAt(dayOfWeek, numMale, numFemale, traffic, prefix, k);
      assert prefix[k] == draws[k];
    }
  }

  /** The entry has one of the four windows a slot can get, with that window's salary. */
  predicate StandardPay(a: Assignment)
  {
    (a.shift, a.salary) in {(Window(9, 18), 100), (Window(13, 22), 105), (Window(17, 26), 100), (Window(13, 21), 95)}
  }

  /** Every roster entry is paid for one of the four windows, at that window's salary. */
  lemma RosterSalaries(dayOfWeek: string, numMale: int, numFemale: int, traffic: int, draws: seq<nat>)
    requires traffic >= 0
    requires forall i :: 0 <= i < |draws| ==> DrawAllowed(Classify(i, numMale, numFemale), draws[i])
    ensures forall a :: a in Roster(dayOfWeek, numMale, numFemale, traffic, draws) ==> StandardPay(a)
  {
    var r := Roster(dayOfWeek, numMale, numFemale, traffic, draws);
    forall a | a in r
      ensures StandardPay(a)
    {
      var k :| 0 <= k < |r| && r[k] == a;
      RosterAt(dayOfWeek, numMale, numFemale, traffic, draws, k);
      SlotShape(k, dayOfWeek, numMale, numFemale, traffic, draws[k]);
    }
  }

  /** The slots with `numMale + max(numFemale, 0)` or a higher index are the vacant ones. */
  function VacantCount(required: int, numMale: int, numFemale: int): int
  {
    required - Clamp(numMale + Max(numFemale, 0), 0, required)
  }

  /** With non-negative counts, the vacancies are the shortfall of the headcount, or none. */
  lemma VacantCountShortfall(required: nat, numMale: nat, numFemale: nat)
    ensures VacantCount(required, numMale, numFemale) == Max(required - (numMale + numFemale), 0)
  {
  }

  /** The roster holds exactly one vacant entry per vacant slot. */
  lemma {:induction false} RosterVacantEntries(dayOfWeek: string, numMale: int, numFemale: int, traffic: int, draws: seq<nat>)
    requires traffic >= 0
    ensures multiset(Roster(dayOfWeek, numMale, numFemale, traffic, draws))[VacantAssignment(dayOfWeek, numMale + numFemale, traffic)]
            == VacantCount(|draws|, numMale, numFemale)
    decreases |draws|
  {
    if draws != [] {
      var n := |draws| - 1;
      RosterVacantEntries(dayOfWeek, numMale, numFemale, traffic, draws[..n]);
      SlotAssignmentVacant(n, dayOfWeek, numMale, numFemale, traffic, draws[n]);
    }
  }

  // ---------------------------------------------------------------------------
  // Sorting: Python's stable descending sort on the (shift label, satisfaction) key
  // ---------------------------------------------------------------------------

  /**
   `(x.shift, x.satisfaction) >= (y.shift, y.satisfaction)` as Python compares
   tuples, the shift being compared as its label string.
   */
  predicate KeyGe(x: Assignment, y: Assignment)
  {
    var sx, sy := ShiftText(x.shift), ShiftText(y.shift);
    LexLess(sy, sx) || (sx == sy && x.satisfaction >= y.satisfaction)
  }

  lemma KeyGeTotal(x: Assignment, y: Assignment)
    ensures KeyGe(x, y) || KeyGe(y, x)
  {
    LexLessTotal(ShiftText(x.shift), ShiftText(y.shift));
  }

  lemma KeyGeTransitive(x: Assignment, y: Assignment, z: Assignment)
    requires KeyGe(x, y) && KeyGe(y, z)
    ensures KeyGe(x, z)
  {
    var sx, sy, sz := ShiftText(x.shift), ShiftText(y.shift), ShiftText(z.shift);
    if LexLess(sy, sx) && LexLess(sz, sy) {
      LexLessTransitive(sz, sy, sx);
    }
  }

  /** Each entry's key is at least the next entry's key. */
  predicate SortedDesc(s: seq<Assignment>)
  {
    forall i :: 0 <= i < |s| - 1 ==> KeyGe(s[i], s[i + 1])
  }

  /** In a sorted list, every entry's key is at least that of every later entry. */
  lemma {:induction false} SortedDescPairwise(s: seq<Assignment>, i: nat, j: nat)
    requires SortedDesc(s)
    requires i < j < |s|
    ensures KeyGe(s[i], s[j])
    decreases j - i
  {
    if i + 1 < j {
      SortedDescPairwise(s, i + 1, j);
      KeyGeTransitive(s[i], s[i + 1], s[j]);
    }
  }

  function Insert(x: Assignment, s: seq<Assignment>): (r: seq<Assignment>)
    ensures multiset(r) == multiset(s) + multiset{x}
    ensures |r| == |s| + 1
    ensures r[0] == x || (s != [] && r[0] == s[0])
    ensures SortedDesc(s) ==> SortedDesc(r)
  {
    if s == [] then [x]
    else if KeyGe(x, s[0]) then [x] + s
    else
      KeyGeTotal(x, s[0]);
      assert s == [s[0]] + s[1..];
      [s[0]] + Insert(x, s[1..])
  }

  /** A sorted permutation of `s`, keys non-increasing. */
  function SortDesc(s: seq<Assignment>): (r: seq<Assignment>)
    ensures multiset(r) == multiset(s)
    ensures SortedDesc(r)
  {
    if s == [] then []
    else
      assert s == [s[0]] + s[1..];
      Insert(s[0], SortDesc(s[1..]))
  }

  /** `x` and `y` have the same shift and the same satisfaction, hence the same sort key. */
  predicate SameKey(x: Assignment, y: Assignment)
  {
    x.shift == y.shift && x.satisfaction == y.satisfaction
  }

  /** Two entries have the same key exactly when neither sorts strictly before the other. */
  lemma SameKeyIff(x: Assignment, y: Assignment)
    ensures SameKey(x, y) <==> KeyGe(x, y) && KeyGe(y, x)
  {
    var sx, sy := ShiftText(x.shift), ShiftText(y.shift);
    if LexLess(sy, sx) {
      LexLessAsymmetric(sy, sx);
      LexLessIrreflexive(sx);
    } else if LexLess(sx, sy) {
      LexLessIrreflexive(sx);
    } else if sx == sy {
      ShiftTextInjective(x.shift, y.shift);
    }
  }

  /** The entries of `s` whose key equals `y`'s, in their order in `s`. */
  function KeyClass(s: seq<Assignment>, y: Assignment): seq<Assignment>
  {
    if s == [] then [] else (if SameKey(s[0], y) then [s[0]] else []) + KeyClass(s[1..], y)
  }

  lemma KeyClassCons(h: Assignment, t: seq<Assignment>, y: Assignment)
    ensures KeyClass([h] + t, y) == (if SameKey(h, y) then [h] else []) + KeyClass(t, y)
  {
    assert ([h] + t)[1..] == t;
  }

  /** When `h` sorts strictly before `x`, no entry has both their keys. */
  lemma SameKeyExclusive(x: Assignment, h: Assignment, y: Assignment)
    requires !KeyGe(x, h)
    ensures !(SameKey(x, y) && SameKey(h, y))
  {
  }

  /** The step of `InsertStable` where `x` goes behind the head `h`, given the fact for the tail `t`. */
  lemma InsertBehindStable(x: Assignment, h: Assignment, t: seq<Assignment>, y: Assignment)
    requires !KeyGe(x, h)
    requires KeyClass(Insert(x, t), y) == (if SameKey(x, y) then [x] else []) + KeyClass(t, y)
    ensures KeyClass(Insert(x, [h] + t), y) == (if SameKey(x, y) then [x] else []) + KeyClass([h] + t, y)
  {
    assert ([h] + t)[0] == h && ([h] + t)[1..] == t;
    assert Insert(x, [h] + t) == [h] + Insert(x, t);
    KeyClassCons(h, Insert(x, t), y);
    KeyClassCons(h, t, y);
    SameKeyExclusive(x, h, y);
    if SameKey(x, y) {
      assert KeyClass(Insert(x, [h] + t), y) == KeyClass(Insert(x, t), y);
      assert KeyClass([h] + t, y) == KeyClass(t, y);
    } else if SameKey(h, y) {
      assert KeyClass(Insert(x, t), y) == KeyClass(t, y);
    } else {
      assert KeyClass(Insert(x, t), y) == KeyClass(t, y);
      assert KeyClass(Insert(x, [h] + t), y) == KeyClass(Insert(x, t), y);
      assert KeyClass([h] + t, y) == KeyClass(t, y);
    }
  }

  /** Inserting `x` puts it ahead of the entries that share its key. */
  lemma {:induction false} InsertStable(x: Assignment, s: seq<Assignment>, y: Assignment)
    ensures KeyClass(Insert(x, s), y) == (if SameKey(x, y) then [x] else []) + KeyClass(s, y)
    decreases |s|
  {
    if s == [] {
      KeyClassCons(x, [], y);
    } else if KeyGe(x, s[0]) {
      assert Insert(x, s) == [x] + s;
      KeyClassCons(x, s, y);
    } else {
      InsertStable(x, s[1..], y);
      assert s == [s[0]] + s[1..];
      InsertBehindStable(x, s[0], s[1..], y);
    }
  }

  /** The sort is stable: entries with equal keys keep their input order. */
  lemma {:induction false} SortDescStable(s: seq<Assignment>, y: Assignment)
    ensures KeyClass(SortDesc(s), y) == KeyClass(s, y)
    decreases |s|
  {
    if s != [] {
      SortDescStable(s[1..], y);
      InsertStable(s[0], SortDesc(s[1..]), y);
    }
  }

  /** The two afternoon labels agree up to the end hour's last digit. */
  lemma FemaleAfternoonBeforeAfternoon()
    ensures LexLess(ShiftText(Window(13, 21)), ShiftText(Window(13, 22)))
  {
    var t21, t22 := NatToDecimal(21) + ":00", NatToDecimal(22) + ":00";
    WindowNumerals();
    assert t21 == "21:00" && t22 == "22:00";
    LexLessAtFirstDifference(t21, t22, 1);
    LexLessSharedPrefix(":00 - ", t21, t22);
    LexLessSharedPrefix(NatToDecimal(13), ":00 - " + t21, ":00 - " + t22);
  }

  lemma AfternoonBeforeEvening()
    ensures LexLess(ShiftText(Window(13, 22)), ShiftText(Window(17, 26)))
  {
    WindowNumerals();
    LexLessAtFirstDifference(ShiftText(Window(13, 22)), ShiftText(Window(17, 26)), 1);
  }

  lemma EveningBeforeMorning()
    ensures LexLess(ShiftText(Window(17, 26)), ShiftText(Window(9, 18)))
  {
    WindowNumerals();
    LexLessAtFirstDifference(ShiftText(Window(17, 26)), ShiftText(Window(9, 18)), 0);
  }

  /**
   Compared as strings, the four labels sort as below, so the descending sort
   puts the 9:00 shifts first and the female afternoon shifts last.
   */
  lemma LabelOrder()
    ensures LexLess(ShiftText(Window(13, 21)), ShiftText(Window(13, 22)))
    ensures LexLess(ShiftText(Window(13, 22)), ShiftText(Window(17, 26)))
    ensures LexLess(ShiftText(Window(17, 26)), ShiftText(Window(9, 18)))
  {
    FemaleAfternoonBeforeAfternoon();
    AfternoonBeforeEvening();
    EveningBeforeMorning();
  }

  // ---------------------------------------------------------------------------
  // The handler
  // ---------------------------------------------------------------------------

  /** Reordering a list keeps every entry's pay standard. */
  lemma PermutationKeepsPay(s: seq<Assignment>, t: seq<Assignment>)
    requires multiset(s) == multiset(t)
    requires forall a :: a in s ==> StandardPay(a)
    ensures forall a :: a in t ==> StandardPay(a)
  {
    forall a | a in t
      ensures StandardPay(a)
    {
      assert a in multiset(s);
    }
  }

  /** The response body: the sorted roster, the vacancy count and the headcount. */
  datatype Schedule = Schedule(employees: seq<Assignment>, vacantSlots: int, totalRequiredEmployees: int)

  /**
   The body of the roster loop for slot `i`: the slot's id and shift window,
   its pay, burnout and satisfaction; `vacant` says whether the slot bumps
   the vacancy counter.
   */
  method BuildSlot(i: nat, dayOfWeek: string, numMale: int, numFemale: int, traffic: int, draw: nat)
    returns (entry: Assignment, vacant: bool)
    requires traffic >= 0
    requires DrawAllowed(Classify(i, numMale, numFemale), draw)
    ensures entry == SlotAssignment(i, dayOfWeek, numMale, numFemale, traffic, draw)
    ensures vacant <==> Classify(i, numMale, numFemale) == VacantSlot
  {
    var employeeId: EmployeeId;
    var shiftStart: nat;
    var shiftEnd: nat;
    vacant := false;
    if i < numMale {
      employeeId := MaleEmployee(i + 1);
      shiftStart := draw;
      shiftEnd := shiftStart + ShiftLength;
    } else if i < numMale + numFemale {
      employeeId := FemaleEmployee(i - numMale + 1);
      shiftStart := draw;
      shiftEnd := Min(shiftStart + ShiftLength, FemaleEndHour);
    } else {
      employeeId := Vacant;
      vacant := true;
      shiftStart := 9;
      shiftEnd := 18;
    }
    var salary := PayShift(shiftStart, shiftEnd);
    var burnout := Burnout(traffic, numMale + numFemale, shiftStart);
    var satisfaction := Satisfaction(salary, burnout);
    entry := Assignment(employeeId, dayOfWeek, Window(shiftStart, shiftEnd), salary, burnout, satisfaction);
  }

  /** The roster loop: one entry per required slot, in slot order, counting the vacant slots. */
  method BuildRoster(dayOfWeek: string, numMale: int, numFemale: int, traffic: int, draws: seq<nat>)
    returns (employees: seq<Assignment>, vacantSlots: int)
    requires traffic >= 0
    requires forall i :: 0 <= i < |draws| ==> DrawAllowed(Classify(i, numMale, numFemale), draws[i])
    ensures employees == Roster(dayOfWeek, numMale, numFemale, traffic, draws)
    ensures vacantSlots == VacantCount(|draws|, numMale, numFemale)
  {
    employees := [];
    vacantSlots := 0;
    for i := 0 to |draws|
      invariant employees == Roster(dayOfWeek, numMale, numFemale, traffic, draws[..i])
      invariant vacantSlots == VacantCount(i, numMale, numFemale)
    {
      var entry, vacant := BuildSlot(i, dayOfWeek, numMale, numFemale, traffic, draws[i]);
      if vacant {
        vacantSlots := vacantSlots + 1;
      }
      RosterSnoc(dayOfWeek, numMale, numFemale, traffic, draws, i);
      employees := employees + [entry];
    }
    assert draws[..|draws|] == draws;
  }

  /** The `/schedule` handler, from the request's counts and the random draws to the response body. */
  method GenerateSchedule(dayOfWeek: string, numMale: int, numFemale: int, traffic: int, draws: seq<nat>)
    returns (result: Schedule)
    requires 1 <= traffic <= 50
    requires |draws| == EmployeesRequired(dayOfWeek)
    requires forall i :: 0 <= i < |draws| ==> DrawAllowed(Classify(i, numMale, numFemale), draws[i])
    ensures result.totalRequiredEmployees == EmployeesRequired(dayOfWeek)
    ensures |result.employees| == result.totalRequiredEmployees
    ensures result.vacantSlots == VacantCount(result.totalRequiredEmployees, numMale, numFemale)
    ensures numMale >= 0 && numFemale >= 0 ==>
              result.vacantSlots == Max(result.totalRequiredEmployees - (numMale + numFemale), 0)
    ensures multiset(result.employees) == multiset(Roster(dayOfWeek, numMale, numFemale, traffic, draws))
    ensures multiset(result.employees)[VacantAssignment(dayOfWeek, numMale + numFemale, traffic)] == result.vacantSlots
    ensures SortedDesc(result.employees)
    ensures forall a :: a in result.employees ==> StandardPay(a)
    ensures forall y :: KeyClass(result.employees, y) == KeyClass(Roster(dayOfWeek, numMale, numFemale, traffic, draws), y)
  {
    var required := EmployeesRequired(dayOfWeek);
    var employees, vacantSlots := BuildRoster(dayOfWeek, numMale, numFemale, traffic, draws);
    RosterVacantEntries(dayOfWeek, numMale, numFemale, traffic, draws);
    RosterSalaries(dayOfWeek, numMale, numFemale, traffic, draws);
    if numMale >= 0 && numFemale >= 0 {
      VacantCountShortfall(required, numMale, numFemale);
    }
    var roster := employees;
    employees := SortDesc(employees);
    PermutationKeepsPay(roster, employees);
    forall y {
      SortDescStable(roster, y);
    }
    result := Schedule(employees, vacantSlots, required);
  }
}
