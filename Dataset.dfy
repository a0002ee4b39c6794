/**
 dataset.py: the synthetic staff table. Each row gets a sequential id, a shift
 drawn inside opening hours (female shifts redrawn so that they end by 21:00),
 a satisfaction score and the burnout derived from it.

 The random draws of a row are the fields of `RowDraw`; the workload that
 `calculate_workload` would produce is taken as a drawn `real` as well.
 */
module Dataset {

  const RestaurantIds: seq<int> := [1, 2, 3]
  /** Length of a shift, in hours. */
  const ShiftDuration := 9
  /** Time kept free before closing for the handover, in hours. */
  const HandoverDuration := 1
  /** No female shift may end after this hour. */
  const FemaleEndTime := 21
  const OpeningTime := 5
  /** 1 AM of the next day, counted as hour 25. */
  const ClosingTime := 25
  const DaysOfWeek: seq<string> := ["Monday", "Tuesday", "Wednesday", "Thursday", "Friday", "Saturday", "Sunday"]

  datatype Gender = Male | Female

  /** The upper bound of the first start-hour draw. */
  function LatestStart(): int
  {
    ClosingTime - ShiftDuration - HandoverDuration
  }

  /** The upper bound of a female redraw. */
  function LatestFemaleStart(): int
  {
    FemaleEndTime - ShiftDuration
  }

  /** A female shift whose first draw would end after `FemaleEndTime` is drawn again. */
  predicate RedrawNeeded(gender: Gender, firstStart: int)
  {
    gender == Female && firstStart + ShiftDuration > FemaleEndTime
  }

  /** Start and end of a shift as clock hours (`datetime.time` values on the hour). */
  datatype Shift = Shift(start: int, end: int)

  /**
   `generate_shift`: `firstStart` is the first `random.randint`, `secondStart`
   the redraw, consulted only when `RedrawNeeded`.
   */
  function GenerateShift(gender: Gender, firstStart: int, secondStart: int): (s: Shift)
    requires OpeningTime <= firstStart <= LatestStart()
    requires RedrawNeeded(gender, firstStart) ==> OpeningTime <= secondStart <= LatestFemaleStart()
    ensures 0 <= s.start < 24 && 0 <= s.end < 24
    ensures 5 <= s.start <= 15
    ensures s.end == (s.start + ShiftDuration) % 24
    ensures !RedrawNeeded(gender, firstStart) ==> s.start == firstStart
    ensures RedrawNeeded(gender, firstStart) ==> s.start == secondStart
    ensures gender == Male ==> s.start == firstStart
    ensures gender == Female ==> s.start + ShiftDuration <= FemaleEndTime && s.end == s.start + ShiftDuration
  {
    var startHour := if RedrawNeeded(gender, firstStart) then secondStart else firstStart;
    var clockStart := startHour % 24;
    Shift(clockStart, (clockStart + ShiftDuration) % 24)
  }

  /** A shift's end hour is smaller than its start hour exactly when it starts at 15, which only a male shift can. */
  lemma ShiftWrapsIff(gender: Gender, firstStart: int, secondStart: int)
    requires OpeningTime <= firstStart <= LatestStart()
    requires RedrawNeeded(gender, firstStart) ==> OpeningTime <= secondStart <= LatestFemaleStart()
    ensures var s := GenerateShift(gender, firstStart, secondStart);
      (s.end < s.start <==> s.start == 15) && (s.end < s.start ==> gender == Male && s.end == 0)
  {
  }

  /** `10 - satisfaction`. */
  function Burnout(satisfaction: int): (b: int)
    ensures b + satisfaction == 10
    ensures 1 <= satisfaction <= 10 ==> 0 <= b <= 9
  {
    10 - satisfaction
  }

  /** The salary rule: 10 below a workload of 0.5, 15 from there on. */
  function SalaryRate(workload: real): (r: int)
    ensures r == 10 || r == 15
    ensures r == 10 <==> workload < 0.5
  {
    if workload < 0.5 then 10 else 15
  }

  /** A heavier workload never earns less. */
  lemma SalaryRateMonotone(w1: real, w2: real)
    requires w1 <= w2
    ensures SalaryRate(w1) <= SalaryRate(w2)
  {
  }

  /** The random values one iteration of the row loop draws. */
  datatype RowDraw = RowDraw(
    employeeName: string,
    gender: Gender,
    satisfaction: int,
    restaurantId: int,
    firstStart: int,
    secondStart: int,
    dayOfWeek: string,
    avgTraffic: int,
    workload: real,
    avgSalePerHour: real)

  /** The ranges the draws come from. */
  predicate ValidDraw(d: RowDraw)
  {
    && 1 <= d.satisfaction <= 10
    && d.restaurantId in RestaurantIds
    && OpeningTime <= d.firstStart <= LatestStart()
    && (RedrawNeeded(d.gender, d.firstStart) ==> OpeningTime <= d.secondStart <= LatestFemaleStart())
    && d.dayOfWeek in DaysOfWeek
    && 1 <= d.avgTraffic <= 50
    && 100.0 <= d.avgSalePerHour <= 600.0
  }

  /** One record of the `data` list. */
  datatype Row = Row(
    employeeId: int,
    employeeName: string,
    restaurantId: int,
    shiftStart: int,
    shiftEnd: int,
    gender: Gender,
    workload: real,
    employeeSatisfaction: int,
    burnout: int,
    avgSalePerHour: real,
    dayOfWeek: string,
    avgTraffic: int)

  /** The record the loop appends for employee `employeeId` drawn as `d`. */
  function MakeRow(employeeId: int, d: RowDraw): (r: Row)
    requires ValidDraw(d)
    ensures r.employeeId == employeeId
    ensures 0 <= r.burnout <= 9 && r.burnout + r.employeeSatisfaction == 10
    ensures 5 <= r.shiftStart <= 15 && r.shiftEnd == (r.shiftStart + ShiftDuration) % 24
    ensures r.gender == Female ==> r.shiftEnd == r.shiftStart + ShiftDuration <= FemaleEndTime
    ensures r.restaurantId in RestaurantIds && r.dayOfWeek in DaysOfWeek
    ensures r.gender == d.gender && r.employeeSatisfaction == d.satisfaction && r.burnout == Burnout(d.satisfaction)
    ensures r.restaurantId == d.restaurantId && r.dayOfWeek == d.dayOfWeek && r.employeeName == d.employeeName
    ensures r.workload == d.workload && r.avgTraffic == d.avgTraffic && r.avgSalePerHour == d.avgSalePerHour
    ensures 100.0 <= r.avgSalePerHour <= 600.0
    ensures var s := GenerateShift(d.gender, d.firstStart, d.secondStart);
      r.shiftStart == s.start && r.shiftEnd == s.end
  {
    var shift := GenerateShift(d.gender, d.firstStart, d.secondStart);
    Row(employeeId, d.employeeName, d.restaurantId, shift.start, shift.end, d.gender, d.workload,
        d.satisfaction, Burnout(d.satisfaction), d.avgSalePerHour, d.dayOfWeek, d.avgTraffic)
  }

  /** The row loop: row `k` is employee `k + 1`, built from the `k`-th draws. */
  method GenerateData(draws: seq<RowDraw>) returns (data: seq<Row>)
    requires forall k :: 0 <= k < |draws| ==> ValidDraw(draws[k])
    ensures |data| == |draws|
    ensures forall k :: 0 <= k < |data| ==> data[k] == MakeRow(k + 1, draws[k])
    ensures forall k :: 0 <= k < |data| ==> data[k].employeeId == k + 1
    ensures forall j, k :: 0 <= j < k < |data| ==> data[j].employeeId < data[k].employeeId
  {
    data := [];
    for i := 0 to |draws|
      invariant |data| == i
      invariant forall k :: 0 <= k < i ==> data[k] == MakeRow(k + 1, draws[k])
    {
      var d := draws[i];
      var employeeId := i + 1;
      var burnout := Burnout(d.satisfaction);
      var shift := GenerateShift(d.gender, d.firstStart, d.secondStart);
      // The salary is computed and, as in dataset.py, not stored in the row.
      var salary := SalaryRate(d.workload);
      data := data + [Row(employeeId, d.employeeName, d.restaurantId, shift.start, shift.end, d.gender,
                          d.workload, d.satisfaction, burnout, d.avgSalePerHour, d.dayOfWeek, d.avgTraffic)];
    }
  }
}
