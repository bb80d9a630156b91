/** The ROI estimator: three slider inputs (staff count, monthly patient call
    volume, average hourly wage) give hours saved, yearly labour savings, the
    tiered annual platform cost, net savings and ROI percent. */
module ROICalculator {

  /** Minutes a call takes today and with the product. */
  const CurrentMinutesPerCall: int := 8
  const AutomatedMinutesPerCall: int := 2
  const MinutesSavedPerCall: int := CurrentMinutesPerCall - AutomatedMinutesPerCall

  /** The three annual platform costs, by staff tier. */
  const SmallTierCost: int := 1188
  const MediumTierCost: int := 5988
  const LargeTierCost: int := 15000

  /** Slider values, already clamped and stepped by the slider controls. */
  datatype Inputs = Inputs(staff: int, monthlyCalls: int, hourlyWage: int)

  /** What the results card shows. */
  datatype Estimate = Estimate(
    hoursSaved: int,
    yearlySavings: int,
    annualCost: int,
    netSavings: int,
    roiPercent: int)

  /** `Math.round(a / b)` for a positive `b`: the integer nearest to a/b, with
      exact halves going up (towards positive infinity), as JavaScript rounds. */
  function RoundDiv(a: int, b: int): (r: int)
    requires b > 0
    ensures 2 * r * b - b <= 2 * a < 2 * r * b + b
  {
    (2 * a + b) / (2 * b)
  }

  /** The product of two non-negative integers is non-negative. */
  lemma MulNonNegative(x: int, y: int)
    requires x >= 0 && y >= 0
    ensures x * y >= 0
  {
  }

  /** Multiplying by a positive number preserves strict order, so it can be cancelled. */
  lemma CancelPositive(x: int, y: int, b: int)
    requires b > 0 && x * b < y * b
    ensures x < y
  {
    if x >= y {
      MulNonNegative(x - y, b);
    }
  }

  /** Only one integer sits within half of a/b (halves going up), so the rounding
      contract determines the result. */
  lemma RoundDivUnique(a: int, b: int, r: int)
    requires b > 0
    requires 2 * r * b - b <= 2 * a < 2 * r * b + b
    ensures RoundDiv(a, b) == r
  {
    var r0 := RoundDiv(a, b);
    assert (2 * r0 - 1) * b == 2 * r0 * b - b && (2 * r + 1) * b == 2 * r * b + b;
    assert (2 * r - 1) * b == 2 * r * b - b && (2 * r0 + 1) * b == 2 * r0 * b + b;
    CancelPositive(2 * r0 - 1, 2 * r + 1, b);
    CancelPositive(2 * r - 1, 2 * r0 + 1, b);
  }

  /** Rounding is exact when the division is. */
  lemma RoundDivExact(q: int, b: int)
    requires b > 0
    ensures RoundDiv(q * b, b) == q
  {
    assert 2 * q * b == 2 * (q * b);
    RoundDivUnique(q * b, b, q);
  }

  /** Rounding is monotonic: a larger numerator never rounds lower. */
  lemma RoundDivMonotonic(a: int, a': int, b: int)
    requires b > 0 && a <= a'
    ensures RoundDiv(a, b) <= RoundDiv(a', b)
  {
    var r, r' := RoundDiv(a, b), RoundDiv(a', b);
    assert (2 * r - 1) * b == 2 * r * b - b && (2 * r' + 1) * b == 2 * r' * b + b;
    CancelPositive(2 * r - 1, 2 * r' + 1, b);
  }

  /** Slider domain: staff 50..2000 step 50, calls 100..10000 step 100, wage 20..75 step 5. */
  predicate InSliderDomain(i: Inputs)
  {
    && 50 <= i.staff <= 2000 && i.staff % 50 == 0
    && 100 <= i.monthlyCalls <= 10000 && i.monthlyCalls % 100 == 0
    && 20 <= i.hourlyWage <= 75 && i.hourlyWage % 5 == 0
  }

  /** The initial slider positions. */
  const DefaultInputs: Inputs := Inputs(500, 2000, 35)

  /** `yearlyCalls * timeSavedPerCall` with `yearlyCalls = monthlyCalls * 12`:
      six minutes for each of twelve months of calls. */
  function MinutesSaved(monthlyCalls: int): (minutes: int)
    ensures minutes == 72 * monthlyCalls
  {
    (monthlyCalls * 12) * MinutesSavedPerCall
  }

  /** `Math.round(totalTimeSavedMinutes / 60)`: within half an hour of 72·calls/60,
      never negative for a non-negative volume. */
  function HoursSaved(monthlyCalls: int): (hours: int)
    ensures 120 * hours - 60 <= 144 * monthlyCalls < 120 * hours + 60
    ensures monthlyCalls >= 0 ==> hours >= 0
  {
    RoundDiv(MinutesSaved(monthlyCalls), 60)
  }

  /** `Math.round(hours * wage)`; the product of two integers is already an integer,
      so on every multiple of five calls it is exactly 6/5 of the calls times the wage. */
  function YearlySavings(monthlyCalls: int, hourlyWage: int): (savings: int)
    ensures monthlyCalls >= 0 && hourlyWage >= 0 ==> savings >= 0
    ensures monthlyCalls % 5 == 0 ==> 5 * savings == 6 * monthlyCalls * hourlyWage
  {
    var hours := HoursSaved(monthlyCalls);
    HoursSavedExact(monthlyCalls);
    assert 5 * (hours * hourlyWage) == (5 * hours) * hourlyWage;
    if monthlyCalls >= 0 && hourlyWage >= 0 then
      MulNonNegative(hours, hourlyWage);
      hours * hourlyWage
    else
      hours * hourlyWage
  }

  /** The tiered annual platform cost; 100 and 500 staff belong to the lower tier. */
  function AnnualCost(staff: int): (r: int)
    ensures r > 0
    ensures r == SmallTierCost <==> staff <= 100
    ensures r == MediumTierCost <==> 100 < staff <= 500
    ensures r == LargeTierCost <==> 500 < staff
  {
    if staff <= 100 then SmallTierCost else if staff <= 500 then MediumTierCost else LargeTierCost
  }

  /** `Math.round((netSavings / cost) * 100)`. */
  function RoiPercent(netSavings: int, cost: int): (r: int)
    requires cost > 0
    ensures 2 * r * cost - cost <= 200 * netSavings < 2 * r * cost + cost
    ensures netSavings < 0 ==> r <= 0
    ensures netSavings >= 0 ==> r >= 0
  {
    RoundDiv(100 * netSavings, cost)
  }

  /** The whole results card for one set of slider values. Every input is accepted,
      because the cost is always positive and so the ROI division is always defined. */
  function Compute(i: Inputs): (e: Estimate)
    ensures e.annualCost == AnnualCost(i.staff) && e.annualCost > 0
    ensures e.netSavings == e.yearlySavings - e.annualCost
    ensures 2 * e.roiPercent * e.annualCost - e.annualCost
            <= 200 * e.netSavings
            < 2 * e.roiPercent * e.annualCost + e.annualCost
    ensures 2 * 60 * e.hoursSaved - 60 <= 2 * 72 * i.monthlyCalls < 2 * 60 * e.hoursSaved + 60
    ensures e.yearlySavings == e.hoursSaved * i.hourlyWage
  {
    var hours := HoursSaved(i.monthlyCalls);
    var savings := YearlySavings(i.monthlyCalls, i.hourlyWage);
    var cost := AnnualCost(i.staff);
    var net := savings - cost;
    Estimate(hours, savings, cost, net, RoiPercent(net, cost))
  }

  /** Hours saved is `round(6 * calls / 5)`; when the call volume is a multiple of 5
      (every slider position is) the division is exact. */
  lemma HoursSavedExact(monthlyCalls: int)
    ensures HoursSaved(monthlyCalls) == RoundDiv(6 * monthlyCalls, 5)
    ensures monthlyCalls % 5 == 0 ==> 5 * HoursSaved(monthlyCalls) == 6 * monthlyCalls
  {
    var h := HoursSaved(monthlyCalls);
    assert 2 * h * 60 - 60 <= 2 * 72 * monthlyCalls < 2 * h * 60 + 60;
    assert 2 * h * 5 - 5 <= 2 * 6 * monthlyCalls < 2 * h * 5 + 5;
    RoundDivUnique(6 * monthlyCalls, 5, h);
    if monthlyCalls % 5 == 0 {
      var q := monthlyCalls / 5;
      assert 6 * monthlyCalls == (6 * q) * 5;
      RoundDivExact(6 * q, 5);
    }
  }

  /** More calls never save fewer hours. */
  lemma HoursSavedMonotonic(m: int, m': int)
    requires m <= m'
    ensures HoursSaved(m) <= HoursSaved(m')
  {
    RoundDivMonotonic(MinutesSaved(m), MinutesSaved(m'), 60);
  }

  /** For a fixed, non-negative call volume, a higher wage never saves less money. */
  lemma SavingsMonotonicInWage(m: int, w: int, w': int)
    requires m >= 0 && w <= w'
    ensures YearlySavings(m, w) <= YearlySavings(m, w')
  {
    var h := HoursSaved(m);
    RoundDivMonotonic(0, MinutesSaved(m), 60);
    assert RoundDiv(0, 60) == 0;
    MulNonNegative(h, w' - w);
    assert h * (w' - w) == h * w' - h * w;
  }

  /** A larger organisation never pays less. */
  lemma AnnualCostMonotonic(s: int, s': int)
    requires s <= s'
    ensures AnnualCost(s) <= AnnualCost(s')
  {
  }

  /** On the call slider's grid the hours are exactly 6/5 of the calls. */
  lemma HoursOnGrid(m: int)
    requires 100 <= m <= 10000 && m % 100 == 0
    ensures 5 * HoursSaved(m) == 6 * m
    ensures 120 <= HoursSaved(m) <= 12000
  {
    var k := m / 100;
    assert m == 5 * (20 * k);
    HoursSavedExact(m);
  }

  /** Products of non-negative bounds bound the product. */
  lemma MulBounds(h: int, w: int, hLo: int, hHi: int, wLo: int, wHi: int)
    requires 0 <= hLo <= h <= hHi && 0 <= wLo <= w <= wHi
    ensures hLo * wLo <= h * w <= hHi * wHi
  {
    MulNonNegative(h - hLo, w);
    MulNonNegative(hHi - h, w);
    MulNonNegative(hLo, w - wLo);
    MulNonNegative(hHi, wHi - w);
    assert (h - hLo) * w == h * w - hLo * w && (hHi - h) * w == hHi * w - h * w;
    assert hLo * (w - wLo) == hLo * w - hLo * wLo && hHi * (wHi - w) == hHi * wHi - hHi * w;
  }

  /** On the slider domain every figure is exact: hours are 6/5 of the monthly calls,
      and hours and savings stay within the ranges the sliders allow. */
  lemma OnSliderDomain(i: Inputs)
    requires InSliderDomain(i)
    ensures 5 * Compute(i).hoursSaved == 6 * i.monthlyCalls
    ensures 120 <= Compute(i).hoursSaved <= 12000
    ensures 2400 <= Compute(i).yearlySavings <= 900000
  {
    HoursOnGrid(i.monthlyCalls);
    MulBounds(HoursSaved(i.monthlyCalls), i.hourlyWage, 120, 12000, 20, 75);
  }

  /** The initial slider positions show 2400 hours, $84,000 savings, $5,988 cost,
      $78,012 net and 1303% ROI. */
  lemma DefaultEstimate()
    ensures InSliderDomain(DefaultInputs)
    ensures Compute(DefaultInputs) == Estimate(2400, 84000, 5988, 78012, 1303)
  {
  }

  /** The smallest tier at its upper boundary: 100 staff, 100 calls, $20. */
  lemma SmallTierBoundaryEstimate()
    ensures Compute(Inputs(100, 100, 20)) == Estimate(120, 2400, 1188, 1212, 102)
  {
  }

  /** Just above the middle tier: 501 staff pays the top-tier cost. */
  lemma LargeTierEstimate()
    ensures Compute(Inputs(501, 10000, 75)) == Estimate(12000, 900000, 15000, 885000, 5900)
  {
  }

  /** Net savings and ROI can be negative: 2000 staff, 100 calls, $20 loses money. */
  lemma NegativeReturn()
    ensures InSliderDomain(Inputs(2000, 100, 20))
    ensures Compute(Inputs(2000, 100, 20)) == Estimate(120, 2400, 15000, -12600, -84)
  {
  }
}
