/** The what-if simulator of the optimisation page (src/pages/Optimize.tsx):
    three slider values mapped to projected lead time, cycle time and
    efficiency, and the colour maps of the recommendation badges.

    The page computes in decimals, but every input is a whole number, so the
    model computes exactly in tenths: the total impact is T / 10 with
      T = 30 (teamSize - 5) + 5 (automation - 30) + 3 (parallelization - 40),
    and each metric is a rational with a fixed denominator that Math.round
    (RoundDiv) turns into an integer before the clamp. */
module Optimize {
  import opened Types
  import opened JsSemantics

  datatype SimulationValues = SimulationValues(teamSize: int, automation: int, parallelization: int)

  datatype SimulatedMetrics = SimulatedMetrics(leadTime: int, cycleTime: int, efficiency: int)

  /** The values the sliders start at. */
  const InitialValues := SimulationValues(5, 30, 40)

  const BaseLeadTime := 208
  const BaseCycleTime := 34
  const BaseEfficiency := 87

  /** Ten times totalImpact: teamImpact (3 per person), automationImpact (0.5
      per point) and parallelImpact (0.3 per point), each measured from the
      initial slider value. */
  function ImpactTenths(v: SimulationValues): int
  {
    30 * (v.teamSize - 5) + 5 * (v.automation - 30) + 3 * (v.parallelization - 40)
  }

  /** round(baseLeadTime - totalImpact * 0.8), before the floor of 150. */
  function RoundedLeadTime(v: SimulationValues): int
  {
    RoundDiv(100 * BaseLeadTime - 8 * ImpactTenths(v), 100)
  }

  /** round(baseCycleTime - totalImpact * 0.15), before the floor of 20. */
  function RoundedCycleTime(v: SimulationValues): int
  {
    RoundDiv(1000 * BaseCycleTime - 15 * ImpactTenths(v), 1000)
  }

  /** round(baseEfficiency + totalImpact * 0.1), before the ceiling of 100. */
  function RoundedEfficiency(v: SimulationValues): int
  {
    RoundDiv(100 * BaseEfficiency + ImpactTenths(v), 100)
  }

  function Max(a: int, b: int): int { if a >= b then a else b }

  function Min(a: int, b: int): int { if a <= b then a else b }

  /** calculateSimulatedMetrics: the rounded projections, lead time held at or
      above 150, cycle time at or above 20, efficiency at or below 100. */
  function Simulate(v: SimulationValues): (m: SimulatedMetrics)
    ensures m.leadTime >= 150 && m.cycleTime >= 20 && m.efficiency <= 100
    ensures m.leadTime > 150 ==> m.leadTime == RoundedLeadTime(v)
    ensures m.cycleTime > 20 ==> m.cycleTime == RoundedCycleTime(v)
    ensures m.efficiency < 100 ==> m.efficiency == RoundedEfficiency(v)
    ensures RoundedLeadTime(v) >= 150 ==> m.leadTime == RoundedLeadTime(v)
    ensures RoundedCycleTime(v) >= 20 ==> m.cycleTime == RoundedCycleTime(v)
    ensures RoundedEfficiency(v) <= 100 ==> m.efficiency == RoundedEfficiency(v)
  {
    SimulatedMetrics(
      Max(150, RoundedLeadTime(v)),
      Max(20, RoundedCycleTime(v)),
      Min(100, RoundedEfficiency(v)))
  }

  /** With the sliders where they start, the projection is the current state. */
  lemma InitialProjection()
    ensures Simulate(InitialValues) == SimulatedMetrics(208, 34, 87)
  {
    RoundDivExact(208, 100);
    RoundDivExact(34, 1000);
    RoundDivExact(87, 100);
  }

  /** A total impact of 10 (teamSize 5, automation 50, parallelization 40)
      puts cycle time at exactly 32.5, which Math.round takes up to 33. */
  lemma TieRoundsUp()
    ensures ImpactTenths(SimulationValues(5, 50, 40)) == 100
    ensures Simulate(SimulationValues(5, 50, 40)).cycleTime == 33
  {
    RoundDivUnique(34000 - 15 * 100, 1000, 33);
  }

  /** Moving sliders up never lengthens lead or cycle time and never lowers
      efficiency: every impact coefficient is positive, and rounding, max and
      min keep order. */
  lemma SimulateMonotone(v: SimulationValues, w: SimulationValues)
    requires v.teamSize <= w.teamSize && v.automation <= w.automation
    requires v.parallelization <= w.parallelization
    ensures Simulate(w).leadTime <= Simulate(v).leadTime
    ensures Simulate(w).cycleTime <= Simulate(v).cycleTime
    ensures Simulate(w).efficiency >= Simulate(v).efficiency
  {
    RoundedMonotone(v, w);
  }

  lemma RoundedMonotone(v: SimulationValues, w: SimulationValues)
    requires v.teamSize <= w.teamSize && v.automation <= w.automation
    requires v.parallelization <= w.parallelization
    ensures RoundedLeadTime(w) <= RoundedLeadTime(v)
    ensures RoundedCycleTime(w) <= RoundedCycleTime(v)
    ensures RoundedEfficiency(w) >= RoundedEfficiency(v)
  {
    var tv, tw := ImpactTenths(v), ImpactTenths(w);
    assert tv <= tw;
    RoundDivMonotone(20800 - 8 * tw, 20800 - 8 * tv, 100);
    RoundDivMonotone(34000 - 15 * tw, 34000 - 15 * tv, 1000);
    RoundDivMonotone(8700 + tv, 8700 + tw, 100);
  }

  /** The ranges the sliders offer: team size 3 to 10, automation and
      parallelization 0 to 100 percent. */
  predicate InSliderRange(v: SimulationValues)
  {
    && 3 <= v.teamSize <= 10
    && 0 <= v.automation <= 100
    && 0 <= v.parallelization <= 100
  }

  const LowestValues := SimulationValues(3, 0, 0)
  const HighestValues := SimulationValues(10, 100, 100)

  /** The projections at the two corners of the slider ranges. */
  lemma CornerProjections()
    ensures Simulate(HighestValues) == SimulatedMetrics(154, 24, 94)
    ensures Simulate(LowestValues) == SimulatedMetrics(234, 39, 84)
  {
    assert ImpactTenths(HighestValues) == 680;
    RoundDivUnique(20800 - 8 * 680, 100, 154);
    RoundDivUnique(34000 - 15 * 680, 1000, 24);
    RoundDivUnique(8700 + 680, 100, 94);
    assert ImpactTenths(LowestValues) == -330;
    RoundDivUnique(20800 + 8 * 330, 100, 234);
    RoundDivUnique(34000 + 15 * 330, 1000, 39);
    RoundDivUnique(8700 - 330, 100, 84);
  }

  /** Anywhere the sliders can reach, the clamps never bind: the projection is
      the rounded value itself, between the corner projections. */
  lemma ClampsInactiveOnSliders(v: SimulationValues)
    requires InSliderRange(v)
    ensures Simulate(v) == SimulatedMetrics(RoundedLeadTime(v), RoundedCycleTime(v), RoundedEfficiency(v))
    ensures 154 <= Simulate(v).leadTime <= 234
    ensures 24 <= Simulate(v).cycleTime <= 39
    ensures 84 <= Simulate(v).efficiency <= 94
  {
    CornerProjections();
    RoundedMonotone(LowestValues, v);
    RoundedMonotone(v, HighestValues);
  }

  // ---------------------------------------------------------------------------
  // Slider handlers
  // ---------------------------------------------------------------------------

  datatype Slider = TeamSize | Automation | Parallelization

  function SliderValue(v: SimulationValues, slider: Slider): int
  {
    match slider
    case TeamSize => v.teamSize
    case Automation => v.automation
    case Parallelization => v.parallelization
  }

  /** onValueChange of one slider: `{ ...simulationValues, <field>: value[0] }`,
      which sets that slider's field and keeps the other two. */
  function OnSliderChange(v: SimulationValues, slider: Slider, value: int): (r: SimulationValues)
    ensures SliderValue(r, slider) == value
    ensures forall other :: other != slider ==> SliderValue(r, other) == SliderValue(v, other)
  {
    match slider
    case TeamSize => v.(teamSize := value)
    case Automation => v.(automation := value)
    case Parallelization => v.(parallelization := value)
  }

  /** The three slider readings determine the record, so the ensures of
      OnSliderChange pin its result down completely. */
  lemma SliderValuesDetermine(a: SimulationValues, b: SimulationValues)
    requires forall s :: SliderValue(a, s) == SliderValue(b, s)
    ensures a == b
  {
    assert SliderValue(a, TeamSize) == SliderValue(b, TeamSize);
    assert SliderValue(a, Automation) == SliderValue(b, Automation);
    assert SliderValue(a, Parallelization) == SliderValue(b, Parallelization);
  }

  // ---------------------------------------------------------------------------
  // Badge colours
  // ---------------------------------------------------------------------------

  /** getImpactColor. */
  function ImpactColor(impact: Level): string
  {
    match impact
    case High => "text-green-500"
    case Medium => "text-blue-500"
    case Low => "text-gray-500"
  }

  /** getEffortColor. */
  function EffortColor(effort: Level): string
  {
    match effort
    case High => "destructive"
    case Medium => "default"
    case Low => "secondary"
  }

  /** Both maps give every level a colour of its own. */
  lemma ColorsDistinguishLevels(a: Level, b: Level)
    ensures ImpactColor(a) == ImpactColor(b) ==> a == b
    ensures EffortColor(a) == EffortColor(b) ==> a == b
  {
  }
}
