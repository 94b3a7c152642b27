/** The lake list, the water-temperature heuristic, the best-lake selection and the refresh gate of the page. */
module Selector {
  import opened Lures

  datatype Option<T> = None | Some(value: T)

  /** A fixed point the page asks the weather provider about. */
  datatype Lake = Lake(name: string, lat: real, lon: real)

  const LAKES: seq<Lake> := [
    Lake("Lake Winnebago", 44.0130, -88.5374),
    Lake("Lake Mendota", 43.1312, -89.4125),
    Lake("Lake Monona", 43.0726, -89.3800)
  ]

  /** The heuristic: water is this much colder than the air, but never colder than the floor. */
  const AIR_TO_WATER_OFFSET: real := 5.0
  const WATER_FLOOR: real := 40.0
  /** The water temperature the selection aims at. */
  const TARGET_WATER: real := 68.0

  /** The settled outcome of one lake's weather query: failed, or the air temperature and condition it reported. */
  datatype QueryOutcome = Rejected | Fulfilled(lake: Lake, airTemp: real, condition: string)

  /** The record the page displays for the chosen lake. */
  datatype Best = Best(name: string, air: real, water: real, cond: string, lure: string)

  /** The running minimum of the selection loop, which starts at infinity. */
  datatype Bound = Infinity | Finite(value: real)

  predicate Below(d: real, b: Bound) {
    b.Infinity? || d < b.value
  }

  /** Estimated water temperature: the larger of the floor and the air temperature minus the offset. */
  function WaterEstimate(air: real): (water: real)
    ensures water >= WATER_FLOOR
    ensures water >= air - AIR_TO_WATER_OFFSET
    ensures water == WATER_FLOOR || water == air - AIR_TO_WATER_OFFSET
  {
    if WATER_FLOOR < air - AIR_TO_WATER_OFFSET then air - AIR_TO_WATER_OFFSET else WATER_FLOOR
  }

  /** Distance of a water temperature from the target. */
  function Diff(water: real): (d: real)
    ensures d >= 0.0
    ensures d == water - TARGET_WATER || d == TARGET_WATER - water
    ensures d == 0.0 <==> water == TARGET_WATER
  {
    if water < TARGET_WATER then TARGET_WATER - water else water - TARGET_WATER
  }

  /** The score of a fulfilled outcome: how far its estimated water temperature is from the target. */
  function Score(o: QueryOutcome): real
    requires o.Fulfilled?
  {
    Diff(WaterEstimate(o.airTemp))
  }

  predicate NoneFulfilled(results: seq<QueryOutcome>) {
    forall i | 0 <= i < |results| :: !results[i].Fulfilled?
  }

  /**
   * Outcome `k` wins: it is fulfilled, no fulfilled outcome scores lower,
   * and every fulfilled outcome before it scores strictly higher (ties go to the earliest).
   */
  ghost predicate IsWinner(results: seq<QueryOutcome>, k: int) {
    0 <= k < |results| && results[k].Fulfilled? &&
    (forall j | 0 <= j < |results| && results[j].Fulfilled? :: Score(results[k]) <= Score(results[j])) &&
    (forall j | 0 <= j < k && results[j].Fulfilled? :: Score(results[k]) < Score(results[j]))
  }

  /** `b` is the record built from outcome `o`: its lake's name, its air, its estimate and the table's lure for that estimate. */
  ghost predicate Reports(b: Best, o: QueryOutcome) {
    o.Fulfilled? &&
    b.name == o.lake.name && b.air == o.airTemp && b.cond == o.condition &&
    b.water == WaterEstimate(o.airTemp) && b.lure == PickLureIn(LURES, b.water)
  }

  /** `b` is the record of the winning outcome of `results`. */
  ghost predicate IsSelection(results: seq<QueryOutcome>, b: Best) {
    exists k :: IsWinner(results, k) && Reports(b, results[k])
  }

  /**
   * The selection loop: keep the first fulfilled outcome with the strictly smallest score,
   * and report nothing when no outcome is fulfilled. The ghost `k` names the outcome kept.
   */
  method ComputeBest(results: seq<QueryOutcome>) returns (best: Option<Best>, ghost k: int)
    ensures best.None? <==> NoneFulfilled(results)
    ensures best.Some? ==> IsWinner(results, k) && Reports(best.value, results[k])
  {
    best := None;
    var bestDiff := Infinity;
    k := 0;
    for i := 0 to |results|
      invariant best.None? <==> bestDiff.Infinity?
      invariant best.None? <==> NoneFulfilled(results[..i])
      invariant best.Some? ==> IsWinner(results[..i], k) && k < i
      invariant best.Some? ==> Reports(best.value, results[k]) && bestDiff == Finite(Score(results[k]))
    {
      var r := results[i];
      if !r.Fulfilled? {
        continue;
      }
      var water := WaterEstimate(r.airTemp);
      var diff := Diff(water);
      if Below(diff, bestDiff) {
        bestDiff := Finite(diff);
        best := Some(Best(r.lake.name, r.airTemp, water, r.condition, PickLure(water)));
        k := i;
      }
    }
    assert results[..|results|] == results;
  }

  /** At most one outcome wins, so the contract of ComputeBest determines its result. */
  lemma WinnerUnique(results: seq<QueryOutcome>, k1: int, k2: int)
    requires IsWinner(results, k1) && IsWinner(results, k2)
    ensures k1 == k2
  {
  }

  /** Whenever some outcome is fulfilled, a winner exists. */
  lemma {:induction false} WinnerExists(results: seq<QueryOutcome>) returns (k: int)
    requires !NoneFulfilled(results)
    ensures IsWinner(results, k)
  {
    var n := |results|;
    var last := results[n - 1];
    var init := results[..n - 1];
    assert forall j | 0 <= j < n - 1 :: init[j] == results[j];
    if NoneFulfilled(init) {
      k := n - 1;
    } else {
      var k0 := WinnerExists(init);
      if last.Fulfilled? && Score(last) < Score(results[k0]) {
        k := n - 1;
      } else {
        k := k0;
      }
    }
  }

  /** A chosen record gets the fallback lure only when its water estimate is at least 90. */
  lemma SelectedFallbackOnlyWhenHot(b: Best, o: QueryOutcome)
    requires Reports(b, o)
    ensures b.water >= WATER_FLOOR
    ensures b.lure == FALLBACK_LURE <==> b.water >= 90.0
  {
    TableFallbackExactly(b.water);
  }

  /** The three lakes report 80, 75 and 60 degrees: waters 75, 70, 55, diffs 7, 2, 13; the second lake wins. */
  lemma ExampleSecondLakeWins()
    ensures IsWinner(ExampleOutcomes(), 1)
    ensures Reports(Best("Lake Mendota", 75.0, 70.0, "Clear", "Crankbait or spinnerbait"), ExampleOutcomes()[1])
  {
  }

  /** What the selection loop returns for the example: the second lake's record, from its contract alone. */
  method ExampleComputeBest() returns (best: Option<Best>)
    ensures best == Some(Best("Lake Mendota", 75.0, 70.0, "Clear", "Crankbait or spinnerbait"))
  {
    ghost var k;
    best, k := ComputeBest(ExampleOutcomes());
    ExampleSecondLakeWins();
    WinnerUnique(ExampleOutcomes(), k, 1);
  }

  function ExampleOutcomes(): seq<QueryOutcome> {
    [Fulfilled(LAKES[0], 80.0, "Clouds"), Fulfilled(LAKES[1], 75.0, "Clear"), Fulfilled(LAKES[2], 60.0, "Rain")]
  }

  /** Air 10 gives water 40, not 5; air 70 gives water 65 and a crankbait. */
  lemma ExampleEstimates()
    ensures WaterEstimate(10.0) == 40.0
    ensures WaterEstimate(70.0) == 65.0 && PickLure(WaterEstimate(70.0)) == "Crankbait or spinnerbait"
  {
  }

  /** A failed outcome never wins, wherever it stands. */
  lemma RejectedNeverWins(results: seq<QueryOutcome>, k: int)
    requires 0 <= k < |results| && results[k].Rejected?
    ensures !IsWinner(results, k)
  {
  }

  /** The outcomes are those of one query per entry of LAKES, in that order. */
  ghost predicate ForLakes(results: seq<QueryOutcome>) {
    |results| == |LAKES| &&
    forall i | 0 <= i < |results| && results[i].Fulfilled? :: results[i].lake == LAKES[i]
  }

  const KEY_PROMPT: string := "Enter your OpenWeather API key above and press Save."
  const BEST_SPOT_PREFIX: string := "Best Spot: "

  /**
   * The display: the spot line, which carries messages as well as the chosen lake,
   * and the record whose other fields the page shows.
   */
  class Page {
    var spot: string
    var report: Option<Best>

    constructor ()
      ensures spot == "" && report == None
    {
      spot := "";
      report := None;
    }

    /** Show a chosen record. */
    method Show(best: Best)
      modifies this
      ensures spot == BEST_SPOT_PREFIX + best.name && report == Some(best)
    {
      spot := BEST_SPOT_PREFIX + best.name;
      report := Some(best);
    }

    /**
     * One refresh. `stored` is the key in browser storage; with no key (or an empty one) nothing is
     * queried and the prompt is shown. Otherwise every lake is queried, `results` being their settled
     * outcomes, and the chosen record, if any, is shown; with no record the display stays as it was.
     * `queries` only records whether the weather queries were issued: none, or one per lake.
     */
    method Update(stored: Option<string>, results: seq<QueryOutcome>) returns (queries: nat)
      requires (stored.Some? && stored.value != "") ==> ForLakes(results)
      modifies this
      ensures (stored.None? || stored.value == "") ==>
        queries == 0 && spot == KEY_PROMPT && report == old(report)
      ensures (stored.Some? && stored.value != "") ==> queries == |LAKES|
      ensures (stored.Some? && stored.value != "" && NoneFulfilled(results)) ==>
        spot == old(spot) && report == old(report)
      ensures (stored.Some? && stored.value != "" && !NoneFulfilled(results)) ==>
        report.Some? && spot == BEST_SPOT_PREFIX + report.value.name && IsSelection(results, report.value)
    {
      var key := if stored.Some? then stored.value else "";
      if key == "" {
        spot := KEY_PROMPT;
        return 0;
      }
      queries := |LAKES|;
      var best, k := ComputeBest(results);
      if best.Some? {
        Show(best.value);
      }
    }
  }
}
