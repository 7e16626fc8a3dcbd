/** The statistics of src/components/WorkoutSummary.tsx, shown when a
    workout is finished: total moved weight, how many sets beat last week's
    best, by how much volume in all, the average strength increase, and how
    many exercises are completed. Rounding for display is not modelled. */
module WorkoutStatistics {
  import opened Sequences

  datatype Option<T> = None | Some(value: T)

  datatype WorkoutSet = WorkoutSet(weight: real, reps: real)

  /** The fields of an exercise that the statistics read. */
  datatype WorkoutExercise = WorkoutExercise(
    name: string,
    sets: seq<WorkoutSet>,
    completed: bool,
    previousWeekBest: Option<WorkoutSet>)

  /** A JavaScript number that is either finite or `Infinity`; dividing by a
      previous best of zero volume gives `Infinity`. */
  datatype Percentage = Finite(value: real) | PosInfinity

  datatype Stats = Stats(
    totalVolumeIncrease: real,
    improvementCount: nat,
    totalWeight: real,
    strengthPercentage: Percentage)

  function Volume(s: WorkoutSet): real {
    s.weight * s.reps
  }

  /** Only sets with positive weight and positive reps count. */
  predicate Counts(s: WorkoutSet) {
    s.weight > 0.0 && s.reps > 0.0
  }

  /** The volume by which a counting set beats last week's best, if it does. */
  predicate Improves(s: WorkoutSet, previous: Option<WorkoutSet>) {
    Counts(s) && previous.Some? && Volume(s) - Volume(previous.value) > 0.0
  }

  // ---------------------------------------------------------------------
  // The accumulated sums, over the sets of one exercise and over all

  function SetsWeight(sets: seq<WorkoutSet>): real {
    if sets == [] then 0.0
    else
      var s := sets[|sets| - 1];
      SetsWeight(sets[..|sets| - 1]) + (if Counts(s) then Volume(s) else 0.0)
  }

  function SetsImproved(sets: seq<WorkoutSet>, previous: Option<WorkoutSet>): nat {
    if sets == [] then 0
    else SetsImproved(sets[..|sets| - 1], previous) + (if Improves(sets[|sets| - 1], previous) then 1 else 0)
  }

  function SetsGain(sets: seq<WorkoutSet>, previous: Option<WorkoutSet>): real {
    if sets == [] then 0.0
    else
      var s := sets[|sets| - 1];
      SetsGain(sets[..|sets| - 1], previous)
        + (if Improves(s, previous) then Volume(s) - Volume(previous.value) else 0.0)
  }

  function SetsCounting(sets: seq<WorkoutSet>): nat {
    if sets == [] then 0
    else SetsCounting(sets[..|sets| - 1]) + (if Counts(sets[|sets| - 1]) then 1 else 0)
  }

  /** Sum of `weight × reps` over every counting set of every exercise. */
  function TotalWeight(exercises: seq<WorkoutExercise>): real {
    if exercises == [] then 0.0
    else TotalWeight(exercises[..|exercises| - 1]) + SetsWeight(exercises[|exercises| - 1].sets)
  }

  /** The number of sets that beat their exercise's previous best. */
  function ImprovementCount(exercises: seq<WorkoutExercise>): nat {
    if exercises == [] then 0
    else
      var e := exercises[|exercises| - 1];
      ImprovementCount(exercises[..|exercises| - 1]) + SetsImproved(e.sets, e.previousWeekBest)
  }

  /** The sum of the positive volume differences of those sets. */
  function TotalVolumeIncrease(exercises: seq<WorkoutExercise>): real {
    if exercises == [] then 0.0
    else
      var e := exercises[|exercises| - 1];
      TotalVolumeIncrease(exercises[..|exercises| - 1]) + SetsGain(e.sets, e.previousWeekBest)
  }

  /** The number of counting sets over all exercises. */
  function CountingSets(exercises: seq<WorkoutExercise>): nat {
    if exercises == [] then 0
    else CountingSets(exercises[..|exercises| - 1]) + SetsCounting(exercises[|exercises| - 1].sets)
  }

  // ---------------------------------------------------------------------
  // Best set and strength percentage

  /** The seed of the best-set `reduce`. */
  const NoSet := WorkoutSet(0.0, 0.0)

  /** The best-set `reduce`: keeps the running best and replaces it only by
      a set of strictly greater volume. */
  function BestSet(sets: seq<WorkoutSet>): WorkoutSet {
    if sets == [] then NoSet
    else
      var sofar := BestSet(sets[..|sets| - 1]);
      var current := sets[|sets| - 1];
      if Volume(current) > Volume(sofar) then current else sofar
  }

  /** The best set has the greatest volume of all sets, and at least the
      seed's volume 0. */
  lemma {:induction false} BestSetIsMaximal(sets: seq<WorkoutSet>)
    ensures forall s :: s in sets ==> Volume(s) <= Volume(BestSet(sets))
    ensures Volume(BestSet(sets)) >= 0.0
  {
    if sets != [] {
      var init := sets[..|sets| - 1];
      assert sets == init + [sets[|sets| - 1]];
      BestSetIsMaximal(init);
    }
  }

  /** Unless it is the seed, the best set is a set of positive volume and
      every earlier set has strictly less: it is the earliest set of the
      greatest volume. */
  lemma {:induction false} BestSetIsEarliest(sets: seq<WorkoutSet>)
    ensures BestSet(sets) == NoSet || exists i :: (0 <= i < |sets| && sets[i] == BestSet(sets) && Volume(sets[i]) > 0.0 &&
                                                    forall j :: 0 <= j < i ==> Volume(sets[j]) < Volume(sets[i]))
  {
    if sets != [] {
      var init := sets[..|sets| - 1];
      var current := sets[|sets| - 1];
      BestSetIsEarliest(init);
      BestSetIsMaximal(init);
      var sofar := BestSet(init);
      if Volume(current) > Volume(sofar) {
        forall j | 0 <= j < |init| ensures Volume(sets[j]) < Volume(current) {
          assert sets[j] == init[j];
          assert init[j] in init;
        }
      } else if sofar != NoSet {
        var i :| 0 <= i < |init| && init[i] == sofar && Volume(init[i]) > 0.0 &&
                 forall j :: 0 <= j < i ==> Volume(init[j]) < Volume(init[i]);
        assert sets[i] == init[i];
        assert forall j :: 0 <= j < i ==> sets[j] == init[j];
      }
    }
  }

  /** The reduce returns its seed exactly when no set has positive volume. */
  lemma BestSetIsSeed(sets: seq<WorkoutSet>)
    ensures (forall s :: s in sets ==> Volume(s) <= 0.0) <==> BestSet(sets) == NoSet
  {
    BestSetIsMaximal(sets);
    BestSetIsEarliest(sets);
    if BestSet(sets) != NoSet {
      var i :| 0 <= i < |sets| && sets[i] == BestSet(sets) && Volume(sets[i]) > 0.0 &&
               forall j :: 0 <= j < i ==> Volume(sets[j]) < Volume(sets[i]);
      assert sets[i] in sets;
    }
  }

  predicate HasPrevious(e: WorkoutExercise) {
    e.previousWeekBest.Some?
  }

  /** The product `weight * reps` of a JavaScript number is a negative zero
      when one factor is zero and the other negative. */
  predicate IsNegativeZero(s: WorkoutSet) {
    Volume(s) == 0.0 && (s.weight < 0.0 || s.reps < 0.0)
  }

  /** What an exercise with a previous best adds to the percentage total:
      the relative volume increase of its best set, in percent, at least 0;
      nothing when its best set has no positive weight. A zero previous
      volume divides a positive current volume by zero: `Infinity` for
      `+0`, and `-Infinity`, clamped to 0 by `Math.max`, for `-0`. */
  function StrengthIncrease(e: WorkoutExercise): Percentage
    requires HasPrevious(e)
  {
    var best := BestSet(e.sets);
    if best.weight > 0.0 then
      var currentVolume := Volume(best);
      var previousVolume := Volume(e.previousWeekBest.value);
      if previousVolume == 0.0 then
        if IsNegativeZero(e.previousWeekBest.value) then Finite(0.0) else PosInfinity
      else
        var increase := PercentChange(currentVolume, previousVolume);
        Finite(if increase > 0.0 then increase else 0.0)
    else Finite(0.0)
  }

  /** An exercise's contribution is never negative; it is infinite exactly
      when its best set has positive weight while last week's best had a
      volume of `+0`; and it is 0 when no set of this week has positive
      volume. A best set of positive weight has positive volume, so the
      division never computes `0 / 0`. */
  lemma StrengthIncreaseBounds(e: WorkoutExercise)
    requires HasPrevious(e)
    ensures StrengthIncrease(e).Finite? ==> StrengthIncrease(e).value >= 0.0
    ensures StrengthIncrease(e) == PosInfinity <==>
      BestSet(e.sets).weight > 0.0 && Volume(e.previousWeekBest.value) == 0.0 &&
      !IsNegativeZero(e.previousWeekBest.value)
    ensures BestSet(e.sets).weight > 0.0 ==> Volume(BestSet(e.sets)) > 0.0
    ensures (forall s :: s in e.sets ==> Volume(s) <= 0.0) ==> StrengthIncrease(e) == Finite(0.0)
  {
    BestSetIsSeed(e.sets);
    BestSetIsEarliest(e.sets);
  }

  /** Last week's best of weight 0 and negative reps has volume `-0`, so a
      positive volume this week adds 0, not `Infinity`. */
  lemma NegativeZeroPreviousAddsNothing()
    ensures StrengthIncrease(WorkoutExercise("x", [WorkoutSet(10.0, 5.0)], false, Some(WorkoutSet(0.0, -1.0)))) == Finite(0.0)
    ensures StrengthIncrease(WorkoutExercise("x", [WorkoutSet(10.0, 5.0)], false, Some(WorkoutSet(0.0, 1.0)))) == PosInfinity
  {
    var sets := [WorkoutSet(10.0, 5.0)];
    assert sets[..0] == [];
  }

  /** `(current - previous) / previous * 100`. */
  function PercentChange(current: real, previous: real): real
    requires previous != 0.0
  {
    (current - previous) / previous * 100.0
  }

  function Plus(a: Percentage, b: Percentage): Percentage {
    if a.Finite? && b.Finite? then Finite(a.value + b.value) else PosInfinity
  }

  function WithPreviousFilter(): WorkoutExercise -> bool {
    (e: WorkoutExercise) => HasPrevious(e)
  }

  /** The sum of the strength increases of a list of exercises that all
      have a previous best. */
  function IncreaseTotal(withPrevious: seq<WorkoutExercise>): (p: Percentage)
    requires forall e :: e in withPrevious ==> HasPrevious(e)
  {
    if withPrevious == [] then Finite(0.0)
    else
      var init := withPrevious[..|withPrevious| - 1];
      assert forall e :: e in init ==> e in withPrevious;
      Plus(IncreaseTotal(init), StrengthIncrease(withPrevious[|withPrevious| - 1]))
  }

  /** `total / count` on a JavaScript number. */
  function Average(total: Percentage, count: nat): Percentage
    requires count > 0
  {
    if total.Finite? then Finite(total.value / count as real) else PosInfinity
  }

  /** The average strength increase over the exercises with a previous
      best; 0 when there are none. */
  function StrengthPercentage(exercises: seq<WorkoutExercise>): Percentage {
    var withPrevious := Filter(exercises, WithPreviousFilter());
    if |withPrevious| > 0 then
      Average(IncreaseTotal(withPrevious), |withPrevious|)
    else Finite(0.0)
  }

  // ---------------------------------------------------------------------
  // The imperative procedure

  /** The inner `forEach` of `calculateStats` over one exercise's sets,
      adding to the three running sums. */
  method AccumulateSets(exercise: WorkoutExercise, weight0: real, count0: nat, gain0: real)
    returns (totalWeight: real, improvementCount: nat, totalVolumeIncrease: real)
    ensures totalWeight == weight0 + SetsWeight(exercise.sets)
    ensures improvementCount == count0 + SetsImproved(exercise.sets, exercise.previousWeekBest)
    ensures totalVolumeIncrease == gain0 + SetsGain(exercise.sets, exercise.previousWeekBest)
  {
    totalWeight, improvementCount, totalVolumeIncrease := weight0, count0, gain0;
    var j := 0;
    while j < |exercise.sets|
      invariant 0 <= j <= |exercise.sets|
      invariant totalWeight == weight0 + SetsWeight(exercise.sets[..j])
      invariant improvementCount == count0 + SetsImproved(exercise.sets[..j], exercise.previousWeekBest)
      invariant totalVolumeIncrease == gain0 + SetsGain(exercise.sets[..j], exercise.previousWeekBest)
    {
      var s := exercise.sets[j];
      if s.weight > 0.0 && s.reps > 0.0 {
        totalWeight := totalWeight + Volume(s);
        if exercise.previousWeekBest.Some? {
          var currentVolume := Volume(s);
          var previousVolume := Volume(exercise.previousWeekBest.value);
          var volumeIncrease := currentVolume - previousVolume;
          if volumeIncrease > 0.0 {
            totalVolumeIncrease := totalVolumeIncrease + volumeIncrease;
            improvementCount := improvementCount + 1;
          }
        }
      }
      assert exercise.sets[..j + 1][..j] == exercise.sets[..j];
      j := j + 1;
    }
    assert exercise.sets[..j] == exercise.sets;
  }

  /** The loop summing the strength increases of the exercises that have a
      previous best. */
  method SumIncreases(withPrevious: seq<WorkoutExercise>) returns (total: Percentage)
    requires forall e :: e in withPrevious ==> HasPrevious(e)
    ensures total == IncreaseTotal(withPrevious)
  {
    total := Finite(0.0);
    var k := 0;
    while k < |withPrevious|
      invariant 0 <= k <= |withPrevious|
      invariant total == IncreaseTotal(withPrevious[..k])
    {
      assert withPrevious[..k + 1][..k] == withPrevious[..k];
      assert IncreaseTotal(withPrevious[..k + 1]) ==
        Plus(IncreaseTotal(withPrevious[..k]), StrengthIncrease(withPrevious[k]));
      total := Plus(total, StrengthIncrease(withPrevious[k]));
      k := k + 1;
    }
    assert withPrevious[..k] == withPrevious;
  }

  /** `calculateStats`, before rounding. */
  method CalculateStats(exercises: seq<WorkoutExercise>) returns (stats: Stats)
    ensures stats.totalWeight == TotalWeight(exercises)
    ensures stats.improvementCount == ImprovementCount(exercises)
    ensures stats.totalVolumeIncrease == TotalVolumeIncrease(exercises)
    ensures stats.strengthPercentage == StrengthPercentage(exercises)
  {
    var totalVolumeIncrease := 0.0;
    var improvementCount := 0;
    var totalWeight := 0.0;
    var strengthPercentage := Finite(0.0);

    var i := 0;
    while i < |exercises|
      invariant 0 <= i <= |exercises|
      invariant totalWeight == TotalWeight(exercises[..i])
      invariant improvementCount == ImprovementCount(exercises[..i])
      invariant totalVolumeIncrease == TotalVolumeIncrease(exercises[..i])
    {
      totalWeight, improvementCount, totalVolumeIncrease :=
        AccumulateSets(exercises[i], totalWeight, improvementCount, totalVolumeIncrease);
      assert exercises[..i + 1][..i] == exercises[..i];
      i := i + 1;
    }
    assert exercises[..i] == exercises;

    var exercisesWithPrevious := Filter(exercises, WithPreviousFilter());
    if |exercisesWithPrevious| > 0 {
      var totalPercentageIncrease := SumIncreases(exercisesWithPrevious);
      strengthPercentage := Average(totalPercentageIncrease, |exercisesWithPrevious|);
    }

    stats := Stats(totalVolumeIncrease, improvementCount, totalWeight, strengthPercentage);
  }

  function IsCompleted(): WorkoutExercise -> bool {
    (e: WorkoutExercise) => e.completed
  }

  /** `exercises.filter(e => e.completed).length`. */
  function CompletedExercises(exercises: seq<WorkoutExercise>): (n: nat)
    ensures n <= |exercises|
    ensures n == |exercises| <==> forall e :: e in exercises ==> e.completed
    ensures n == 0 <==> forall e :: e in exercises ==> !e.completed
  {
    var done := Filter(exercises, IsCompleted());
    assert done != [] ==> done[0] in done;
    |done|
  }

  // ---------------------------------------------------------------------
  // Properties of the statistics

  lemma {:induction false} SetsWeightNonNegative(sets: seq<WorkoutSet>)
    ensures SetsWeight(sets) >= 0.0
  {
    if sets != [] {
      SetsWeightNonNegative(sets[..|sets| - 1]);
      var s := sets[|sets| - 1];
      if Counts(s) {
        assert s.weight * s.reps > 0.0;
      }
    }
  }

  /** Total moved weight is never negative: only sets with positive weight
      and reps add to it. */
  lemma {:induction false} TotalWeightNonNegative(exercises: seq<WorkoutExercise>)
    ensures TotalWeight(exercises) >= 0.0
  {
    if exercises != [] {
      TotalWeightNonNegative(exercises[..|exercises| - 1]);
      SetsWeightNonNegative(exercises[|exercises| - 1].sets);
    }
  }

  lemma {:induction false} SetsGainMatchesImproved(sets: seq<WorkoutSet>, previous: Option<WorkoutSet>)
    ensures SetsGain(sets, previous) >= 0.0
    ensures SetsGain(sets, previous) > 0.0 <==> SetsImproved(sets, previous) > 0
    ensures SetsImproved(sets, previous) <= SetsCounting(sets)
    ensures previous.None? ==> SetsImproved(sets, previous) == 0
  {
    if sets != [] {
      SetsGainMatchesImproved(sets[..|sets| - 1], previous);
    }
  }

  /** The volume increase only sums positive differences, so it is never
      negative; it is positive exactly when some set improved; and the
      improved sets are among the sets that count toward the total weight. */
  lemma {:induction false} ImprovementsAreGains(exercises: seq<WorkoutExercise>)
    ensures TotalVolumeIncrease(exercises) >= 0.0
    ensures TotalVolumeIncrease(exercises) > 0.0 <==> ImprovementCount(exercises) > 0
    ensures ImprovementCount(exercises) <= CountingSets(exercises)
  {
    if exercises != [] {
      ImprovementsAreGains(exercises[..|exercises| - 1]);
      var e := exercises[|exercises| - 1];
      SetsGainMatchesImproved(e.sets, e.previousWeekBest);
    }
  }

  /** Without any previous best nothing counts as an improvement and the
      strength percentage stays 0. */
  lemma {:induction false} NoPreviousNoImprovement(exercises: seq<WorkoutExercise>)
    requires forall e :: e in exercises ==> !HasPrevious(e)
    ensures ImprovementCount(exercises) == 0
    ensures TotalVolumeIncrease(exercises) == 0.0
    ensures StrengthPercentage(exercises) == Finite(0.0)
  {
    if exercises != [] {
      var init := exercises[..|exercises| - 1];
      var e := exercises[|exercises| - 1];
      assert forall x :: x in init ==> x in exercises;
      NoPreviousNoImprovement(init);
      SetsGainMatchesImproved(e.sets, e.previousWeekBest);
    }
    FilterKeepsNone(exercises, WithPreviousFilter());
  }

  lemma {:induction false} IncreaseTotalNonNegative(withPrevious: seq<WorkoutExercise>)
    requires forall e :: e in withPrevious ==> HasPrevious(e)
    ensures IncreaseTotal(withPrevious).Finite? ==> IncreaseTotal(withPrevious).value >= 0.0
  {
    if withPrevious != [] {
      var init := withPrevious[..|withPrevious| - 1];
      assert forall e :: e in init ==> e in withPrevious;
      IncreaseTotalNonNegative(init);
      StrengthIncreaseBounds(withPrevious[|withPrevious| - 1]);
    }
  }

  /** Each exercise's contribution is clamped at 0, so the average strength
      increase is never negative. */
  lemma StrengthPercentageNonNegative(exercises: seq<WorkoutExercise>)
    ensures StrengthPercentage(exercises).Finite? ==> StrengthPercentage(exercises).value >= 0.0
  {
    var withPrevious := Filter(exercises, WithPreviousFilter());
    IncreaseTotalNonNegative(withPrevious);
    var total := IncreaseTotal(withPrevious);
    if |withPrevious| > 0 && total.Finite? {
      QuotientNonNegative(total.value, |withPrevious| as real);
    }
  }

  lemma QuotientNonNegative(a: real, b: real)
    requires a >= 0.0 && b > 0.0
    ensures a / b >= 0.0
  {
  }
}
