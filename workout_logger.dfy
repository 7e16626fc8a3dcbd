/** The workout log editor of src/components/WorkoutLogger.tsx: a list of
    exercises, each with a list of sets, and the name typed for the next
    exercise. Every handler replaces the list with a value computed by a
    `map` or `filter` over it; those computations are the functions below,
    and the class holds the component's state. */
module WorkoutLogging {
  import opened Sequences

  /** Repetitions and weight of one set (JavaScript numbers). */
  datatype WorkoutSet = WorkoutSet(reps: real, weight: real)

  /** The set every new exercise starts with and `addSet` appends. */
  const ZeroSet := WorkoutSet(0.0, 0.0)

  datatype Exercise = Exercise(id: string, name: string, sets: seq<WorkoutSet>)

  /** The field an `updateSet` call writes: 'reps' or 'weight'. */
  datatype SetField = Reps | Weight

  /** The characters that JavaScript's `String.prototype.trim` removes:
      white space and line terminators. */
  predicate IsWhitespace(c: char) {
    var n := c as int;
    n == 0x09 || n == 0x0A || n == 0x0B || n == 0x0C || n == 0x0D || n == 0x20 ||
    n == 0xA0 || n == 0x1680 || (0x2000 <= n <= 0x200A) || n == 0x2028 || n == 0x2029 ||
    n == 0x202F || n == 0x205F || n == 0x3000 || n == 0xFEFF
  }

  /** `!s.trim()`: nothing is left once white space is trimmed. */
  predicate IsBlank(s: string) {
    forall i :: 0 <= i < |s| ==> IsWhitespace(s[i])
  }

  /** What the editor keeps true: every exercise has at least one set. */
  ghost predicate EveryExerciseHasASet(exercises: seq<Exercise>) {
    forall i :: 0 <= i < |exercises| ==> |exercises[i].sets| > 0
  }

  /** The exercise a new name produces. */
  function NewExercise(id: string, name: string): (e: Exercise)
    ensures e.id == id && e.name == name && e.sets == [ZeroSet]
  {
    Exercise(id, name, [ZeroSet])
  }

  /** `addSet`: one zero set appended to every exercise with the id. */
  function AddSetTo(exercises: seq<Exercise>, exerciseId: string): (r: seq<Exercise>)
    ensures |r| == |exercises|
    ensures forall i :: 0 <= i < |exercises| ==>
      if exercises[i].id == exerciseId
      then r[i].id == exercises[i].id && r[i].name == exercises[i].name &&
           r[i].sets == exercises[i].sets + [ZeroSet]
      else r[i] == exercises[i]
  {
    if exercises == [] then []
    else
      var e := exercises[0];
      [if e.id == exerciseId then e.(sets := e.sets + [ZeroSet]) else e]
        + AddSetTo(exercises[1..], exerciseId)
  }

  /** `{ ...set, [field]: value }`. */
  function WithField(s: WorkoutSet, field: SetField, value: real): (r: WorkoutSet)
    ensures field == Reps ==> r.reps == value && r.weight == s.weight
    ensures field == Weight ==> r.weight == value && r.reps == s.reps
  {
    match field
    case Reps => s.(reps := value)
    case Weight => s.(weight := value)
  }

  /** The inner `map` of `updateSet`: the set at `setIndex` gets the value. */
  function UpdateAt(sets: seq<WorkoutSet>, setIndex: int, field: SetField, value: real): (r: seq<WorkoutSet>)
    ensures |r| == |sets|
    ensures forall k :: 0 <= k < |sets| ==>
      r[k] == if k == setIndex then WithField(sets[k], field, value) else sets[k]
    decreases |sets|
  {
    if sets == [] then []
    else
      [if setIndex == 0 then WithField(sets[0], field, value) else sets[0]]
        + UpdateAt(sets[1..], setIndex - 1, field, value)
  }

  /** `updateSet`: in every exercise with the id, the set at `setIndex`
      gets `value` in `field`. */
  function UpdateSetIn(exercises: seq<Exercise>, exerciseId: string, setIndex: int, field: SetField, value: real)
    : (r: seq<Exercise>)
    ensures |r| == |exercises|
    ensures forall i :: 0 <= i < |exercises| ==>
      if exercises[i].id == exerciseId
      then r[i].id == exercises[i].id && r[i].name == exercises[i].name &&
           r[i].sets == UpdateAt(exercises[i].sets, setIndex, field, value)
      else r[i] == exercises[i]
  {
    if exercises == [] then []
    else
      var e := exercises[0];
      [if e.id == exerciseId then e.(sets := UpdateAt(e.sets, setIndex, field, value)) else e]
        + UpdateSetIn(exercises[1..], exerciseId, setIndex, field, value)
  }

  /** The inner `filter` of `removeSet`: every set whose index is not
      `setIndex`, in order. */
  function DropIndex(sets: seq<WorkoutSet>, setIndex: int): (r: seq<WorkoutSet>)
    ensures 0 <= setIndex < |sets| ==> r == sets[..setIndex] + sets[setIndex + 1..]
    ensures !(0 <= setIndex < |sets|) ==> r == sets
    decreases |sets|
  {
    if sets == [] then []
    else
      (if setIndex == 0 then [] else [sets[0]]) + DropIndex(sets[1..], setIndex - 1)
  }

  /** `removeSet`: the set at `setIndex` dropped from every exercise with the id. */
  function RemoveSetFrom(exercises: seq<Exercise>, exerciseId: string, setIndex: int): (r: seq<Exercise>)
    ensures |r| == |exercises|
    ensures forall i :: 0 <= i < |exercises| ==>
      if exercises[i].id == exerciseId
      then r[i].id == exercises[i].id && r[i].name == exercises[i].name &&
           r[i].sets == DropIndex(exercises[i].sets, setIndex)
      else r[i] == exercises[i]
  {
    if exercises == [] then []
    else
      var e := exercises[0];
      [if e.id == exerciseId then e.(sets := DropIndex(e.sets, setIndex)) else e]
        + RemoveSetFrom(exercises[1..], exerciseId, setIndex)
  }

  /** The `filter` predicate of `removeExercise`. */
  function IdIsNot(exerciseId: string): Exercise -> bool {
    (e: Exercise) => e.id != exerciseId
  }

  /** `removeExercise`: every exercise with the id dropped. */
  function RemoveExerciseFrom(exercises: seq<Exercise>, exerciseId: string): (r: seq<Exercise>)
    ensures forall e :: e in r <==> e in exercises && e.id != exerciseId
    ensures |r| <= |exercises|
  {
    Filter(exercises, IdIsNot(exerciseId))
  }

  // ---------------------------------------------------------------------
  // Properties of the list operations

  /** An index outside the set list changes nothing. */
  lemma UpdateOutOfRangeChangesNothing(exercises: seq<Exercise>, exerciseId: string, setIndex: int,
                                       field: SetField, value: real)
    requires forall i :: 0 <= i < |exercises| && exercises[i].id == exerciseId ==>
      !(0 <= setIndex < |exercises[i].sets|)
    ensures UpdateSetIn(exercises, exerciseId, setIndex, field, value) == exercises
  {
    var r := UpdateSetIn(exercises, exerciseId, setIndex, field, value);
    forall i | 0 <= i < |exercises|
      ensures r[i] == exercises[i]
    {
      if exercises[i].id == exerciseId {
        assert UpdateAt(exercises[i].sets, setIndex, field, value) == exercises[i].sets;
      }
    }
  }

  /** Removing the sets at an index nobody has changes nothing. */
  lemma RemoveOutOfRangeChangesNothing(exercises: seq<Exercise>, exerciseId: string, setIndex: int)
    requires forall i :: 0 <= i < |exercises| && exercises[i].id == exerciseId ==>
      !(0 <= setIndex < |exercises[i].sets|)
    ensures RemoveSetFrom(exercises, exerciseId, setIndex) == exercises
  {
    var r := RemoveSetFrom(exercises, exerciseId, setIndex);
    assert forall i :: 0 <= i < |exercises| ==> r[i] == exercises[i];
  }

  /** `removeExercise` keeps the other exercises in their order: it
      distributes over any split of the list, and keeps or drops each
      exercise according to its id alone. */
  lemma RemoveExerciseKeepsOrder(a: seq<Exercise>, b: seq<Exercise>, e: Exercise, exerciseId: string)
    ensures RemoveExerciseFrom(a + b, exerciseId) == RemoveExerciseFrom(a, exerciseId) + RemoveExerciseFrom(b, exerciseId)
    ensures RemoveExerciseFrom([e], exerciseId) == if e.id == exerciseId then [] else [e]
  {
    FilterAppend(a, b, IdIsNot(exerciseId));
    FilterSingleton(e, IdIsNot(exerciseId));
  }

  /** Removing an id nobody has changes nothing. */
  lemma RemoveAbsentExercise(exercises: seq<Exercise>, exerciseId: string)
    requires forall e :: e in exercises ==> e.id != exerciseId
    ensures RemoveExerciseFrom(exercises, exerciseId) == exercises
  {
    FilterKeepsAll(exercises, IdIsNot(exerciseId));
  }

  lemma AddSetKeepsASet(exercises: seq<Exercise>, exerciseId: string)
    requires EveryExerciseHasASet(exercises)
    ensures EveryExerciseHasASet(AddSetTo(exercises, exerciseId))
  {
  }

  lemma UpdateSetKeepsASet(exercises: seq<Exercise>, exerciseId: string, setIndex: int, field: SetField, value: real)
    requires EveryExerciseHasASet(exercises)
    ensures EveryExerciseHasASet(UpdateSetIn(exercises, exerciseId, setIndex, field, value))
  {
  }

  lemma RemoveExerciseKeepsASet(exercises: seq<Exercise>, exerciseId: string)
    requires EveryExerciseHasASet(exercises)
    ensures EveryExerciseHasASet(RemoveExerciseFrom(exercises, exerciseId))
  {
    var r := RemoveExerciseFrom(exercises, exerciseId);
    forall i | 0 <= i < |r| ensures |r[i].sets| > 0 {
      assert r[i] in exercises;
    }
  }

  /** `removeSet` keeps a set in every exercise as long as each exercise it
      applies to has more than one set, which is when the button is shown. */
  lemma RemoveSetKeepsASet(exercises: seq<Exercise>, exerciseId: string, setIndex: int)
    requires EveryExerciseHasASet(exercises)
    requires forall i :: 0 <= i < |exercises| && exercises[i].id == exerciseId ==> |exercises[i].sets| > 1
    ensures EveryExerciseHasASet(RemoveSetFrom(exercises, exerciseId, setIndex))
  {
  }

  /** When ids are unique, the button shown for an exercise with more than
      one set meets the condition above. */
  lemma RemoveSetButtonIsSafe(exercises: seq<Exercise>, p: nat, setIndex: int)
    requires p < |exercises| && |exercises[p].sets| > 1
    requires forall i, j :: 0 <= i < j < |exercises| ==> exercises[i].id != exercises[j].id
    ensures forall i :: 0 <= i < |exercises| && exercises[i].id == exercises[p].id ==> |exercises[i].sets| > 1
  {
  }

  /** The editor component: its list of exercises and its name input. */
  class WorkoutLogger {
    var exercises: seq<Exercise>
    var newExerciseName: string

    ghost predicate Valid()
      reads this
    {
      EveryExerciseHasASet(exercises)
    }

    /** The initial state: one squat exercise with one empty set. */
    constructor ()
      ensures Valid()
      ensures exercises == [Exercise("1", "Guggolás", [ZeroSet])]
      ensures newExerciseName == ""
    {
      exercises := [Exercise("1", "Guggolás", [ZeroSet])];
      newExerciseName := "";
    }

    /** The name input's `onChange`. */
    method SetNewExerciseName(name: string)
      modifies this
      ensures newExerciseName == name && exercises == old(exercises)
    {
      newExerciseName := name;
    }

    /** `addExercise`; `id` stands for `Date.now().toString()`. A blank name
        changes nothing; otherwise the exercise, named exactly as typed,
        goes to the end and the input is cleared. */
    method AddExercise(id: string)
      modifies this
      ensures IsBlank(old(newExerciseName)) ==>
        exercises == old(exercises) && newExerciseName == old(newExerciseName)
      ensures !IsBlank(old(newExerciseName)) ==>
        exercises == old(exercises) + [NewExercise(id, old(newExerciseName))] && newExerciseName == ""
      ensures old(Valid()) ==> Valid()
    {
      if IsBlank(newExerciseName) {
        return;
      }
      var newExercise := NewExercise(id, newExerciseName);
      exercises := exercises + [newExercise];
      newExerciseName := "";
    }

    method AddSet(exerciseId: string)
      modifies this
      ensures exercises == AddSetTo(old(exercises), exerciseId)
      ensures newExerciseName == old(newExerciseName)
      ensures old(Valid()) ==> Valid()
    {
      exercises := AddSetTo(exercises, exerciseId);
    }

    method UpdateSet(exerciseId: string, setIndex: int, field: SetField, value: real)
      modifies this
      ensures exercises == UpdateSetIn(old(exercises), exerciseId, setIndex, field, value)
      ensures newExerciseName == old(newExerciseName)
      ensures old(Valid()) ==> Valid()
    {
      exercises := UpdateSetIn(exercises, exerciseId, setIndex, field, value);
    }

    method RemoveSet(exerciseId: string, setIndex: int)
      modifies this
      ensures exercises == RemoveSetFrom(old(exercises), exerciseId, setIndex)
      ensures newExerciseName == old(newExerciseName)
      ensures old(Valid()) &&
        (forall i :: 0 <= i < |old(exercises)| && old(exercises)[i].id == exerciseId ==>
           |old(exercises)[i].sets| > 1)
        ==> Valid()
    {
      exercises := RemoveSetFrom(exercises, exerciseId, setIndex);
    }

    method RemoveExercise(exerciseId: string)
      modifies this
      ensures exercises == RemoveExerciseFrom(old(exercises), exerciseId)
      ensures newExerciseName == old(newExerciseName)
      ensures old(Valid()) ==> Valid()
    {
      ghost var before := exercises;
      exercises := RemoveExerciseFrom(exercises, exerciseId);
      if EveryExerciseHasASet(before) {
        RemoveExerciseKeepsASet(before, exerciseId);
      }
    }
  }
}
