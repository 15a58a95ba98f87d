/** The view-state store of the `WorkoutGenerator` component in src/App.js:
    five fields behind `useState`, changed only by the setter call sites of the
    duration buttons, the category buttons, the reshuffle button, the workout
    entries and the detail overlay's Close button, and by the connectivity
    handler.

    Each user action is one synchronous step: a setter together with the
    regeneration that the `[duration, category]` effect runs after it. React
    skips a state update to the value the field already holds, and then the
    effect does not run again; so choosing the duration or the category that
    is already selected leaves the workout as it is. */
module ViewState {
  import opened Wrappers
  import opened Catalog
  import opened Selection

  const DefaultDuration := 5
  const DefaultCategory := "strength"

  class WorkoutView {
    var duration: int
    var category: string
    var workout: seq<Exercise>
    var selectedExercise: Option<Exercise>
    var isOffline: bool

    /** Every entry ever placed in `workout`, across regenerations. */
    ghost var placed: set<Exercise>

    /** Duration and category hold offered values; the workout has
        `Count(duration)` entries, all from the current category's list; the
        detail overlay shows an entry that was once in the workout. */
    ghost predicate Valid()
      reads this
    {
      duration in OfferedDurations &&
      category in Exercises &&
      |workout| == Count(duration) &&
      (forall e :: e in workout ==> e in Exercises[category]) &&
      (forall e :: e in workout ==> e in placed) &&
      (selectedExercise.Some? ==> selectedExercise.value in placed)
    }

    /** Mounting: the initial `useState` values, then the first run of the
        effect fills the workout with 3 strength exercises. */
    constructor (draws: seq<real>)
      requires AllRandom(draws) && Count(DefaultDuration) <= |draws|
      ensures Valid()
      ensures duration == 5 && category == "strength"
      ensures selectedExercise == None && !isOffline
      ensures |workout| == 3
      ensures workout == Draws(Exercises["strength"], draws[..3])
      ensures placed == set e | e in workout
    {
      var w := GenerateWorkout(DefaultCategory, DefaultDuration, draws);
      duration := DefaultDuration;
      category := DefaultCategory;
      workout := w;
      selectedExercise := None;
      isOffline := false;
      placed := set e | e in w;
    }

    /** `generateWorkout` as the reshuffle button calls it: a new workout from
        the current duration and category; nothing else changes, and an open
        detail overlay keeps its exercise. */
    method Reshuffle(draws: seq<real>)
      requires Valid()
      requires AllRandom(draws) && Count(duration) <= |draws|
      modifies this
      ensures Valid()
      ensures duration == old(duration) && category == old(category)
      ensures workout == Draws(Exercises[category], draws[..Count(duration)])
      ensures placed == old(placed) + set e | e in workout
      ensures selectedExercise == old(selectedExercise) && isOffline == old(isOffline)
    {
      workout := GenerateWorkout(category, duration, draws);
      placed := placed + set e | e in workout;
    }

    /** A duration button: `setDuration(time)`, then regeneration when the
        duration actually changed. */
    method SetDuration(time: int, draws: seq<real>)
      requires Valid()
      requires time in OfferedDurations
      requires AllRandom(draws) && Count(time) <= |draws|
      modifies this
      ensures Valid()
      ensures duration == time
      ensures time == old(duration) ==> workout == old(workout)
      ensures time != old(duration) ==> workout == Draws(Exercises[category], draws[..Count(time)])
      ensures placed == old(placed) + set e | e in workout
      ensures category == old(category)
      ensures selectedExercise == old(selectedExercise) && isOffline == old(isOffline)
    {
      if time != duration {
        var w := GenerateWorkout(category, time, draws);
        duration, workout := time, w;
        placed := placed + set e | e in w;
      }
    }

    /** A category button: `setCategory(cat)`, then regeneration when the
        category actually changed. */
    method SetCategory(cat: string, draws: seq<real>)
      requires Valid()
      requires cat in CategoryKeys
      requires AllRandom(draws) && Count(duration) <= |draws|
      modifies this
      ensures Valid()
      ensures category == cat && duration == old(duration)
      ensures cat == old(category) ==> workout == old(workout)
      ensures cat != old(category) ==> workout == Draws(Exercises[cat], draws[..Count(duration)])
      ensures placed == old(placed) + set e | e in workout
      ensures selectedExercise == old(selectedExercise) && isOffline == old(isOffline)
    {
      if cat != category {
        var w := GenerateWorkout(cat, duration, draws);
        category, workout := cat, w;
        placed := placed + set e | e in w;
      }
    }

    /** Clicking a workout entry opens the detail overlay on exactly that
        record. */
    method SelectExercise(exercise: Exercise)
      requires Valid()
      requires exercise in workout
      modifies this
      ensures Valid()
      ensures selectedExercise == Some(exercise)
      ensures duration == old(duration) && category == old(category)
      ensures workout == old(workout) && isOffline == old(isOffline)
      ensures placed == old(placed)
    {
      selectedExercise := Some(exercise);
    }

    /** The overlay's Close button: `setSelectedExercise(null)`. */
    method CloseDetail()
      requires Valid()
      modifies this
      ensures Valid()
      ensures selectedExercise == None
      ensures duration == old(duration) && category == old(category)
      ensures workout == old(workout) && isOffline == old(isOffline)
      ensures placed == old(placed)
    {
      selectedExercise := None;
    }

    /** `handleOnlineStatus` on an `online` or `offline` event, given the value
        of `navigator.onLine` at that moment. */
    method HandleOnlineStatus(online: bool)
      requires Valid()
      modifies this
      ensures Valid()
      ensures isOffline == !online
      ensures duration == old(duration) && category == old(category)
      ensures workout == old(workout) && selectedExercise == old(selectedExercise)
      ensures placed == old(placed)
    {
      isOffline := !online;
    }
  }

  /** Mount, then press the "cardio" button: the workout then holds
      `Count(5)` entries, each Jumping Jacks or High Knees. */
  method CardioAfterMount(mountDraws: seq<real>, cardioDraws: seq<real>) returns (w: seq<Exercise>)
    requires AllRandom(mountDraws) && 3 <= |mountDraws|
    requires AllRandom(cardioDraws) && 3 <= |cardioDraws|
    ensures |w| == 3
    ensures forall e :: e in w ==> e.name in {"Jumping Jacks", "High Knees"}
  {
    var view := new WorkoutView(mountDraws);
    view.SetCategory("cardio", cardioDraws);
    CardioOnly(cardioDraws[..3]);
    w := view.workout;
  }
}
