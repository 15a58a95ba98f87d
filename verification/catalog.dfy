/** The static exercise catalog (`EXERCISES` in src/App.js): a read-only table
    from a category key to the ordered list of its exercise records. */
module Catalog {
  import opened Wrappers

  /** One exercise record. `kind` is the record's `type` tag; `equipment` is
      absent for the pure bodyweight exercises. */
  datatype Exercise = Exercise(
    name: string,
    description: string,
    demoUrl: string,
    kind: string,
    equipment: Option<string>)

  const PushUps := Exercise("Push-ups", "Standard chest and arm exercise", "/demos/pushups.mp4", "bodyweight", None)
  const Squats := Exercise("Squats", "Full lower body strength exercise", "/demos/squats.mp4", "bodyweight", None)
  const Lunges := Exercise("Lunges", "Leg strength and balance", "/demos/lunges.mp4", "bodyweight", None)

  const HamstringStretch := Exercise("Standing Hamstring Stretch", "Stretch back of thighs", "/demos/hamstring-stretch.mp4", "bodyweight", None)
  const ShoulderRolls := Exercise("Shoulder Rolls", "Upper body mobility", "/demos/shoulder-rolls.mp4", "bodyweight", None)

  const JumpingJacks := Exercise("Jumping Jacks", "Full body cardio warmup", "/demos/jumping-jacks.mp4", "bodyweight", None)
  const HighKnees := Exercise("High Knees", "Intense cardio movement", "/demos/high-knees.mp4", "bodyweight", None)

  const BenchPress := Exercise("Barbell Bench Press", "Chest and triceps strength exercise", "/demos/barbell-bench-press.mp4", "weights", Some("Barbell"))
  const Deadlift := Exercise("Deadlift", "Full body strength and posterior chain exercise", "/demos/deadlift.mp4", "weights", Some("Barbell"))
  const ShoulderPress := Exercise("Dumbbell Shoulder Press", "Shoulder muscle development", "/demos/dumbbell-shoulder-press.mp4", "weights", Some("Dumbbells"))
  const LegPress := Exercise("Leg Press", "Lower body strength training", "/demos/leg-press.mp4", "machine", Some("Leg Press Machine"))
  const TricepPushdown := Exercise("Cable Tricep Pushdown", "Targeted tricep isolation exercise", "/demos/cable-tricep-pushdown.mp4", "machine", Some("Cable Machine"))
  const PullUps := Exercise("Pull-ups", "Upper body pulling strength", "/demos/pull-ups.mp4", "bodyweight", Some("Pull-up Bar"))

  /** The category keys in declaration order (the order `Object.keys` lists them,
      which is the order of the category buttons). */
  const CategoryKeys: seq<string> := ["strength", "flexibility", "cardio", "gym"]

  const Exercises: map<string, seq<Exercise>> := map[
    "strength" := [PushUps, Squats, Lunges],
    "flexibility" := [HamstringStretch, ShoulderRolls],
    "cardio" := [JumpingJacks, HighKnees],
    "gym" := [BenchPress, Deadlift, ShoulderPress, LegPress, TricepPushdown, PullUps]
  ]

  /** `EXERCISES[category]`: the category's list, or None for a key the catalog
      does not have as its own. Every listed key is found, nothing else is, and
      every list found is non-empty. */
  function Lookup(category: string): (r: Option<seq<Exercise>>)
    ensures r.Some? <==> category in CategoryKeys
    ensures r.Some? ==> |r.value| > 0
    ensures r.Some? ==> r.value == Exercises[category]
  {
    if category in Exercises then Some(Exercises[category]) else None
  }

  /** Names are unique within each category list. */
  predicate NamesUnique(list: seq<Exercise>)
  {
    forall i, j :: 0 <= i < j < |list| ==> list[i].name != list[j].name
  }

  /** The shape of the table: the listed keys are exactly its keys; each list
      is non-empty with unique names; every gym exercise names its equipment
      and no exercise of another category needs any. */
  lemma CatalogShape()
    ensures Exercises.Keys == set k | k in CategoryKeys
    ensures |CategoryKeys| == |Exercises|
    ensures forall c :: c in Exercises ==> |Exercises[c]| > 0 && NamesUnique(Exercises[c])
    ensures forall e :: e in Exercises["gym"] ==> e.equipment.Some?
    ensures forall c, e :: c in Exercises && c != "gym" && e in Exercises[c] ==> e.equipment.None?
  {
  }
}
